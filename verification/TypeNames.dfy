/** Names in the protoc plugin: `tokenize`, `package_parts` and `class_name`. */
module TypeNames {
  import opened GrpcCall

  // ---- joining and splitting

  function Join(ts: seq<string>, sep: string): string {
    if ts == [] then "" else if |ts| == 1 then ts[0] else ts[0] + sep + Join(ts[1..], sep)
  }

  predicate Free(ts: seq<string>, c: char) { forall t | t in ts :: c !in t }

  lemma {:induction false} JoinSnoc(ts: seq<string>, t: string, sep: string)
    requires ts != []
    ensures Join(ts + [t], sep) == Join(ts, sep) + sep + t
    decreases |ts|
  {
    if |ts| == 1 {
      assert (ts + [t])[1..] == [t];
    } else {
      assert (ts + [t])[1..] == ts[1..] + [t];
      JoinSnoc(ts[1..], t, sep);
    }
  }

  // A first token is delimited by the first separator.
  lemma FirstTokenUnique(a: string, x: string, b: string, y: string, c: char)
    requires c !in a && c !in b && a + [c] + x == b + [c] + y
    ensures a == b && x == y
  {
    var s := a + [c] + x;
    assert s[|a|] == c && s[|b|] == c;
    assert forall i | 0 <= i < |a| :: s[i] == a[i];
    assert forall i | 0 <= i < |b| :: s[i] == b[i];
    assert s[..|a|] == a && s[..|b|] == b;
    assert s[|a| + 1..] == x && s[|b| + 1..] == y;
  }

  lemma HasSeparator(ts: seq<string>, c: char)
    requires |ts| > 1
    ensures c in Join(ts, [c])
  {
  }

  /** A string splits into separator-free tokens in only one way. */
  lemma {:induction false} SplitUnique(ts: seq<string>, us: seq<string>, c: char)
    requires ts != [] && us != [] && Free(ts, c) && Free(us, c)
    requires Join(ts, [c]) == Join(us, [c])
    ensures ts == us
    decreases |ts|
  {
    if |ts| == 1 || |us| == 1 {
      if |ts| > 1 { HasSeparator(ts, c); }
      if |us| > 1 { HasSeparator(us, c); }
    } else {
      FirstTokenUnique(ts[0], Join(ts[1..], [c]), us[0], Join(us[1..], [c]), c);
      SplitUnique(ts[1..], us[1..], c);
    }
  }

  // ---- tokenize

  const NPOS: int := -1

  // `std::string::find` from a position.
  method Find(s: string, c: char, from: nat) returns (i: int)
    requires from <= |s|
    ensures i == NPOS ==> c !in s[from..]
    ensures i != NPOS ==> from <= i < |s| && s[i] == c && c !in s[from..i]
  {
    for k := from to |s|
      invariant c !in s[from..k]
    {
      if s[k] == c {
        return k;
      }
    }
    return NPOS;
  }

  // `tokens`, each followed by the separator, make up the first `current` characters of `s`.
  predicate Consumed(tokens: seq<string>, s: string, c: char, current: nat) {
    && current <= |s| && Free(tokens, c)
    && if tokens == [] then current == 0 else Join(tokens, [c]) + [c] == s[..current]
  }

  lemma TokenAdded(tokens: seq<string>, s: string, c: char, current: nat, next: nat)
    requires Consumed(tokens, s, c, current)
    requires current <= next < |s| && s[next] == c && c !in s[current..next]
    ensures Consumed(tokens + [s[current..next]], s, c, next + 1)
  {
    var token := s[current..next];
    if tokens != [] { JoinSnoc(tokens, token, [c]); }
    assert s[..next + 1] == s[..current] + token + [c];
  }

  lemma LastTokenAdded(tokens: seq<string>, s: string, c: char, current: nat)
    requires Consumed(tokens, s, c, current) && c !in s[current..]
    ensures Join(tokens + [s[current..]], [c]) == s && Free(tokens + [s[current..]], c)
  {
    if tokens != [] { JoinSnoc(tokens, s[current..], [c]); }
    assert s == s[..current] + s[current..];
  }

  /** Joining the tokens gives the string back, and no token contains the separator.  The result is
      empty exactly for the empty string. */
  method Tokenize(s: string, c: char) returns (result: seq<string>)
    ensures Join(result, [c]) == s && Free(result, c)
    ensures result == [] <==> s == ""
  {
    result := [];
    if s != "" {
      var current := 0;
      var next := Find(s, c, 0);
      while next != NPOS
        invariant 0 <= current && Consumed(result, s, c, current)
        invariant next == NPOS ==> c !in s[current..]
        invariant next != NPOS ==> current <= next < |s| && s[next] == c && c !in s[current..next]
        decreases |s| - current, if next == NPOS then 0 else 1
      {
        TokenAdded(result, s, c, current, next);
        result := result + [s[current..next]];
        current := next + 1;
        next := Find(s, c, current);
      }
      // `current` is never equal to npos, so the rest is always a token, even when it is empty.
      LastTokenAdded(result, s, c, current);
      result := result + [s[current..]];
    }
  }

  /** Splitting a joined list gives the list back, for every list of separator-free tokens but the
      one that holds a single empty token. */
  method TokenizeJoined(ts: seq<string>, c: char) returns (result: seq<string>)
    requires ts != [] && Free(ts, c)
    ensures result == ts <==> ts != [""]
  {
    result := Tokenize(Join(ts, [c]), c);
    if |ts| > 1 {
      assert |Join(ts, [c])| >= 1;
    }
    if result != [] {
      SplitUnique(result, ts, c);
    }
  }

  // ---- descriptors

  // A message type: top-level in a package, or nested in another one.
  datatype Descriptor =
    | Top(package: string, name: string)
    | Nested(containing: Descriptor, name: string)

  // Identifiers contain no dot, and so does no part of a package.
  predicate WellNamed(d: Descriptor) {
    '.' !in d.name && (d.Nested? ==> WellNamed(d.containing))
  }

  function FullName(d: Descriptor): string {
    match d
    case Top(package, name) => if package == "" then name else package + "." + name
    case Nested(containing, name) => FullName(containing) + "." + name
  }

  function Outermost(d: Descriptor): (o: Descriptor)
    ensures o.Top? && (WellNamed(d) ==> WellNamed(o))
  {
    if d.Top? then d else Outermost(d.containing)
  }

  // The names from the outermost type down to `d`.
  function Chain(d: Descriptor): (names: seq<string>)
    ensures names != []
  {
    if d.Top? then [d.name] else Chain(d.containing) + [d.name]
  }

  // `s` with every dot replaced by `sep`.
  function Replaced(s: string, sep: string): string {
    if s == "" then "" else (if s[0] == '.' then sep else [s[0]]) + Replaced(s[1..], sep)
  }

  lemma {:induction false} ReplacedAppend(s: string, t: string, sep: string)
    ensures Replaced(s + t, sep) == Replaced(s, sep) + Replaced(t, sep)
    decreases |s|
  {
    if s == "" {
      assert s + t == t;
    } else {
      assert (s + t)[1..] == s[1..] + t;
      ReplacedAppend(s[1..], t, sep);
    }
  }

  lemma {:induction false} ReplacedFree(s: string, sep: string)
    requires '.' !in s
    ensures Replaced(s, sep) == s
    decreases |s|
  {
    if s != "" {
      ReplacedFree(s[1..], sep);
      assert s == [s[0]] + s[1..];
    }
  }

  lemma ReplacedDotted(s: string, name: string, sep: string)
    requires '.' !in name
    ensures Replaced(s + "." + name, sep) == Replaced(s, sep) + sep + name
  {
    ReplacedAppend(s + ".", name, sep);
    ReplacedAppend(s, ".", sep);
    assert Replaced(".", sep) == sep + Replaced("", sep);
    ReplacedFree(name, sep);
  }

  lemma {:induction false} ReplacedJoin(ts: seq<string>, sep: string)
    requires Free(ts, '.')
    ensures Replaced(Join(ts, "."), sep) == Join(ts, sep)
    decreases |ts|
  {
    if ts != [] {
      ReplacedFree(ts[0], sep);
      if |ts| > 1 {
        ReplacedAppend(ts[0] + ".", Join(ts[1..], "."), sep);
        ReplacedAppend(ts[0], ".", sep);
        assert Replaced(".", sep) == sep + Replaced("", sep);
        ReplacedJoin(ts[1..], sep);
      }
    }
  }

  // The part of the full name below the outermost type.
  function Inner(d: Descriptor): string {
    match d
    case Top(_, _) => ""
    case Nested(containing, name) => Inner(containing) + "." + name
  }

  lemma {:induction false} FullNameSplits(d: Descriptor)
    ensures FullName(d) == FullName(Outermost(d)) + Inner(d)
  {
    match d
    case Top(_, _) =>
    case Nested(containing, name) =>
      FullNameSplits(containing);
  }

  // With its dots replaced, it continues the chain of names.
  lemma {:induction false} InnerContinuesChain(d: Descriptor, sep: string)
    requires WellNamed(d)
    ensures Outermost(d).name + Replaced(Inner(d), sep) == Join(Chain(d), sep)
  {
    match d
    case Top(_, _) =>
    case Nested(containing, name) =>
      InnerContinuesChain(containing, sep);
      ReplacedDotted(Inner(containing), name, sep);
      JoinSnoc(Chain(containing), name, sep);
  }

  // The outermost full name, with its dots replaced, is the package's parts and the type's name.
  lemma OuterName(package: string, name: string, parts: seq<string>, sep: string)
    requires '.' !in name && Namespaces(package, parts)
    ensures Replaced(FullName(Top(package, name)), sep) == Join(parts + [name], sep)
  {
    ReplacedJoin(parts + [name], sep);
    if parts == [] {
      assert parts + [name] == [name];
    } else {
      JoinSnoc(parts, name, ".");
    }
  }

  // Extending the last element of a joined list extends the result.
  lemma {:induction false} JoinLast(ts: seq<string>, t: string, more: string, sep: string)
    ensures Join(ts + [t], sep) + more == Join(ts + [t + more], sep)
    decreases |ts|
  {
    if ts == [] {
      assert ts + [t] == [t] && ts + [t + more] == [t + more];
    } else {
      JoinSnoc(ts, t, sep);
      JoinSnoc(ts, t + more, sep);
    }
  }

  // ---- class_name

  // A loop that copies `s` to `dst`, writing `sep` for every dot.
  method AppendReplaced(dst: string, s: string, sep: string) returns (r: string)
    ensures r == dst + Replaced(s, sep)
  {
    r := dst;
    for i := 0 to |s|
      invariant r == dst + Replaced(s[..i], sep)
    {
      ReplacedAppend(s[..i], [s[i]], sep);
      assert s[..i + 1] == s[..i] + [s[i]];
      assert Replaced([s[i]], sep) == (if s[i] == '.' then sep else [s[i]]) + Replaced("", sep);
      if s[i] == '.' {
        r := r + sep;
      } else {
        r := r + [s[i]];
      }
    }
    assert s[..|s|] == s;
  }

  // The namespaces the generator opens for a package.
  predicate Namespaces(package: string, parts: seq<string>) {
    Join(parts, ".") == package && Free(parts, '.') && (parts == [] <==> package == "")
  }

  method PackageParts(package: string) returns (parts: seq<string>)
    ensures Namespaces(package, parts)
    ensures forall other | Namespaces(package, other) :: other == parts
  {
    parts := Tokenize(package, '.');
    forall other | Namespaces(package, other) ensures other == parts {
      if other != [] { SplitUnique(other, parts, '.'); }
    }
  }

  /** The generated type name is the global qualifier, the namespaces the generator opens for the
      package, and the nesting chain joined by underscores. */
  method ClassName(d: Descriptor) returns (result: string)
    requires WellNamed(d)
    ensures forall parts | Namespaces(Outermost(d).package, parts) ::
              result == "::" + Join(parts + [Join(Chain(d), "_")], "::")
  {
    var outer := d;
    while outer.Nested?
      invariant Outermost(outer) == Outermost(d)
      decreases outer
    {
      outer := outer.containing;
    }
    var outerName := FullName(outer);
    FullNameSplits(d);
    InnerContinuesChain(d, "_");
    var innerName := FullName(d)[|outerName|..];
    assert innerName == Inner(d);
    result := "::";
    result := AppendReplaced(result, outerName, "::");
    result := AppendReplaced(result, innerName, "_");
    forall parts | Namespaces(outer.package, parts)
      ensures result == "::" + Join(parts + [Join(Chain(d), "_")], "::")
    {
      OuterName(outer.package, outer.name, parts, "::");
      JoinLast(parts, outer.name, Replaced(innerName, "_"), "::");
      assert "::" + Replaced(outerName, "::") + Replaced(innerName, "_")
          == "::" + (Replaced(outerName, "::") + Replaced(innerName, "_"));
    }
  }
}
