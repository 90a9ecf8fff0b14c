/** The transitive file response of the reflection service: `fill_file_response` and its callers. */
module Reflection {
  import opened GrpcCall

  // A file descriptor: its imports, in order, and its serialised form.  A pool holds one per name.
  datatype File = File(dependencies: seq<string>, proto: string)
  type Files = map<string, File>

  // Descriptor pools link every import.
  ghost predicate Linked(files: Files) {
    forall f, d | f in files && d in files[f].dependencies :: d in files
  }

  datatype Failure = Cancelled | NotFound
  datatype Result = Response(protos: seq<string>) | Failed(error: Failure)

  // ---- what the response should contain

  // `path` leads from its first file to its last along imports, and stays out of `avoid`.
  ghost predicate Path(files: Files, path: seq<string>, avoid: set<string>) {
    && path != []
    && (forall i | 0 <= i < |path| :: path[i] in files && path[i] !in avoid)
    && (forall i | 0 <= i < |path| - 1 :: path[i + 1] in files[path[i]].dependencies)
  }

  ghost predicate ReachableAvoiding(files: Files, root: string, f: string, avoid: set<string>) {
    exists path :: Path(files, path, avoid) && path[0] == root && path[|path| - 1] == f
  }

  ghost predicate Reachable(files: Files, root: string, f: string) {
    ReachableAvoiding(files, root, f, {})
  }

  lemma PathExtends(files: Files, root: string, d: string, f: string, avoid: set<string>, more: set<string>)
    requires root in files && root !in avoid && d in files[root].dependencies
    requires avoid <= more && ReachableAvoiding(files, d, f, more)
    ensures ReachableAvoiding(files, root, f, avoid)
  {
    var path :| Path(files, path, more) && path[0] == d && path[|path| - 1] == f;
    var longer := [root] + path;
    assert Path(files, longer, avoid);
    assert longer[0] == root && longer[|longer| - 1] == f;
  }

  lemma PathGrows(files: Files, root: string, f: string, d: string, avoid: set<string>)
    requires Linked(files) && ReachableAvoiding(files, root, f, avoid)
    requires f in files && d in files[f].dependencies && d !in avoid
    ensures ReachableAvoiding(files, root, d, avoid)
  {
    var path :| Path(files, path, avoid) && path[0] == root && path[|path| - 1] == f;
    var longer := path + [d];
    assert Path(files, longer, avoid);
    assert longer[0] == root && longer[|longer| - 1] == d;
  }

  lemma ReachesItself(files: Files, root: string, avoid: set<string>)
    requires root in files && root !in avoid
    ensures ReachableAvoiding(files, root, root, avoid)
  {
    assert Path(files, [root], avoid);
  }

  // A set that contains the root and every import not in `avoid` contains everything reachable.
  lemma {:induction false} ClosedContainsPath(files: Files, path: seq<string>, avoid: set<string>, s: set<string>)
    requires Path(files, path, avoid) && path[0] in s
    requires forall f, d | f in s && f in files && d in files[f].dependencies && d !in avoid :: d in s
    ensures path[|path| - 1] in s
    decreases |path|
  {
    if |path| > 1 {
      ClosedContainsPath(files, path[1..], avoid, s);
    }
  }

  predicate Distinct(names: seq<string>) {
    forall i, j | 0 <= i < j < |names| :: names[i] != names[j]
  }

  ghost function Elements(names: seq<string>): set<string> { set n | n in names }

  function Protos(files: Files, names: seq<string>): seq<string>
    requires forall n | n in names :: n in files
  {
    seq(|names|, i requires 0 <= i < |names| => files[names[i]].proto)
  }

  // `d` is the first of the imports that is not among `names`.
  predicate FirstNew(imports: seq<string>, names: seq<string>, d: string) {
    exists i | 0 <= i < |imports| :: imports[i] == d && d !in names && forall j | 0 <= j < i :: imports[j] in names
  }

  /** Depth first, in the order of the imports: the `c`-th file is the first import, not yet named, of
      the latest file, from the `root`-th on, that has an import not yet named. */
  ghost predicate NextInOrder(files: Files, names: seq<string>, root: nat, c: nat)
    requires root < c < |names| && forall n | n in names :: n in files
  {
    exists p | root <= p < c ::
      && FirstNew(files[names[p]].dependencies, names[..c], names[c])
      && forall q, d | p < q < c && d in files[names[q]].dependencies :: d in names[..c]
  }

  // ---- the walk

  /** The shared `seen_files` set and the response under construction.  `names` records which files
      the response's descriptors belong to. */
  class Walk {
    const files: Files
    var seen: set<string>
    var response: seq<string>
    ghost var names: seq<string>

    // The response holds the descriptors of exactly the files seen, each once.
    ghost predicate Valid()
      reads this
    {
      && Linked(files)
      && (forall n | n in names :: n in files)
      && Distinct(names) && seen == Elements(names)
      && response == Protos(files, names)
    }

    constructor (files: Files)
      requires Linked(files)
      ensures this.files == files && Valid() && seen == {} && names == []
    {
      this.files := files;
      seen, response, names := {}, [], [];
    }

    // Marks a file as seen and adds its descriptor.
    method Emit(file: string)
      requires Valid() && file in files && file !in seen
      modifies this
      ensures Valid() && names == old(names) + [file] && seen == old(seen) + {file}
    {
      seen := seen + {file};
      response := response + [files[file].proto];
      names := names + [file];
      assert Elements(names) == Elements(old(names)) + {file};
    }

    /** Whatever the import graph, cycles included, the walk terminates; it adds exactly the files
        that `file` reaches through files not seen before, each once, `file` itself first. */
    method FillFileResponse(file: string)
      requires Valid() && file in files
      modifies this
      ensures Valid()
      ensures old(names) <= names
      ensures forall f :: f in seen - old(seen) <==> ReachableAvoiding(files, file, f, old(seen))
      ensures if file in old(seen) then names == old(names) else |names| > |old(names)| && names[|old(names)|] == file
      ensures forall c | |old(names)| < c < |names| :: NextInOrder(files, names, |old(names)|, c)
      decreases files.Keys - seen
    {
      hide ReachableAvoiding, Path, Protos, Distinct;
      ghost var before := seen;
      if file in seen {
        NothingReachable(file, before);
        return;
      }
      Emit(file);
      ReachesItself(files, file, before);
      var dependencies := files[file].dependencies;
      for i := 0 to |dependencies|
        invariant Valid() && before + {file} <= seen && old(names) + [file] <= names
        invariant forall f | f in seen - before :: ReachableAvoiding(files, file, f, before)
        invariant forall f, d | f in seen - before && f != file && d in files[f].dependencies :: d in seen
        invariant forall j | 0 <= j < i :: dependencies[j] in seen
        invariant names[|old(names)|] == file
        invariant forall c | |old(names)| < c < |names| :: NextInOrder(files, names, |old(names)|, c)
      {
        ghost var earlier, named := seen, names;
        forall q, d | |old(names)| < q < |named| && d in files[named[q]].dependencies ensures d in named {
          NamedSince(old(names), file, q);
          assert d in seen;
        }
        FillFileResponse(dependencies[i]);
        AddedByImport(file, dependencies[i], before, earlier);
        OrderKept(|old(names)|, named, i);
      }
      AllReachableSeen(file, before);
    }

    // What is named after the file was not seen before it.
    lemma NamedSince(earlier: seq<string>, file: string, q: nat)
      requires Valid() && earlier + [file] <= names && |earlier| < q < |names|
      ensures names[q] in seen && names[q] !in Elements(earlier) && names[q] != file
    {
      assert names[|earlier|] == (earlier + [file])[|earlier|];
      assert forall i | 0 <= i < |earlier| :: names[i] == earlier[i];
    }

    // The walk of the `i`-th import of the `root`-th file continues the order.
    lemma OrderKept(root: nat, named: seq<string>, i: nat)
      requires (forall n | n in names :: n in files) && named <= names && root < |named|
      requires forall c | root < c < |named| :: NextInOrder(files, named, root, c)
      requires forall c | |named| < c < |names| :: NextInOrder(files, names, |named|, c)
      requires
        var imports := files[names[root]].dependencies;
        && i < |imports|
        && (forall j | 0 <= j < i :: imports[j] in named)
        && (if imports[i] in named then names == named else |names| > |named| && names[|named|] == imports[i])
      requires forall q, d | root < q < |named| && d in files[named[q]].dependencies :: d in named
      ensures forall c | root < c < |names| :: NextInOrder(files, names, root, c)
    {
      forall c | root < c < |names| ensures NextInOrder(files, names, root, c) {
        if c < |named| {
          assert NextInOrder(files, named, root, c) && named[..c] == names[..c];
        } else if c == |named| {
          assert names[..c] == named;
          assert FirstNew(files[names[root]].dependencies, names[..c], names[c]);
        } else {
          assert NextInOrder(files, names, |named|, c);
        }
      }
    }

    lemma NothingReachable(file: string, avoid: set<string>)
      requires file in avoid
      ensures forall f :: !ReachableAvoiding(files, file, f, avoid)
    {
    }

    // What the walk of an import has added is reachable from the importing file, and imports nothing
    // that is not seen.
    lemma AddedByImport(file: string, d: string, before: set<string>, earlier: set<string>)
      requires Linked(files) && file in files && file !in before && d in files[file].dependencies
      requires before <= earlier <= seen
      requires forall f :: f in seen - earlier <==> ReachableAvoiding(files, d, f, earlier)
      ensures forall f | f in seen - earlier :: f in files && ReachableAvoiding(files, file, f, before)
      ensures forall f, e | f in seen - earlier && e in files[f].dependencies :: e in seen
      ensures d in seen
    {
      forall f | f in seen - earlier ensures f in files && ReachableAvoiding(files, file, f, before) {
        PathExtends(files, file, d, f, before, earlier);
      }
      forall f, e | f in seen - earlier && e in files[f].dependencies ensures e in seen {
        if e !in earlier { PathGrows(files, d, f, e, earlier); }
      }
      if d !in earlier { ReachesItself(files, d, earlier); }
    }

    // A walk that has seen every import of what it added has seen everything reachable.
    lemma AllReachableSeen(file: string, before: set<string>)
      requires file in seen - before
      requires forall f, d | f in seen - before && f in files && d in files[f].dependencies :: d in seen
      ensures forall f | ReachableAvoiding(files, file, f, before) :: f in seen - before
    {
      forall f | ReachableAvoiding(files, file, f, before) ensures f in seen - before {
        var path :| Path(files, path, before) && path[0] == file && path[|path| - 1] == f;
        ClosedContainsPath(files, path, before, seen - before);
      }
    }
  }

  // ---- the callers

  // `descriptor_pool_` and what it finds by name and by symbol.
  datatype Pool = Pool(files: Files, symbols: map<string, string>)

  ghost predicate WellFormed(pool: Pool) {
    && Linked(pool.files)
    && forall s | s in pool.symbols :: pool.symbols[s] in pool.files
  }

  // The response consists of the descriptors of exactly the files reachable from `root`, each once,
  // `root` first and the others depth first in the order of the imports.
  ghost predicate TransitiveResponse(files: Files, root: string, protos: seq<string>) {
    exists names: seq<string> ::
      && Distinct(names) && names != [] && names[0] == root
      && (forall f :: f in names <==> Reachable(files, root, f))
      && (forall n | n in names :: n in files)
      && (forall c | 0 < c < |names| :: NextInOrder(files, names, 0, c))
      && protos == Protos(files, names)
  }

  method RespondWith(files: Files, root: string) returns (protos: seq<string>)
    requires Linked(files) && root in files
    ensures TransitiveResponse(files, root, protos)
  {
    var walk := new Walk(files);
    walk.FillFileResponse(root);
    protos := walk.response;
    assert forall f :: f in walk.names <==> f in Elements(walk.names);
  }

  // No pool is the null pointer that the callers check for.
  method GetFileByName(pool: Option<Pool>, filename: string) returns (r: Result)
    requires pool.Some? ==> WellFormed(pool.value)
    ensures pool.None? ==> r == Failed(Cancelled)
    ensures pool.Some? && filename !in pool.value.files ==> r == Failed(NotFound)
    ensures pool.Some? && filename in pool.value.files ==>
              r.Response? && TransitiveResponse(pool.value.files, filename, r.protos)
  {
    if pool.None? {
      return Failed(Cancelled);
    }
    if filename !in pool.value.files {
      return Failed(NotFound);
    }
    var protos := RespondWith(pool.value.files, filename);
    return Response(protos);
  }

  method GetFileContainingSymbol(pool: Option<Pool>, symbol: string) returns (r: Result)
    requires pool.Some? ==> WellFormed(pool.value)
    ensures pool.None? ==> r == Failed(Cancelled)
    ensures pool.Some? && symbol !in pool.value.symbols ==> r == Failed(NotFound)
    ensures pool.Some? && symbol in pool.value.symbols ==>
              r.Response? && TransitiveResponse(pool.value.files, pool.value.symbols[symbol], r.protos)
  {
    if pool.None? {
      return Failed(Cancelled);
    }
    if symbol !in pool.value.symbols {
      return Failed(NotFound);
    }
    var protos := RespondWith(pool.value.files, pool.value.symbols[symbol]);
    return Response(protos);
  }

  /** Root, order and completeness leave only one response. */
  lemma OrderIsUnique(files: Files, a: seq<string>, b: seq<string>)
    requires a != [] && b != [] && a[0] == b[0]
    requires forall n | n in a || n in b :: n in files
    requires forall c | 0 < c < |a| :: NextInOrder(files, a, 0, c)
    requires forall c | 0 < c < |b| :: NextInOrder(files, b, 0, c)
    requires forall n, d | n in a && d in files[n].dependencies :: d in a
    requires forall n, d | n in b && d in files[n].dependencies :: d in b
    ensures a == b
  {
    SamePrefix(files, a, b, if |a| < |b| then |a| else |b|);
    assert a[..|a|] == a && b[..|b|] == b;
    if |a| < |b| {
      NextIsNewImport(files, b, |a|);
      assert false;
    }
    if |b| < |a| {
      NextIsNewImport(files, a, |b|);
      assert false;
    }
  }

  lemma NextIsNewImport(files: Files, names: seq<string>, c: nat)
    requires 0 < c < |names| && (forall n | n in names :: n in files)
    requires forall c | 0 < c < |names| :: NextInOrder(files, names, 0, c)
    ensures names[c] !in names[..c] && exists n :: n in names[..c] && names[c] in files[n].dependencies
  {
    assert NextInOrder(files, names, 0, c);
  }

  lemma {:induction false} SamePrefix(files: Files, a: seq<string>, b: seq<string>, c: nat)
    requires 0 < c <= |a| && c <= |b| && a[0] == b[0]
    requires forall n | n in a || n in b :: n in files
    requires forall c | 0 < c < |a| :: NextInOrder(files, a, 0, c)
    requires forall c | 0 < c < |b| :: NextInOrder(files, b, 0, c)
    ensures a[..c] == b[..c]
  {
    if c > 1 {
      SamePrefix(files, a, b, c - 1);
      assert NextInOrder(files, a, 0, c - 1) && NextInOrder(files, b, 0, c - 1);
    }
  }
}
