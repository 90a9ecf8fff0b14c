/** The vendored `asio::basic_streambuf`: a FIFO of bytes over one array that is shifted and regrown
    in place.  The stream pointers are offsets into the array. */
module Streambuf {
  import opened GrpcCall

  const BUFFER_DELTA: nat := 128

  function Min(a: nat, b: nat): nat { if a < b then a else b }
  function Max(a: nat, b: nat): nat { if a < b then b else a }

  // `std::memmove` towards the start of the array.
  method MoveDown(a: array<Byte>, from: nat, count: nat)
    requires from + count <= a.Length
    modifies a
    ensures a[..] == old(a[from..from + count]) + old(a[count..])
  {
    for i := 0 to count
      invariant forall k | 0 <= k < i :: a[k] == old(a[from + k])
      invariant forall k | i <= k < a.Length :: a[k] == old(a[k])
    {
      a[i] := a[from + i];
    }
  }

  // `std::vector::resize` to a larger size, which reallocates.
  method Grown(a: array<Byte>, size: nat) returns (b: array<Byte>)
    requires a.Length <= size
    ensures fresh(b) && b.Length == size && b[..a.Length] == a[..]
  {
    b := new Byte[size](_ => 0);
    for i := 0 to a.Length
      invariant forall k | 0 <= k < i :: b[k] == a[k]
    {
      b[i] := a[i];
    }
  }

  // The bytes held were copied to the start of the array, and the rest was left alone.
  ghost predicate Shifted(before: seq<Byte>, held: seq<Byte>, after: seq<Byte>) {
    |held| <= |before| && after == held + before[|held|..]
  }

  class BasicStreambuf {
    const maxSize: nat
    var buffer: array<Byte>
    var gptr: nat
    var egptr: nat
    var pptr: nat
    var epptr: nat

    ghost predicate Valid()
      reads this
    {
      gptr <= egptr <= pptr <= epptr <= maxSize && buffer.Length == Max(epptr, 1)
    }

    // The input sequence, `data()`.
    function Contents(): seq<Byte>
      requires Valid()
      reads this, buffer
    {
      buffer[gptr..pptr]
    }

    // The output sequence, which `prepare` hands out.
    function PutArea(): seq<Byte>
      requires Valid()
      reads this, buffer
    {
      buffer[pptr..epptr]
    }

    constructor (maximumSize: nat)
      ensures Valid() && fresh(buffer) && maxSize == maximumSize
      ensures Contents() == [] && |PutArea()| == Min(maximumSize, BUFFER_DELTA)
    {
      var pend := Min(maximumSize, BUFFER_DELTA);
      maxSize := maximumSize;
      buffer := new Byte[Max(pend, 1)](_ => 0);
      gptr, egptr, pptr, epptr := 0, 0, 0, pend;
    }

    function Size(): (n: nat)
      requires Valid()
      reads this, buffer
      ensures n == |Contents()| <= maxSize
    {
      pptr - gptr
    }

    /** Fails, that is throws, iff the bytes held and the room asked for exceed the maximum.  The put
        area stays if it is large enough; else it is what a shift leaves, regrown to exactly `n` if
        that is too little.  A throw comes after the shift, which the stream pointers do not follow. */
    method Reserve(n: nat) returns (ok: bool)
      requires Valid()
      modifies this, buffer
      ensures Valid() && (buffer == old(buffer) || fresh(buffer))
      ensures ok <==> old(Size()) + n <= maxSize
      ensures ok ==> Contents() == old(Contents())
      ensures ok ==> |PutArea()| == if n <= |old(PutArea())| then |old(PutArea())|
                                    else Max(n, old(epptr) - old(Size()))
      ensures n <= |old(PutArea())| ==> PutArea() == old(PutArea())
      ensures !ok ==> (gptr, egptr, pptr, epptr) == old((gptr, egptr, pptr, epptr))
      ensures !ok ==> buffer == old(buffer) && Shifted(old(buffer[..]), old(Contents()), buffer[..])
    {
      var gnext, pnext, pend := gptr, pptr, epptr;
      if n <= pend - pnext {
        return true;
      }
      if gnext > 0 {
        pnext := pnext - gnext;
        MoveDown(buffer, gnext, pnext);
      }
      assert buffer[..pnext] == old(Contents());
      if n > pend - pnext {
        if n <= maxSize && pnext <= maxSize - n {
          pend := pnext + n;
          var held := buffer[..pnext];
          buffer := Grown(buffer, Max(pend, 1));
          assert buffer[..pnext] == held;
        } else {
          return false;
        }
      }
      gptr, egptr := 0, pnext;
      pptr, epptr := pnext, pend;
      return true;
    }

    // The buffer handed out: where it starts, and its size.
    method Prepare(n: nat) returns (ok: bool, at: nat, size: nat)
      requires Valid()
      modifies this, buffer
      ensures Valid() && (buffer == old(buffer) || fresh(buffer))
      ensures ok <==> old(Size()) + n <= maxSize
      ensures ok ==> Contents() == old(Contents())
      ensures ok ==> at == pptr && size == n && at + size <= epptr
      ensures ok ==> |PutArea()| == if n <= |old(PutArea())| then |old(PutArea())|
                                    else Max(n, old(epptr) - old(Size()))
      ensures !ok ==> (gptr, egptr, pptr, epptr) == old((gptr, egptr, pptr, epptr))
      ensures !ok ==> buffer == old(buffer) && Shifted(old(buffer[..]), old(Contents()), buffer[..])
    {
      ok := Reserve(n);
      at, size := pptr, n;
    }

    // The caller of `prepare` fills the buffer it was handed.
    method Store(at: nat, bytes: seq<Byte>)
      requires Valid() && at == pptr && |bytes| <= |PutArea()|
      modifies buffer
      ensures Valid() && Contents() == old(Contents())
      ensures PutArea() == bytes + old(PutArea())[|bytes|..]
    {
      for i := 0 to |bytes|
        invariant forall k | 0 <= k < i :: buffer[at + k] == bytes[k]
        invariant forall k | 0 <= k < buffer.Length && !(at <= k < at + i) :: buffer[k] == old(buffer[k])
      {
        buffer[at + i] := bytes[i];
      }
    }

    method Commit(n: nat)
      requires Valid()
      modifies this
      ensures Valid() && buffer == old(buffer)
      ensures
        var k := Min(n, |old(PutArea())|);
        Contents() == old(Contents()) + old(PutArea())[..k] && PutArea() == old(PutArea())[k..] && egptr == pptr
    {
      var k := Min(n, epptr - pptr);
      pptr := pptr + k;
      egptr := pptr;
    }

    method Consume(n: nat)
      requires Valid()
      modifies this
      ensures Valid() && buffer == old(buffer)
      ensures Contents() == old(Contents())[Min(n, |old(Contents())|)..]
      ensures PutArea() == old(PutArea()) && egptr == pptr
    {
      if egptr < pptr {
        egptr := pptr;
      }
      var k := n;
      if gptr + n > pptr {
        k := pptr - gptr;
      }
      gptr := gptr + k;
    }

    // `None` is end-of-file.
    method Underflow() returns (r: Option<Byte>)
      requires Valid()
      modifies this
      ensures Valid() && buffer == old(buffer)
      ensures Contents() == old(Contents()) && PutArea() == old(PutArea())
      ensures r == if old(Contents()) == [] then None else Some(old(Contents())[0])
      ensures egptr == if old(Contents()) == [] then old(egptr) else pptr
    {
      if gptr < pptr {
        egptr := pptr;
        return Some(buffer[gptr]);
      } else {
        return None;
      }
    }

    // `*pptr() = c; pbump(1)`
    method PutOne(c: Byte)
      requires Valid() && |PutArea()| > 0
      modifies this, buffer
      ensures Valid() && buffer == old(buffer)
      ensures Contents() == old(Contents()) + [c] && PutArea() == old(PutArea())[1..]
    {
      buffer[pptr] := c;
      pptr := pptr + 1;
      assert buffer[gptr..pptr - 1] == old(Contents());
    }

    /** Appends one character; fails, that is throws, iff the buffer holds the maximum already. */
    method Overflow(c: Option<Byte>) returns (ok: bool)
      requires Valid()
      modifies this, buffer
      ensures Valid() && (buffer == old(buffer) || fresh(buffer))
      ensures ok <==> c.None? || old(Size()) < maxSize
      ensures ok ==> Contents() == if c.Some? then old(Contents()) + [c.value] else old(Contents())
      ensures ok && c.Some? ==>
                |PutArea()| + 1 == if |old(PutArea())| > 0 then |old(PutArea())|
                                   else Max(Min(BUFFER_DELTA, maxSize - old(Size())), old(epptr) - old(Size()))
      ensures !ok ==> (gptr, egptr, pptr, epptr) == old((gptr, egptr, pptr, epptr))
      ensures !ok ==> buffer == old(buffer) && Shifted(old(buffer[..]), old(Contents()), buffer[..])
    {
      if c.Some? {
        if pptr == epptr {
          var bufferSize := pptr - gptr;
          if bufferSize < maxSize && maxSize - bufferSize < BUFFER_DELTA {
            ok := Reserve(maxSize - bufferSize);
          } else {
            ok := Reserve(BUFFER_DELTA);
          }
          if !ok {
            return;
          }
        }
        PutOne(c.value);
      }
      ok := true;
    }

    /** Any run of operations behaves as on a bounded queue of bytes, up to the first that throws. */
    method Perform(ops: seq<Operation>) returns (ok: bool)
      requires Valid()
      modifies this, buffer
      ensures Valid()
      ensures ok <==> Queue(maxSize, old(Contents()), ops).Some?
      ensures ok ==> Contents() == Queue(maxSize, old(Contents()), ops).value
    {
      hide Shifted;
      ghost var expected := Queue(maxSize, Contents(), ops);
      for i := 0 to |ops|
        invariant Valid() && (buffer == old(buffer) || fresh(buffer))
        invariant Queue(maxSize, Contents(), ops[i..]) == expected
      {
        assert ops[i..][1..] == ops[i + 1..];
        ghost var q := Contents();
        match ops[i] {
          case Append(room, bytes) =>
            var at, size;
            ok, at, size := Prepare(Max(room, |bytes|));
            if !ok {
              return;
            }
            Store(at, bytes);
            assert PutArea()[..|bytes|] == bytes;
            Commit(|bytes|);
          case PutChar(c) =>
            ok := Overflow(c);
            if !ok {
              return;
            }
          case Drop(n) =>
            Consume(n);
          case Peek =>
            var _ := Underflow();
        }
        assert Apply(maxSize, q, ops[i]) == Some(Contents());
      }
      ok := true;
    }
  }

  /** A `reserve` that throws keeps the contents exactly when they repeat themselves with the period
      of the bytes consumed before them, as they do when nothing was consumed or no less than is held. */
  lemma ThrowKeepsContentsIff(before: seq<Byte>, after: seq<Byte>, g: nat, p: nat)
    requires g <= p <= |before| && Shifted(before, before[g..p], after)
    ensures
      var held := before[g..p];
      after[g..p] == held <==> forall k | g <= k < |held| :: held[k] == held[k - g]
    ensures g == 0 || g >= p - g ==> after[g..p] == before[g..p]
  {
  }

  // `Append` prepares room, fills some of it with the bytes and commits those.
  datatype Operation = Append(room: nat, bytes: seq<Byte>) | PutChar(c: Option<Byte>) | Drop(n: nat) | Peek

  // A queue of at most `max` bytes; `None` once the room asked for does not fit.
  function Apply(max: nat, q: seq<Byte>, op: Operation): Option<seq<Byte>> {
    match op
    case Append(room, bytes) => if |q| + Max(room, |bytes|) <= max then Some(q + bytes) else None
    case PutChar(c) => if c.None? then Some(q) else if |q| < max then Some(q + [c.value]) else None
    case Drop(n) => Some(q[Min(n, |q|)..])
    case Peek => Some(q)
  }

  function Queue(max: nat, q: seq<Byte>, ops: seq<Operation>): Option<seq<Byte>>
    decreases |ops|
  {
    if ops == [] then Some(q) else
    match Apply(max, q, ops[0])
    case None => None
    case Some(r) => Queue(max, r, ops[1..])
  }

  // How many bytes a run drops, and which bytes it appends.
  function Dropped(max: nat, q: seq<Byte>, ops: seq<Operation>): nat
    decreases |ops|
  {
    if ops == [] then 0 else
    match Apply(max, q, ops[0])
    case None => 0
    case Some(r) => (if ops[0].Drop? then Min(ops[0].n, |q|) else 0) + Dropped(max, r, ops[1..])
  }

  function Appended(ops: seq<Operation>): seq<Byte>
    decreases |ops|
  {
    if ops == [] then []
    else
      (match ops[0]
       case Append(_, bytes) => bytes
       case PutChar(c) => if c.Some? then [c.value] else []
       case _ => []) + Appended(ops[1..])
  }

  /** First in, first out: what the buffer holds after a run is what went in, in order, without the
      bytes dropped from the front; and it never exceeds the maximum. */
  lemma {:induction false} FirstInFirstOut(max: nat, q: seq<Byte>, ops: seq<Operation>)
    requires |q| <= max && Queue(max, q, ops).Some?
    ensures
      var all, k := q + Appended(ops), Dropped(max, q, ops);
      && k <= |all|
      && Queue(max, q, ops).value == all[k..]
      && |Queue(max, q, ops).value| <= max
    decreases |ops|
  {
    if ops != [] {
      var r := Apply(max, q, ops[0]).value;
      FirstInFirstOut(max, r, ops[1..]);
      if ops[0].Drop? {
        var d := Min(ops[0].n, |q|);
        assert q + Appended(ops) == q[..d] + (r + Appended(ops[1..]));
      } else {
        assert q + Appended(ops) == r + Appended(ops[1..]);
      }
    }
  }
}
