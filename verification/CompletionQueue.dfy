/** The worker that dispatches completions: `Completion_queue::worker_main`. */
module CompletionQueue {
  import opened CompletionTags
  import opened GrpcCall
  import opened Runs
  import ClientStreamingSession
  import ClientStreamingHandler
  import StreamingSession
  import ServerStreamingHandler
  import BidirSession
  import BidirHandler

  // ---- the objects a worker dispatches to

  datatype Callback =
    | ClientStreaming(client: ClientStreamingSession.State)
    | Collecting(collector: ClientStreamingHandler.State)
    | Streaming(session: StreamingSession.State)
    | Serving(handler: ServerStreamingHandler.State)
    | BidirClient(bidir: BidirSession.State)
    | BidirServer(server: BidirHandler.State)

  function CallOf(c: Callback): Call {
    match c
    case ClientStreaming(s) => s.call
    case Collecting(s) => s.call
    case Streaming(s) => s.call
    case Serving(s) => s.call
    case BidirClient(s) => s.call
    case BidirServer(s) => s.call
  }

  predicate Deleted(c: Callback) {
    match c
    case ClientStreaming(s) => s.deleted
    case Collecting(s) => s.deleted
    case Streaming(s) => s.deleted
    case Serving(s) => s.deleted
    case BidirClient(s) => s.deleted
    case BidirServer(s) => s.deleted
  }

  // Core completes a batch: it is no longer outstanding and its status buffer is written.
  function Retired(c: Callback, b: Batch, st: Status): Callback {
    match c
    case ClientStreaming(s) =>
      ClientStreaming(s.(call := Completed(s.call, b), status := if Has(b, RecvStatus) then st else s.status))
    case Collecting(s) => Collecting(s.(call := Completed(s.call, b)))
    case Streaming(s) =>
      Streaming(s.(call := Completed(s.call, b), status := if Has(b, RecvStatus) then st else s.status))
    case Serving(s) => Serving(s.(call := Completed(s.call, b)))
    case BidirClient(s) => BidirClient(BidirSession.Retired(s, b, st))
    case BidirServer(s) => BidirServer(s.(call := Completed(s.call, b)))
  }

  // The virtual `exec`.
  function Exec(c: Callback, flags: Flags): (Callback, bool) {
    match c
    case ClientStreaming(s) => var (t, kill) := ClientStreamingSession.Exec(s); (ClientStreaming(t), kill)
    case Collecting(s) => var (t, kill) := ClientStreamingHandler.Exec(s, flags); (Collecting(t), kill)
    case Streaming(s) => var (t, kill) := StreamingSession.Exec(s); (Streaming(t), kill)
    case Serving(s) => var (t, kill) := ServerStreamingHandler.Exec(s, flags); (Serving(t), kill)
    case BidirClient(s) => var (t, kill) := BidirSession.Exec(s, flags); (BidirClient(t), kill)
    case BidirServer(s) => var (t, kill) := BidirHandler.Exec(s, flags); (BidirServer(t), kill)
  }

  // The events of the other threads and of core.
  predicate EnabledAt(c: Callback, e: Event) {
    match c
    case ClientStreaming(s) => ClientStreamingSession.Enabled(s, e)
    case Collecting(s) => ClientStreamingHandler.Enabled(s, e)
    case Streaming(s) => StreamingSession.Enabled(s, e)
    case Serving(s) => ServerStreamingHandler.Enabled(s, e)
    case BidirClient(s) => BidirSession.Enabled(s, e)
    case BidirServer(s) => BidirHandler.Enabled(s, e)
  }

  function StepAt(c: Callback, e: Event): Callback {
    match c
    case ClientStreaming(s) => ClientStreaming(ClientStreamingSession.Step(s, e))
    case Collecting(s) => Collecting(ClientStreamingHandler.Step(s, e))
    case Streaming(s) => Streaming(StreamingSession.Step(s, e))
    case Serving(s) => Serving(ServerStreamingHandler.Step(s, e))
    case BidirClient(s) => BidirClient(BidirSession.Step(s, e))
    case BidirServer(s) => BidirServer(BidirHandler.Step(s, e))
  }

  /** The completions after which an object can be deleted with a batch outstanding: a null payload
      that races the half-close of a bidirectional client, and the closing batch of a handler that
      is still reading. */
  predicate Hazardous(c: Callback, b: Batch) {
    match c
    case BidirClient(s) => BidirSession.Races(s, Done(b, Ok))
    case Collecting(s) => Has(b, SendStatus) && s.reader.end.None?
    case BidirServer(s) => Has(b, SendStatus) && s.reader.end.None?
    case _ => false
  }

  ghost predicate Alive(c: Callback) {
    && !Deleted(c)
    && match c
       case ClientStreaming(s) => ClientStreamingSession.Inv(s)
       case Collecting(s) => ClientStreamingHandler.Inv(s)
       case Streaming(s) => StreamingSession.Inv(s)
       case Serving(s) => ServerStreamingHandler.Inv(s)
       case BidirClient(s) => BidirSession.Inv(s) && BidirSession.Closing(s, false)
       case BidirServer(s) => BidirHandler.Inv(s)
  }

  // The object as its own step leaves it, before the worker has deleted it.
  function Undeleted(c: Callback): Callback {
    match c
    case ClientStreaming(s) => ClientStreaming(s.(deleted := false))
    case Collecting(s) => Collecting(s.(deleted := false))
    case Streaming(s) => Streaming(s.(deleted := false))
    case Serving(s) => Serving(s.(deleted := false))
    case BidirClient(s) => BidirClient(s.(deleted := false))
    case BidirServer(s) => BidirServer(s.(deleted := false))
  }

  /** Retiring a batch and calling `exec` is the step of the object's own machine, and the worker is
      asked to delete it exactly when that step ends in deletion. */
  lemma DispatchIsTheStep(c: Callback, b: Batch, st: Status)
    requires !Deleted(c)
    ensures
      var (d, kill) := Exec(Retired(c, b, st), b.flags);
      var t := StepAt(c, Done(b, st));
      d == Undeleted(t) && kill == Deleted(t)
  {
    hide BidirSession.Exec, BidirHandler.Exec, Start, Completed;
    match c
    case BidirClient(s) => BidirSession.ExecGrows(BidirSession.Retired(s, b, st), b.flags);
    case BidirServer(s) => BidirHandler.ExecGrows(s.(call := Completed(s.call, b)), b.flags);
    case _ =>
  }

  // Dispatching a completion keeps the object's invariant, or deletes it with nothing outstanding.
  lemma ExecSafe(c: Callback, b: Batch, st: Status)
    requires Alive(c) && CanComplete(CallOf(c), b) && !Hazardous(c, b)
    ensures
      var (d, kill) := Exec(Retired(c, b, st), b.flags);
      && CallOf(Retired(c, b, st)).live <= CallOf(d).live
      && if kill then CallOf(d).live == {} else Alive(d)
  {
    match c
    case ClientStreaming(s) => ClientStreamingSession.InvKept(s, Done(b, st));
    case Collecting(s) => CollectingSafe(s, b, st);
    case Streaming(s) => StreamingSession.InvKept(s, Done(b, st));
    case Serving(s) => ServerStreamingHandler.InvKept(s, Done(b, st));
    case BidirClient(s) => BidirClientSafe(s, b, st);
    case BidirServer(s) => BidirServerSafe(s, b, st);
  }

  lemma CollectingSafe(s: ClientStreamingHandler.State, b: Batch, st: Status)
    requires Alive(Collecting(s)) && CanComplete(s.call, b) && !Hazardous(Collecting(s), b)
    ensures
      var (t, kill) := ClientStreamingHandler.Exec(s.(call := Completed(s.call, b)), b.flags);
      && s.call.live - {b} <= t.call.live
      && if kill then t.call.live == {} else Alive(Collecting(t))
  {
    ClientStreamingHandler.InvKept(s, Done(b, st));
    ClientStreamingHandler.DeletionSafeIff(s, b, st);
  }

  lemma BidirClientSafe(s: BidirSession.State, b: Batch, st: Status)
    requires Alive(BidirClient(s)) && CanComplete(s.call, b) && !Hazardous(BidirClient(s), b)
    ensures
      var (t, kill) := BidirSession.Exec(BidirSession.Retired(s, b, st), b.flags);
      && s.call.live - {b} <= t.call.live
      && if kill then t.call.live == {} else Alive(BidirClient(t))
  {
    hide BidirSession.Exec;
    BidirSession.InvKept(s, Done(b, st));
    BidirSession.ClosingKept(s, Done(b, st), false);
    BidirSession.ExecGrows(BidirSession.Retired(s, b, st), b.flags);
  }

  lemma BidirServerSafe(s: BidirHandler.State, b: Batch, st: Status)
    requires Alive(BidirServer(s)) && CanComplete(s.call, b) && !Hazardous(BidirServer(s), b)
    ensures
      var (t, kill) := BidirHandler.Exec(s.(call := Completed(s.call, b)), b.flags);
      && s.call.live - {b} <= t.call.live
      && if kill then t.call.live == {} else Alive(BidirServer(t))
  {
    hide BidirHandler.Exec;
    BidirHandler.InvKept(s, Done(b, st));
    BidirHandler.DeletionSafeIff(s, b, st);
    BidirHandler.ExecGrows(s.(call := Completed(s.call, b)), b.flags);
  }

  lemma StepSafe(c: Callback, e: Event)
    requires Alive(c) && EnabledAt(c, e) && !e.Done?
    ensures Alive(StepAt(c, e)) && CallOf(c).live <= CallOf(StepAt(c, e)).live
  {
    match c
    case ClientStreaming(s) => ClientStreamingSession.InvKept(s, e);
    case Collecting(s) => ClientStreamingHandler.InvKept(s, e);
    case Streaming(s) => StreamingSession.InvKept(s, e);
    case Serving(s) => ServerStreamingHandler.InvKept(s, e);
    case BidirClient(s) => BidirSession.InvKept(s, e); BidirSession.SourceClosingKept(s, e, false);
    case BidirServer(s) => BidirHandler.InvKept(s, e);
  }

  // ---- the worker

  // What `grpc_completion_queue_next` returns; `b` and `st` are core's record of the batch.
  datatype QueueEvent = OpComplete(tag: bv64, b: Batch, st: Status) | Shutdown

  // The objects that exist, and whether a completion was dispatched to one that does not.
  datatype Heap = Heap(objects: map<Pointer, Callback>, dangling: bool)

  function Dispatch(h: Heap, tag: bv64, b: Batch, st: Status): Heap {
    var p := TagPointer(tag);
    if p !in h.objects then h.(dangling := true) else
    var (d, kill) := Exec(Retired(h.objects[p], b, st), TagFlags(tag));
    h.(objects := if kill then h.objects - {p} else h.objects[p := d])
  }

  function Dispatched(h: Heap, events: seq<QueueEvent>): Heap
    decreases |events|
  {
    if events == [] || events[0].Shutdown? then h
    else Dispatched(Dispatch(h, events[0].tag, events[0].b, events[0].st), events[1..])
  }

  class Worker {
    var heap: Heap

    constructor (h: Heap)
      ensures heap == h
    {
      heap := h;
    }

    // One queue's worth of events, up to the shutdown event.
    method WorkerMain(events: seq<QueueEvent>)
      modifies this
      ensures heap == Dispatched(old(heap), events)
    {
      var i := 0;
      while i < |events|
        invariant 0 <= i <= |events|
        invariant Dispatched(heap, events[i..]) == Dispatched(old(heap), events)
      {
        match events[i] {
          case OpComplete(tag, b, st) =>
            var flags := TagFlags(tag);
            var completion := TagPointer(tag);
            if completion in heap.objects {
              var (next, kill) := Exec(Retired(heap.objects[completion], b, st), flags);
              if kill {
                heap := heap.(objects := heap.objects - {completion});
              } else {
                heap := heap.(objects := heap.objects[completion := next]);
              }
            } else {
              heap := heap.(dangling := true);
            }
          case Shutdown =>
            return;
        }
        i := i + 1;
      }
    }
  }

  // ---- every run of a worker against core and the user's threads

  // `outstanding` is core's own record of started batches, which outlives the objects.
  datatype World = World(heap: Heap, outstanding: set<(Pointer, Batch)>)

  datatype WorldEvent =
    | Create(p: Pointer, c: Callback)             // a session or handler is allocated and started
    | Other(p: Pointer, e: Event)                 // a push, a stream end, or core filling a buffer
    | Completes(p: Pointer, b: Batch, st: Status) // a batch completes and its tag is dispatched

  // Batches that object `p` has started in going from `c` to `d`.
  function Started(p: Pointer, c: Call, d: Call): set<(Pointer, Batch)> {
    set b | b in d.live - c.live :: (p, b)
  }

  ghost predicate Enabled(w: World, x: WorldEvent) {
    match x
    case Create(p, c) => Aligned(p) && p !in w.heap.objects && Alive(c)
    case Other(p, e) => p in w.heap.objects && !e.Done? && EnabledAt(w.heap.objects[p], e)
    case Completes(p, b, st) =>
      && (p, b) in w.outstanding
      && (p in w.heap.objects && Has(b, RecvMessage) ==> CallOf(w.heap.objects[p]).received)
  }

  function Step(w: World, x: WorldEvent): World {
    match x
    case Create(p, c) =>
      World(w.heap.(objects := w.heap.objects[p := c]), w.outstanding + Started(p, NewCall, CallOf(c)))
    case Other(p, e) =>
      if p !in w.heap.objects then w else
      var c := w.heap.objects[p];
      var d := StepAt(c, e);
      World(w.heap.(objects := w.heap.objects[p := d]), w.outstanding + Started(p, CallOf(c), CallOf(d)))
    case Completes(p, b, st) =>
      var h := Dispatch(w.heap, CompletionTag(p, b.flags), b, st);
      var left := w.outstanding - {(p, b)};
      if p !in w.heap.objects then World(h, left) else
      var c := Retired(w.heap.objects[p], b, st);
      World(h, left + Started(p, CallOf(c), CallOf(Exec(c, b.flags).0)))
  }

  predicate Risky(w: World, x: WorldEvent) {
    x.Completes? && x.p in w.heap.objects && Hazardous(w.heap.objects[x.p], x.b)
  }

  // Whatever core still has outstanding belongs to an object that exists and knows about it.
  ghost predicate Inv(w: World) {
    && !w.heap.dangling
    && (forall p | p in w.heap.objects :: Aligned(p))
    && (forall p | p in w.heap.objects :: Alive(w.heap.objects[p]))
    && (forall p, b :: (p, b) in w.outstanding <==>
                       p in w.heap.objects && b in CallOf(w.heap.objects[p]).live)
  }

  lemma CompletesKept(w: World, p: Pointer, b: Batch, st: Status)
    requires Inv(w) && Enabled(w, Completes(p, b, st)) && !Risky(w, Completes(p, b, st))
    ensures Inv(Step(w, Completes(p, b, st)))
  {
    hide Aligned, CompletionTag, TagPointer, TagFlags, Exec, Alive;
    TagRoundTrip(p, b.flags);
    ExecSafe(w.heap.objects[p], b, st);
  }

  lemma OtherKept(w: World, p: Pointer, e: Event)
    requires Inv(w) && Enabled(w, Other(p, e))
    ensures Inv(Step(w, Other(p, e)))
  {
    StepSafe(w.heap.objects[p], e);
  }

  lemma InvKept(w: World, x: WorldEvent)
    requires Inv(w) && Enabled(w, x) && !Risky(w, x)
    ensures Inv(Step(w, x))
  {
    match x
    case Create(p, c) =>
    case Other(p, e) => OtherKept(w, p, e);
    case Completes(p, b, st) => CompletesKept(w, p, b, st);
  }

  const Empty := World(Heap(map[], false), {})

  // The tag of batch `b` of object `p` leads the worker to that object, with the flags of the batch.
  ghost predicate Delivered(h: Heap, p: Pointer, b: Batch) {
    var tag := CompletionTag(p, b.flags);
    && TagPointer(tag) == p && TagFlags(tag) == b.flags
    && p in h.objects && b in CallOf(h.objects[p]).live
  }

  ghost predicate NoRisk(run: seq<World>, es: seq<WorldEvent>, n: nat)
    requires n <= |es| <= |run|
  {
    forall i {:trigger es[i]} | 0 <= i < n :: !Risky(run[i], es[i])
  }

  lemma {:induction false} InvAlong(w: World, run: seq<World>, es: seq<WorldEvent>, n: nat)
    requires Inv(w) && IsRun(Enabled, Step, w, run, es) && n <= |es| && NoRisk(run, es, n)
    ensures Inv(run[n])
  {
    hide Enabled, Step, Inv, Risky;
    if n > 0 {
      InvAlong(w, run, es, n - 1);
      InvKept(run[n - 1], es[n - 1]);
    }
  }

  /** In every run, with any number of sessions and handlers of all six classes created, used and
      deleted in any order, as long as no hazardous completion comes up, none is ever dispatched to
      an object that does not exist: each one reaches, with its own flags, the live object whose
      batch completed. */
  lemma NothingDispatchedToTheDeleted(run: seq<World>, es: seq<WorldEvent>)
    requires IsRun(Enabled, Step, Empty, run, es) && NoRisk(run, es, |es|)
    ensures
      var w := run[|es|];
      !w.heap.dangling && forall p, b | (p, b) in w.outstanding :: Delivered(w.heap, p, b)
  {
    InvAlong(Empty, run, es, |es|);
    forall p, b | (p, b) in run[|es|].outstanding ensures Delivered(run[|es|].heap, p, b) {
      TagRoundTrip(p, b.flags);
    }
  }

  // What the queue hands to a worker for some completions: the tags of the batches, in order.
  function Handed(es: seq<WorldEvent>): seq<QueueEvent>
    requires forall i | 0 <= i < |es| :: es[i].Completes?
  {
    if es == [] then []
    else [OpComplete(CompletionTag(es[0].p, es[0].b.flags), es[0].b, es[0].st)] + Handed(es[1..])
  }

  /** A worker that is handed the completions of a run, one after the other, then the shutdown, and
      whatever comes after it, leaves the objects exactly as the run does. */
  lemma {:induction false} WorkerFollowsWorld(w: World, run: seq<World>, es: seq<WorldEvent>, rest: seq<QueueEvent>)
    requires IsRun(Enabled, Step, w, run, es) && forall i | 0 <= i < |es| :: es[i].Completes?
    ensures Dispatched(w.heap, Handed(es) + [Shutdown] + rest) == run[|es|].heap
    decreases |es|
  {
    hide Enabled, Step, Dispatched;
    if es == [] {
      StopsAtShutdown(w.heap, rest);
      assert Handed(es) + [Shutdown] + rest == [Shutdown] + rest;
    } else {
      var x := es[0];
      Tail(Enabled, Step, w, run, es);
      WorkerFollowsWorld(run[1], run[1..], es[1..], rest);
      var more := Handed(es[1..]) + [Shutdown] + rest;
      assert Handed(es) + [Shutdown] + rest == [Handed(es)[0]] + more;
      GoesOn(w, x, more);
    }
  }

  lemma StopsAtShutdown(h: Heap, rest: seq<QueueEvent>)
    ensures Dispatched(h, [Shutdown] + rest) == h
  {
  }

  lemma GoesOn(w: World, x: WorldEvent, more: seq<QueueEvent>)
    requires x.Completes?
    ensures Dispatched(w.heap, [OpComplete(CompletionTag(x.p, x.b.flags), x.b, x.st)] + more)
         == Dispatched(Step(w, x).heap, more)
  {
    hide Dispatch, CompletionTag;
    assert ([OpComplete(CompletionTag(x.p, x.b.flags), x.b, x.st)] + more)[1..] == more;
  }

  // ---- every hazardous completion can end in a dispatch to a deleted object

  // What core has outstanding for an object covers what the object has started.
  ghost predicate Covered(w: World, p: Pointer) {
    && Aligned(p) && p in w.heap.objects
    && forall b | b in CallOf(w.heap.objects[p]).live :: (p, b) in w.outstanding
  }

  lemma Dispatching(w: World, p: Pointer, b: Batch, st: Status)
    requires Covered(w, p) && (p, b) in w.outstanding
    ensures
      var v := Step(w, Completes(p, b, st));
      var (d, kill) := Exec(Retired(w.heap.objects[p], b, st), b.flags);
      && (forall c | c in CallOf(d).live :: (p, c) in v.outstanding)
      && (forall c | c != b && (p, c) in w.outstanding :: (p, c) in v.outstanding)
      && (if kill then p !in v.heap.objects else Covered(v, p) && v.heap.objects[p] == d)
  {
    hide Aligned, CompletionTag, TagPointer, TagFlags, Exec, Has;
    TagRoundTrip(p, b.flags);
  }

  // Completes a batch of an object that is gone.
  lemma Orphaned(w: World, p: Pointer, b: Batch)
    requires Aligned(p) && p !in w.heap.objects && (p, b) in w.outstanding
    ensures
      var x := Completes(p, b, Ok);
      Enabled(w, x) && !Risky(w, x) && Step(w, x).heap.dangling
  {
    hide Aligned, CompletionTag, TagPointer, TagFlags;
    TagRoundTrip(p, b.flags);
  }

  // A handler whose closing batch completes while it still reads is deleted under that read.
  lemma ReadOutlives(c: Callback, b: Batch, st: Status) returns (read: Batch)
    requires Alive(c) && CanComplete(CallOf(c), b) && Hazardous(c, b) && !c.BidirClient?
    ensures
      var (d, kill) := Exec(Retired(c, b, st), b.flags);
      kill && read in CallOf(d).live
  {
    match c
    case Collecting(s) =>
      ClientStreamingHandler.DeletionSafeIff(s, b, st);
      read :| read in ClientStreamingHandler.Step(s, Done(b, st)).call.live;
    case BidirServer(s) =>
      BidirHandler.DeletionSafeIff(s, b, st);
      read :| read in BidirHandler.Step(s, Done(b, st)).call.live;
  }

  // A raced client goes on with a status request beside its half-close.
  lemma RacedGoesOn(s: BidirSession.State, b: Batch, st: Status)
    requires Alive(BidirClient(s)) && CanComplete(s.call, b) && Hazardous(BidirClient(s), b)
    ensures
      var (d, kill) := Exec(Retired(BidirClient(s), b, st), b.flags);
      !kill && d.BidirClient? && BidirSession.HALF_CLOSE in CallOf(d).live && BidirSession.STATUS in CallOf(d).live
  {
    hide BidirSession.Exec;
    BidirSession.RaceStarts(s, st);
    BidirSession.ExecGrows(BidirSession.Retired(s, b, st), b.flags);
  }

  // The continuation takes no further risk: one or two batches of the same object complete.
  lemma RiskyDangles(w: World, x: WorldEvent) returns (run: seq<World>, es: seq<WorldEvent>)
    requires Inv(w) && Enabled(w, x) && Risky(w, x)
    ensures IsRun(Enabled, Step, Step(w, x), run, es) && run[|es|].heap.dangling
    ensures NoRisk(run, es, |es|) && forall i | 0 <= i < |es| :: es[i].Completes?
  {
    hide Step, Exec, Alive, Aligned, Accepts;
    var p, b := x.p, x.b;
    var c, v := w.heap.objects[p], Step(w, x);
    Dispatching(w, p, b, x.st);
    if c.BidirClient? {
      RacedGoesOn(c.bidir, b, x.st);
      var y := Completes(p, BidirSession.STATUS, Ok);
      var z := Completes(p, BidirSession.HALF_CLOSE, Ok);
      Dispatching(v, p, y.b, Ok);
      StatusKills(v.heap.objects[p]);
      Orphaned(Step(v, y), p, z.b);
      run, es := [v, Step(v, y), Step(Step(v, y), z)], [y, z];
    } else {
      var read := ReadOutlives(c, b, x.st);
      Orphaned(v, p, read);
      run, es := [v, Step(v, Completes(p, read, Ok))], [Completes(p, read, Ok)];
    }
  }

  lemma StatusKills(c: Callback)
    requires c.BidirClient?
    ensures Exec(Retired(c, BidirSession.STATUS, Ok), F8).1
  {
  }

  /** The condition on a run is exact, event by event: an event is hazardous if and only if a
      continuation that takes no further risk dispatches a completion to a deleted object. */
  lemma RiskyIffDangles(w: World, x: WorldEvent)
    requires Inv(w) && Enabled(w, x)
    ensures Risky(w, x) <==>
            exists run: seq<World>, es: seq<WorldEvent> ::
              IsRun(Enabled, Step, Step(w, x), run, es) && NoRisk(run, es, |es|) && run[|es|].heap.dangling
  {
    if Risky(w, x) {
      var run, es := RiskyDangles(w, x);
    } else {
      InvKept(w, x);
      forall run: seq<World>, es: seq<WorldEvent> | IsRun(Enabled, Step, Step(w, x), run, es) && NoRisk(run, es, |es|)
        ensures !run[|es|].heap.dangling
      {
        InvAlong(Step(w, x), run, es, |es|);
      }
    }
  }

  // Runs in which new objects may or may not come up.
  ghost function Allowed(news: bool): (World, WorldEvent) -> bool {
    (w, x) => Enabled(w, x) && (x.Create? ==> news)
  }

  // A run that takes a risk somewhere can go on, from the first one, to a dangling dispatch.
  lemma RiskReached(w: World, news: bool, run: seq<World>, es: seq<WorldEvent>, i: nat)
      returns (run': seq<World>, es': seq<WorldEvent>)
    requires Inv(w) && IsRun(Allowed(news), Step, w, run, es) && i < |es| && Risky(run[i], es[i])
    ensures IsRun(Allowed(news), Step, w, run', es') && run'[|es'|].heap.dangling
  {
    if j: nat :| j < i && Risky(run[j], es[j]) {
      run', es' := RiskReached(w, news, run, es, j);
    } else {
      InvAlong(w, run, es, i);
      run', es' := RiskyDangles(run[i], es[i]);
      Resume(Allowed(news), Step, w, run, es, i + 1, run', es');
      run', es' := run[..i + 1] + run', es[..i + 1] + es';
    }
  }

  /** From any world a run without hazards can reach, with or without new objects coming up, no
      continuation ever dispatches to a deleted object exactly when none takes a hazardous event. */
  lemma SafeIffNoRisk(w: World, news: bool)
    requires Inv(w)
    ensures
      (forall run: seq<World>, es: seq<WorldEvent> ::
         IsRun(Allowed(news), Step, w, run, es) ==> !run[|es|].heap.dangling)
      <==>
      (forall run: seq<World>, es: seq<WorldEvent> ::
         IsRun(Allowed(news), Step, w, run, es) ==> NoRisk(run, es, |es|))
  {
    forall run: seq<World>, es: seq<WorldEvent> | IsRun(Allowed(news), Step, w, run, es) && NoRisk(run, es, |es|)
      ensures !run[|es|].heap.dangling
    {
      InvAlong(w, run, es, |es|);
    }
    forall run: seq<World>, es: seq<WorldEvent> | IsRun(Allowed(news), Step, w, run, es) && !NoRisk(run, es, |es|)
      ensures exists run': seq<World>, es': seq<WorldEvent> ::
                IsRun(Allowed(news), Step, w, run', es') && run'[|es'|].heap.dangling
    {
      var i: nat :| i < |es| && Risky(run[i], es[i]);
      var run', es' := RiskReached(w, news, run, es, i);
    }
  }

  // A handler whose callback has answered before anything was read.
  lemma Answered(m: Message) returns (c: Callback, d: Callback)
    ensures Alive(c) && EnabledAt(c, Push(m)) && d == StepAt(c, Push(m)) && d.Collecting?
    ensures CallOf(c).live == {ClientStreamingHandler.OPEN_READ}
    ensures CallOf(d).live == {ClientStreamingHandler.OPEN_READ, ClientStreamingHandler.REPLY}
  {
    c := Collecting(ClientStreamingHandler.Init);
    d := StepAt(c, Push(m));
    ClientStreamingHandler.InvInit();
  }

  /** It does happen: a callback that answers without reading has its handler deleted, and
      the completion of the handler's read is then dispatched to it. */
  lemma HazardDangles(p: Pointer, m: Message) returns (run: seq<World>, es: seq<WorldEvent>)
    requires Aligned(p)
    ensures IsRun(Enabled, Step, Empty, run, es) && run[|es|].heap.dangling
  {
    hide Aligned, CompletionTag, TagPointer, TagFlags, Start, Alive, StepAt;
    var reply, read := ClientStreamingHandler.REPLY, ClientStreamingHandler.OPEN_READ;
    var c, d := Answered(m);
    TagRoundTrip(p, reply.flags);
    TagRoundTrip(p, read.flags);
    es := [Create(p, c), Other(p, Push(m)), Completes(p, reply, Ok), Completes(p, read, Ok)];
    var w1 := Step(Empty, es[0]);
    var w2 := Step(w1, es[1]);
    assert w2.heap.objects == map[p := d] && w2.outstanding == {(p, read), (p, reply)};
    var w3 := Step(w2, es[2]);
    assert w3.heap.objects == map[] && (p, read) in w3.outstanding;
    run := [Empty, w1, w2, w3, Step(w3, es[3])];
  }
}
