/** The server side of a server-streaming call: `Server_streaming_call_handler`. */
module ServerStreamingHandler {
  import opened GrpcCall
  import opened CallContract
  import opened SerialSender
  import opened Runs

  const HANDSHAKE := Batch(ServerHandshake, F0)
  const WRITE := Batch(Write, F0)
  const FAREWELL := Batch(Farewell, F1)

  // `request` is what the user's callback was called with, `reply` the stream it returned.
  datatype State = State(request: Message, finished: bool, batchInFlight: bool, pending: seq<Message>,
                         reply: Stream, call: Call, deleted: bool)

  // After `perform` has taken the payload, started the metadata and attached the reply stream.
  function Init(payload: Message): State {
    State(payload, false, true, [], NewStream, Start(NewCall, HANDSHAKE, [], None), false)
  }

  // ---- the code of the handler, on values

  function Flush(s: State): State
    requires s.pending != []
  {
    if s.batchInFlight then s else
    s.(batchInFlight := true, pending := s.pending[1..],
       call := Start(s.call, WRITE, [s.pending[0]], None))
  }

  function SendEnd(s: State): State {
    s.(call := Start(s.call, FAREWELL, [], Some(Ok)))
  }

  function OnPush(s: State, m: Message): State {
    Flush(s.(reply := Put(s.reply, m), pending := s.pending + [m]))
  }

  function Finish(s: State): State {
    var t := s.(finished := true, reply := Close(s.reply, Complete));
    if !t.batchInFlight then SendEnd(t) else t
  }

  // `fail` ignores its argument: the status it starts is OK, whatever is in flight or queued.
  function Fail(s: State, st: Status): State {
    s.(reply := Close(s.reply, Failure(st)), call := Start(s.call, FAREWELL, [], Some(Ok)))
  }

  function Exec(s: State, flags: Flags): (State, bool) {
    if flags.b0 then (s, true) else
    var t := s.(batchInFlight := false);
    (if t.pending != [] then Flush(t) else if t.finished then SendEnd(t) else t, false)
  }

  // ---- the handler object

  class Handler {
    var request: Message
    var finished: bool
    var batchInFlight: bool
    var pending: seq<Message>
    var reply: Stream
    var call: Call
    var deleted: bool

    function Value(): State
      reads this
    {
      State(request, finished, batchInFlight, pending, reply, call, deleted)
    }

    // Construction followed by `perform`.
    constructor (payload: Message)
      ensures Value() == Init(payload)
    {
      request := payload;
      finished, deleted, pending := false, false, [];
      reply := NewStream;
      batchInFlight := true;
      call := Start(NewCall, HANDSHAKE, [], None);
    }

    method FlushPending()
      requires pending != []
      modifies this
      ensures Value() == Flush(old(Value()))
    {
      if batchInFlight {
        return;
      }
      batchInFlight := true;
      var op := pending[0];
      pending := pending[1..];
      call := Start(call, WRITE, [op], None);
    }

    method StartEnd()
      modifies this
      ensures Value() == SendEnd(old(Value()))
    {
      call := Start(call, FAREWELL, [], Some(Ok));
    }

    method Push(m: Message)
      modifies this
      ensures Value() == OnPush(old(Value()), m)
    {
      reply := Put(reply, m);
      pending := pending + [m];
      FlushPending();
    }

    method Finally(t: Terminal)
      modifies this
      ensures Value() == if t.Complete? then Finish(old(Value())) else Fail(old(Value()), t.status)
    {
      reply := Close(reply, t);
      if t.Complete? {
        finished := true;
        if !batchInFlight {
          StartEnd();
        }
      } else {
        call := Start(call, FAREWELL, [], Some(Ok));
      }
    }

    method Execute(flags: Flags) returns (kill: bool)
      modifies this
      ensures (Value(), kill) == Exec(old(Value()), flags)
    {
      if flags.b0 {
        return true;
      }
      batchInFlight := false;
      if pending != [] {
        FlushPending();
      } else if finished {
        StartEnd();
      }
      return false;
    }
  }

  // ---- steps; a run starts no failure, see `FailSafeIff` for those

  predicate Enabled(s: State, e: Event) {
    match e
    case Push(_) => s.reply.end.None?
    case End(t) => s.reply.end.None? && t.Complete?
    case Recv(_) => AwaitsMessage(s.call)
    case Done(b, _) => CanComplete(s.call, b)
  }

  function OnDone(s: State, b: Batch): State {
    var (u, kill) := Exec(s.(call := Completed(s.call, b)), b.flags);
    u.(deleted := s.deleted || kill)
  }

  function Step(s: State, e: Event): State {
    match e
    case Push(m) => OnPush(s, m)
    case End(_) => Finish(s)
    case Recv(_) => s   // the handler starts no read
    case Done(b, _) => OnDone(s, b)
  }

  // ---- the invariant

  function View(s: State): Sender {
    Sender(s.reply.items, s.pending, s.call.sent, s.batchInFlight, s.reply.end.Some?, SendStatus in s.call.used)
  }

  ghost predicate Control(s: State) {
    && s.finished == s.reply.end.Some? && (s.finished ==> s.reply.end.value == Complete)
    && (s.pending != [] ==> s.batchInFlight)
    && (s.batchInFlight ==> s.call.live == {HANDSHAKE} || s.call.live == {WRITE})
    && (!s.batchInFlight ==> s.call.live == if s.finished && !s.deleted then {FAREWELL} else {})
    && (s.deleted ==> s.finished && !s.batchInFlight)
    && SendMetadata in s.call.used && SendClose !in s.call.used
    && (SendStatus in s.call.used) == (RecvClose in s.call.used) == (s.finished && !s.batchInFlight)
    && s.call.status == (if s.finished && !s.batchInFlight then Some(Ok) else None)
    && s.call.ok && s.reply.valid
  }

  ghost predicate Logged(s: State) {
    s.call.log == [HANDSHAKE] + Repeat(WRITE, |s.call.sent|)
                  + (if s.finished && !s.batchInFlight then [FAREWELL] else [])
  }

  ghost predicate Inv(s: State) { Control(s) && Logged(s) && Safe(View(s)) }

  // ---- refinement

  function Moves(s: State, e: Event): seq<Move> {
    match e
    case Push(m) => if s.batchInFlight then [Enqueue(m)] else [Enqueue(m), StartHead]
    case End(_) => if s.batchInFlight then [EndStream] else [EndStream, Move.StartEnd]
    case Recv(_) => []
    case Done(b, _) =>
      if b == FAREWELL then []
      else if s.pending != [] then [BecomeIdle, StartHead]
      else if s.finished then [BecomeIdle, Move.StartEnd]
      else [BecomeIdle]
  }

  lemma Refines(s: State, e: Event)
    requires Control(s) && Enabled(s, e)
    ensures Performs(View(s), Moves(s, e), View(Step(s, e)))
  {
  }

  lemma ControlKept(s: State, e: Event)
    requires Control(s) && Enabled(s, e)
    ensures Control(Step(s, e))
  {
  }

  lemma LoggedKept(s: State, e: Event)
    requires Control(s) && Logged(s) && Enabled(s, e)
    ensures Logged(Step(s, e))
  {
  }

  lemma InvKept(s: State, e: Event)
    requires Inv(s) && Enabled(s, e)
    ensures Inv(Step(s, e))
  {
    ControlKept(s, e);
    LoggedKept(s, e);
    Refines(s, e);
    SafeAlong(View(s), Moves(s, e), View(Step(s, e)));
  }

  lemma InvInit(payload: Message)
    ensures Inv(Init(payload)) && View(Init(payload)) == Initial
  {
  }

  lemma InvAlong(s: State, run: seq<State>, es: seq<Event>)
    requires Inv(s) && IsRun(Enabled, Step, s, run, es)
    ensures Inv(run[|es|])
  {
    forall t, e | Inv(t) && Enabled(t, e) ensures Inv(Step(t, e)) { InvKept(t, e); }
    Invariance(Enabled, Step, Inv, s, run, es, |es|);
  }

  // ---- what holds of every run

  // The moves performed by the first `n` events of a run.
  function Trace(run: seq<State>, es: seq<Event>, n: nat): seq<Move>
    requires n <= |es| <= |run|
  {
    if n == 0 then [] else Trace(run, es, n - 1) + Moves(run[n - 1], es[n - 1])
  }

  lemma {:induction false} Simulates(payload: Message, run: seq<State>, es: seq<Event>, n: nat)
    requires IsRun(Enabled, Step, Init(payload), run, es) && n <= |es|
    ensures Inv(run[n]) && Performs(Initial, Trace(run, es, n), View(run[n]))
  {
    hide Step, Enabled, Moves, View;
    if n == 0 {
      InvInit(payload);
    } else {
      Simulates(payload, run, es, n - 1);
      var s, e := run[n - 1], es[n - 1];
      InvKept(s, e);
      Refines(s, e);
      PerformsAppend(Initial, Trace(run, es, n - 1), View(s), Moves(s, e), View(run[n]));
    }
  }

  /** The handler refines the serial FIFO sender: up to any point, the moves its events perform are,
      in order, a run of the abstract protocol that leads to the handler's own queue, what it handed
      to core, and its flags.  Busy means that the metadata or a write is outstanding, and a queued
      message waits for nothing else. */
  lemma {:induction false} RefinesSerialSender(payload: Message, run: seq<State>, es: seq<Event>, n: nat)
    requires IsRun(Enabled, Step, Init(payload), run, es) && n <= |es|
    ensures
      var s := run[n];
      && (s.pending != [] ==> s.batchInFlight)
      && (s.batchInFlight <==> HANDSHAKE in s.call.live || WRITE in s.call.live)
      && Performs(Initial, Trace(run, es, n),
                  Sender(s.reply.items, s.pending, s.call.sent, s.batchInFlight,
                         s.reply.end.Some?, SendStatus in s.call.used))
  {
    Simulates(payload, run, es, n);
  }

  /** The batches started in any run are the metadata, one write per message in push order, and one
      status, started only after every pushed message.  Core refuses none. */
  lemma WholeRunShape(payload: Message, run: seq<State>, es: seq<Event>)
    requires IsRun(Enabled, Step, Init(payload), run, es)
    ensures
      var s := run[|es|];
      && s.call.ok
      && s.call.sent <= s.reply.items
      && s.call.log == [HANDSHAKE] + Repeat(WRITE, |s.call.sent|)
                       + (if s.call.status.Some? then [FAREWELL] else [])
      && (s.call.status.Some? ==> s.reply.end == Some(Complete) && s.call.sent == s.reply.items)
  {
    InvInit(payload);
    InvAlong(Init(payload), run, es);
  }

  lemma StepTidy(s: State, e: Event)
    requires Tidy(s.call) && Enabled(s, e)
    ensures Tidy(Step(s, e).call)
  {
    hide Tidy, Start, Completed, Received;
    TidyKept();
  }

  lemma TidyAlong(payload: Message, run: seq<State>, es: seq<Event>)
    requires IsRun(Enabled, Step, Init(payload), run, es)
    ensures Tidy(run[|es|].call)
  {
    hide Tidy, Start;
    TidyKept();
    var inv := (s: State) => Tidy(s.call);
    forall s, e | inv(s) && Enabled(s, e) ensures inv(Step(s, e)) { StepTidy(s, e); }
    Invariance(Enabled, Step, inv, Init(payload), run, es, |es|);
  }

  /** At any time at most one batch is outstanding; core refuses none, and all of them together obey
      the discipline of a call. */
  lemma CallIsOrderly(payload: Message, run: seq<State>, es: seq<Event>)
    requires IsRun(Enabled, Step, Init(payload), run, es)
    ensures
      var c := run[|es|].call;
      && c.ok && Orderly(c)
      && (c.live == {} || c.live == {HANDSHAKE} || c.live == {WRITE} || c.live == {FAREWELL})
  {
    InvInit(payload);
    InvAlong(Init(payload), run, es);
    TidyAlong(payload, run, es);
  }

  /** The reply stream follows the events. */
  lemma {:induction false} FollowsEvents(payload: Message, run: seq<State>, es: seq<Event>, n: nat)
    requires IsRun(Enabled, Step, Init(payload), run, es) && n <= |es|
    ensures run[n].reply.items == Pushed(es, n) && run[n].reply.end == Ended(es, n) && run[n].request == payload
  {
    hide Step, Enabled, Performs, Trace;
    if n > 0 {
      FollowsEvents(payload, run, es, n - 1);
      Simulates(payload, run, es, n - 1);
      EventRecorded(run[n - 1], es[n - 1]);
    }
  }

  lemma EventRecorded(s: State, e: Event)
    requires Control(s) && Enabled(s, e)
    ensures
      var t := Step(s, e);
      && t.reply.items == s.reply.items + (if e.Push? then [e.m] else [])
      && t.reply.end == (if e.End? then Some(e.t) else s.reply.end) && t.request == s.request
  {
    hide Start;
  }

  /** A normally ending handler is deleted only with nothing outstanding or queued, and nothing can
      happen to it afterwards. */
  lemma DeletionIsFinal(payload: Message, run: seq<State>, es: seq<Event>, e: Event)
    requires IsRun(Enabled, Step, Init(payload), run, es) && run[|es|].deleted
    ensures
      var s := run[|es|];
      s.call.live == {} && s.reply.end.Some? && s.pending == [] && !Enabled(s, e)
  {
    InvInit(payload);
    InvAlong(Init(payload), run, es);
  }

  function Remaining(s: State): nat {
    if s.deleted then 0 else |s.pending| + (if s.batchInFlight then 1 else 0) + 1
  }

  lemma CountStep(s: State, e: Event)
    requires Control(s) && s.finished && Enabled(s, e)
    ensures Step(s, e).finished
    ensures Remaining(Step(s, e)) + (if e.Done? then 1 else 0) == Remaining(s)
  {
    hide Accepts;
  }

  lemma {:induction false} CountDown(s: State, run: seq<State>, es: seq<Event>, n: nat)
    requires Inv(s) && s.finished && IsRun(Enabled, Step, s, run, es) && n <= |es|
    ensures Inv(run[n]) && run[n].finished
    ensures Remaining(run[n]) + Completions(es, n) == Remaining(s)
  {
    hide Step, Enabled;
    if n > 0 {
      CountDown(s, run, es, n - 1);
      InvKept(run[n - 1], es[n - 1]);
      CountStep(run[n - 1], es[n - 1]);
    }
  }

  /** Once the reply stream has ended with k messages queued and f batches in flight, the handler is
      deleted by exactly the (k + f + 1)-th completion. */
  lemma ExactTermination(s: State, run: seq<State>, es: seq<Event>)
    requires Inv(s) && s.finished && !s.deleted && IsRun(Enabled, Step, s, run, es)
    ensures
      var n := |s.pending| + (if s.batchInFlight then 1 else 0) + 1;
      Completions(es, |es|) <= n && (run[|es|].deleted <==> Completions(es, |es|) == n)
  {
    CountDown(s, run, es, |es|);
  }

  // ---- the error exit

  // No batch was refused, and a deleted handler has nothing outstanding.
  ghost predicate Sound(s: State) { s.call.accepted && (s.deleted ==> s.call.live == {}) }

  ghost predicate FailedIdle(s: State) {
    && s.reply.end.Some? && !s.finished && !s.batchInFlight && s.pending == []
    && s.call.ok && s.call.live == if s.deleted then {} else {FAREWELL}
  }

  lemma FailedIdleAlong(s: State, run: seq<State>, es: seq<Event>)
    requires FailedIdle(s) && IsRun(Enabled, Step, s, run, es)
    ensures FailedIdle(run[|es|])
  {
    Invariance(Enabled, Step, FailedIdle, s, run, es, |es|);
  }

  // If a batch is in flight, core may complete the status first.
  lemma FailInFlightUnsound(s: State, st: Status) returns (run: seq<State>, es: seq<Event>)
    requires Inv(s) && s.reply.end.None? && s.batchInFlight
    ensures IsRun(Enabled, Step, Fail(s, st), run, es) && !Sound(run[|es|])
  {
    var t, e := Fail(s, st), Done(FAREWELL, Ok);
    run, es := [t, Step(t, e)], [e];
    Single(Enabled, Step, t, e);
    var b := if HANDSHAKE in s.call.live then HANDSHAKE else WRITE;
    assert b in Step(t, e).call.live;
  }

  /** Ending the reply stream with an exception is safe in every continuation exactly when no batch
      is in flight: otherwise some continuation deletes the handler under an outstanding batch. */
  lemma FailSafeIff(s: State, st: Status)
    requires Inv(s) && s.reply.end.None?
    ensures
      (forall run, es :: IsRun(Enabled, Step, Fail(s, st), run, es) ==> Sound(run[|es|]))
      <==> !s.batchInFlight
  {
    if s.batchInFlight {
      var run, es := FailInFlightUnsound(s, st);
    } else {
      forall run, es | IsRun(Enabled, Step, Fail(s, st), run, es) ensures Sound(run[|es|]) {
        FailedIdleAlong(Fail(s, st), run, es);
      }
    }
  }

  // After a failure only the queue is still drained; `k` is the place of the one status in the log,
  // and `queued` says whether anything was queued.
  ghost predicate Failed(s: State, k: nat, queued: bool) {
    && (s.call.accepted || (CoreChecksOrder && queued))
    && (!queued ==> s.pending == [] && s.call.ordered)
    && !s.finished && s.reply.end.Some? && (s.pending != [] ==> s.batchInFlight)
    && SendMetadata in s.call.used && s.call.live <= {HANDSHAKE, WRITE, FAREWELL}
    && (HANDSHAKE in s.call.live || WRITE in s.call.live ==> s.batchInFlight)
    && !(HANDSHAKE in s.call.live && WRITE in s.call.live)
    && k < |s.call.log| && forall j | 0 <= j < |s.call.log| :: Has(s.call.log[j], SendStatus) <==> j == k
  }

  lemma FailedDone(s: State, b: Batch, k: nat, queued: bool)
    requires Failed(s, k, queued) && CanComplete(s.call, b) && !b.flags.b0
    ensures Failed(OnDone(s, b), k, queued)
  {
  }

  lemma FailedKept(s: State, e: Event, k: nat, queued: bool)
    requires Failed(s, k, queued) && Enabled(s, e)
    ensures Failed(Step(s, e), k, queued)
  {
    hide Start;
    if e.Done? && !e.b.flags.b0 { FailedDone(s, e.b, k, queued); }
  }

  lemma AtFailure(s: State, st: Status)
    requires Inv(s) && s.reply.end.None?
    ensures Failed(Fail(s, st), |s.call.log|, s.pending != [])
  {
    assert forall j | 0 <= j < |s.call.log| :: s.call.log[j] == HANDSHAKE || s.call.log[j] == WRITE;
  }

  // With something queued, the completion of the batch in flight starts a write after the status.
  lemma FailedQueueStarts(s: State, st: Status) returns (run: seq<State>, es: seq<Event>)
    requires Inv(s) && s.reply.end.None? && s.pending != []
    ensures IsRun(Enabled, Step, Fail(s, st), run, es)
    ensures !run[|es|].call.ordered && (CoreChecksOrder ==> !run[|es|].call.accepted)
  {
    var t, e := Fail(s, st), Done(if HANDSHAKE in s.call.live then HANDSHAKE else WRITE, Ok);
    run, es := [t, Step(t, e)], [e];
    Single(Enabled, Step, t, e);
  }

  /** After a failure exactly one status is ever started.  A message is started after it in some
      continuation exactly when something was queued, and a batch is refused in some continuation
      exactly if, besides, core checks the order. */
  lemma FailureDisorderIff(s: State, st: Status)
    requires Inv(s) && s.reply.end.None?
    ensures forall run: seq<State>, es: seq<Event> ::
              IsRun(Enabled, Step, Fail(s, st), run, es) ==> Once(run[|es|].call, SendStatus)
    ensures
      (forall run: seq<State>, es: seq<Event> :: IsRun(Enabled, Step, Fail(s, st), run, es) ==> run[|es|].call.ordered)
      <==> s.pending == []
    ensures
      (forall run: seq<State>, es: seq<Event> :: IsRun(Enabled, Step, Fail(s, st), run, es) ==> run[|es|].call.accepted)
      <==> s.pending == [] || !CoreChecksOrder
  {
    var k, queued := |s.call.log|, s.pending != [];
    var inv := (t: State) => Failed(t, k, queued);
    AtFailure(s, st);
    forall run: seq<State>, es: seq<Event> | IsRun(Enabled, Step, Fail(s, st), run, es)
      ensures inv(run[|es|]) && Once(run[|es|].call, SendStatus)
    {
      forall t, e | inv(t) && Enabled(t, e) ensures inv(Step(t, e)) { FailedKept(t, e, k, queued); }
      Invariance(Enabled, Step, inv, Fail(s, st), run, es, |es|);
      assert Has(run[|es|].call.log[k], SendStatus);
    }
    if queued {
      var run, es := FailedQueueStarts(s, st);
    }
  }

  ghost predicate Truncated(s: State, sent: seq<Message>) {
    && s.reply.end.Some? && SendStatus in s.call.used && s.call.status == Some(Ok) && s.call.sent == sent
  }

  lemma TruncatedKept(s: State, e: Event, sent: seq<Message>)
    requires Truncated(s, sent) && Enabled(s, e)
    ensures Truncated(Step(s, e), sent)
  {
  }

  /** After a failure, in every continuation, the client is told OK and gets nothing beyond what was
      already handed to core: the queue is dropped, so the truncated stream looks complete. */
  lemma FailureReportedAsOk(s: State, st: Status, run: seq<State>, es: seq<Event>)
    requires Inv(s) && s.reply.end.None? && IsRun(Enabled, Step, Fail(s, st), run, es)
    ensures
      var t := run[|es|];
      && t.call.status == Some(Ok)
      && t.call.sent == s.call.sent
      && (t.call.sent == s.reply.items <==> s.pending == [])
  {
    var inv := (t: State) => Truncated(t, s.call.sent);
    assert inv(Fail(s, st));
    forall t, e | inv(t) && Enabled(t, e) ensures inv(Step(t, e)) { TruncatedKept(t, e, s.call.sent); }
    Invariance(Enabled, Step, inv, Fail(s, st), run, es, |es|);
  }
}
