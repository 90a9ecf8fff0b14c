/** The client side of a client-streaming call: `Client_streaming_call_session`. */
module ClientStreamingSession {
  import opened GrpcCall
  import opened CallContract
  import opened SerialSender
  import opened Runs

  const HANDSHAKE := Batch(Handshake, F0)
  const WRITE := Batch(Write, F0)
  const END := Batch(CloseForReply, F0)

  // The byte buffers the session has serialised.  `ok` turns false on a destroy that is not the
  // first one of a created buffer.
  datatype Buffers = Buffers(next: nat, alive: set<nat>, ok: bool)

  function Create(b: Buffers): Buffers { Buffers(b.next + 1, b.alive + {b.next}, b.ok) }

  function Destroy(b: Buffers, id: nat): Buffers {
    Buffers(b.next, b.alive - {id}, b.ok && id in b.alive)
  }

  // A queued SEND_MESSAGE operation: its buffer and what the buffer holds.
  datatype PendingSend = PendingSend(buffer: nat, payload: Message)

  // How `rep_` was resolved; `Answer(None)` is a reply deserialised from a null buffer.
  datatype Outcome = Answer(buffer: Option<Message>) | Refusal(status: Status)

  datatype Promise = Promise(outcome: Option<Outcome>, valid: bool)

  function Resolve(p: Promise, o: Outcome): Promise {
    Promise(Some(o), p.valid && p.outcome.None?)
  }

  datatype State = State(
    batchInFlight: bool, finished: bool, endSent: bool,
    recvBuffer: Option<Message>, status: Status, pending: seq<PendingSend>,
    req: Stream, rep: Promise, buffers: Buffers, call: Call, deleted: bool)

  const Init := State(true, false, false, None, Ok, [], NewStream, Promise(None, true),
                      Buffers(0, {}, true), Start(NewCall, HANDSHAKE, [], None), false)

  // ---- the code of the session, on values

  function Flush(s: State): State
    requires s.pending != []
  {
    if s.batchInFlight then s else
    var op := s.pending[0];
    s.(batchInFlight := true, pending := s.pending[1..],
       call := Start(s.call, WRITE, [op.payload], None), buffers := Destroy(s.buffers, op.buffer))
  }

  function SendEnd(s: State): State {
    s.(call := Start(s.call, END, [], None), endSent := true)
  }

  function OnPush(s: State, m: Message): State {
    Flush(s.(req := Put(s.req, m), pending := s.pending + [PendingSend(s.buffers.next, m)],
             buffers := Create(s.buffers)))
  }

  function OnEnd(s: State, t: Terminal): State {
    var u := s.(finished := true, req := Close(s.req, t));
    if !u.batchInFlight then SendEnd(u) else u
  }

  function Exec(s: State): (State, bool) {
    var t := s.(batchInFlight := false);
    if t.pending != [] then
      (Flush(t), false)
    else if t.finished then
      if t.endSent then
        (t.(rep := Resolve(t.rep, if t.status == Ok then Answer(t.recvBuffer) else Refusal(t.status))), true)
      else
        (SendEnd(t), false)
    else
      (t, false)
  }

  // ---- the session object, which updates its fields in place

  class Session {
    var batchInFlight: bool
    var finished: bool
    var endSent: bool
    var recvBuffer: Option<Message>
    var status: Status
    var pending: seq<PendingSend>
    var req: Stream
    var rep: Promise
    var buffers: Buffers
    var call: Call
    var deleted: bool

    function Value(): State
      reads this
    {
      State(batchInFlight, finished, endSent, recvBuffer, status, pending, req, rep, buffers, call, deleted)
    }

    constructor ()
      ensures Value() == Init
    {
      finished, endSent, deleted := false, false, false;
      recvBuffer, status, pending := None, Ok, [];
      req, rep := NewStream, Promise(None, true);
      buffers := Buffers(0, {}, true);
      call := Start(NewCall, HANDSHAKE, [], None);
      batchInFlight := true;
    }

    method FlushPending()
      requires pending != []
      modifies this
      ensures Value() == Flush(old(Value()))
    {
      if batchInFlight {
        return;
      }
      batchInFlight := true;
      var op := pending[0];
      pending := pending[1..];
      call := Start(call, WRITE, [op.payload], None);
      buffers := Destroy(buffers, op.buffer);
    }

    method StartEnd()
      modifies this
      ensures Value() == SendEnd(old(Value()))
    {
      call := Start(call, END, [], None);
      endSent := true;
    }

    // The `for_each` callback of the request stream.
    method Push(m: Message)
      modifies this
      ensures Value() == OnPush(old(Value()), m)
    {
      req := Put(req, m);
      var op := PendingSend(buffers.next, m);
      buffers := Create(buffers);
      pending := pending + [op];
      FlushPending();
    }

    // The `finally` callback of the request stream, which ignores how the stream ended.
    method Finally(t: Terminal)
      modifies this
      ensures Value() == OnEnd(old(Value()), t)
    {
      req := Close(req, t);
      finished := true;
      if !batchInFlight {
        StartEnd();
      }
    }

    method Execute() returns (kill: bool)
      modifies this
      ensures (Value(), kill) == Exec(old(Value()))
    {
      batchInFlight := false;
      if pending != [] {
        FlushPending();
        return false;
      }
      if finished {
        if endSent {
          if status == Ok {
            rep := Resolve(rep, Answer(recvBuffer));
          } else {
            rep := Resolve(rep, Refusal(status));
          }
          return true;
        }
        StartEnd();
      }
      return false;
    }
  }

  // ---- runs of one session in an arbitrary environment

  predicate Enabled(s: State, e: Event) {
    match e
    case Push(_) => s.req.end.None?
    case End(_) => s.req.end.None?
    case Recv(_) => AwaitsMessage(s.call)
    case Done(b, _) => CanComplete(s.call, b)
  }

  function OnDone(s: State, b: Batch, st: Status): State {
    var t := s.(call := Completed(s.call, b), status := if Has(b, RecvStatus) then st else s.status);
    var (u, kill) := Exec(t);
    u.(deleted := s.deleted || kill)
  }

  function Step(s: State, e: Event): State {
    match e
    case Push(m) => OnPush(s, m)
    case End(t) => OnEnd(s, t)
    case Recv(v) => s.(recvBuffer := v, call := Received(s.call, v))
    case Done(b, st) => OnDone(s, b, st)
  }

  // ---- the invariant

  function Payloads(ops: seq<PendingSend>): seq<Message> {
    seq(|ops|, i requires 0 <= i < |ops| => ops[i].payload)
  }

  function View(s: State): Sender {
    Sender(s.req.items, Payloads(s.pending), s.call.sent, s.batchInFlight, s.req.end.Some?,
           SendClose in s.call.used)
  }

  // Which batches are outstanding, and what the flags say about it.
  ghost predicate Control(s: State) {
    && s.finished == s.req.end.Some?
    && (s.pending != [] ==> s.batchInFlight)
    && (s.batchInFlight ==> s.call.live == {HANDSHAKE} || s.call.live == {WRITE})
    && (s.endSent ==> s.finished && !s.batchInFlight)
    && (s.finished && !s.batchInFlight ==> s.endSent)
    && (!s.batchInFlight ==> s.call.live == if s.endSent && !s.deleted then {END} else {})
    && (s.deleted ==> s.endSent)
    && SendMetadata in s.call.used && SendStatus !in s.call.used
    && (SendClose in s.call.used) == (RecvStatus in s.call.used) == s.endSent
    && s.call.ok && s.call.status == None
    && s.req.valid && s.rep.valid && s.rep.outcome.Some? == s.deleted
  }

  ghost predicate Logged(s: State) {
    s.call.log == [HANDSHAKE] + Repeat(WRITE, |s.call.sent|) + (if s.endSent then [END] else [])
  }

  // Every buffer is either queued or destroyed, the queued ones are the youngest, in order.
  ghost predicate Buffered(s: State) {
    && s.buffers.ok
    && |s.pending| <= s.buffers.next
    && (forall i | 0 <= i < |s.pending| :: s.pending[i].buffer == s.buffers.next - |s.pending| + i)
    && (forall i :: i in s.buffers.alive <==> s.buffers.next - |s.pending| <= i < s.buffers.next)
    && s.buffers.next == |s.req.items|
  }

  ghost predicate Inv(s: State) { Control(s) && Logged(s) && Buffered(s) && Safe(View(s)) }

  // ---- refinement

  // The moves of the abstract sender that an event performs.
  function Moves(s: State, e: Event): seq<Move> {
    match e
    case Push(m) => if s.batchInFlight then [Enqueue(m)] else [Enqueue(m), StartHead]
    case End(_) => if s.batchInFlight then [EndStream] else [EndStream, StartEnd]
    case Recv(_) => []
    case Done(b, _) =>
      if b == END then []
      else if s.pending != [] then [BecomeIdle, StartHead]
      else if s.finished then [BecomeIdle, StartEnd]
      else [BecomeIdle]
  }

  lemma PushRefines(s: State, m: Message)
    requires Control(s) && s.req.end.None?
    ensures Performs(View(s), Moves(s, Push(m)), View(OnPush(s, m)))
  {
  }

  lemma EndRefines(s: State, t: Terminal)
    requires Control(s) && s.req.end.None?
    ensures Performs(View(s), Moves(s, End(t)), View(OnEnd(s, t)))
  {
  }

  lemma DoneRefines(s: State, b: Batch, st: Status)
    requires Control(s) && CanComplete(s.call, b)
    ensures Performs(View(s), Moves(s, Done(b, st)), View(OnDone(s, b, st)))
  {
  }

  lemma Refines(s: State, e: Event)
    requires Control(s) && Enabled(s, e)
    ensures Performs(View(s), Moves(s, e), View(Step(s, e)))
  {
    match e
    case Push(m) => PushRefines(s, m);
    case End(t) => EndRefines(s, t);
    case Recv(_) =>
    case Done(b, st) => DoneRefines(s, b, st);
  }

  lemma ControlKept(s: State, e: Event)
    requires Control(s) && Enabled(s, e)
    ensures Control(Step(s, e))
  {
  }

  lemma LoggedKept(s: State, e: Event)
    requires Control(s) && Logged(s) && Enabled(s, e)
    ensures Logged(Step(s, e))
  {
  }

  lemma BufferedKept(s: State, e: Event)
    requires Control(s) && Buffered(s) && Enabled(s, e)
    ensures Buffered(Step(s, e))
  {
  }

  lemma InvKept(s: State, e: Event)
    requires Inv(s) && Enabled(s, e)
    ensures Inv(Step(s, e))
  {
    ControlKept(s, e);
    LoggedKept(s, e);
    BufferedKept(s, e);
    Refines(s, e);
    SafeAlong(View(s), Moves(s, e), View(Step(s, e)));
  }

  lemma InvInit()
    ensures Inv(Init) && View(Init) == Initial
  {
    assert Payloads([]) == [];
  }

  lemma InvAlong(s: State, run: seq<State>, es: seq<Event>)
    requires Inv(s) && IsRun(Enabled, Step, s, run, es)
    ensures Inv(run[|es|])
  {
    forall t, e | Inv(t) && Enabled(t, e) ensures Inv(Step(t, e)) { InvKept(t, e); }
    Invariance(Enabled, Step, Inv, s, run, es, |es|);
  }

  // ---- what holds of every run

  // The moves performed by the first `n` events of a run.
  function Trace(run: seq<State>, es: seq<Event>, n: nat): seq<Move>
    requires n <= |es| <= |run|
  {
    if n == 0 then [] else Trace(run, es, n - 1) + Moves(run[n - 1], es[n - 1])
  }

  lemma {:induction false} Simulates(run: seq<State>, es: seq<Event>, n: nat)
    requires IsRun(Enabled, Step, Init, run, es) && n <= |es|
    ensures Inv(run[n]) && Performs(Initial, Trace(run, es, n), View(run[n]))
  {
    hide Step, Enabled, Moves, View;
    if n == 0 {
      InvInit();
    } else {
      Simulates(run, es, n - 1);
      var s, e := run[n - 1], es[n - 1];
      InvKept(s, e);
      Refines(s, e);
      PerformsAppend(Initial, Trace(run, es, n - 1), View(s), Moves(s, e), View(run[n]));
    }
  }

  /** The session refines the serial FIFO sender: up to any point, the moves its events perform are,
      in order, a run of the abstract protocol that leads to the session's own queue, what it handed
      to core, and its flags.  Busy means that the metadata or a write is outstanding, and a queued
      message waits for nothing else. */
  lemma {:induction false} RefinesSerialSender(run: seq<State>, es: seq<Event>, n: nat)
    requires IsRun(Enabled, Step, Init, run, es) && n <= |es|
    ensures
      var s := run[n];
      && (s.pending != [] ==> s.batchInFlight)
      && (s.batchInFlight <==> HANDSHAKE in s.call.live || WRITE in s.call.live)
      && Performs(Initial, Trace(run, es, n),
                  Sender(s.req.items, Payloads(s.pending), s.call.sent, s.batchInFlight,
                         s.req.end.Some?, SendClose in s.call.used))
  {
    Simulates(run, es, n);
  }

  /** The batches started in any run are the metadata, one write per message in push order, and one
      closing batch, which is started only after every pushed message.  Core refuses none. */
  lemma WholeRunShape(run: seq<State>, es: seq<Event>)
    requires IsRun(Enabled, Step, Init, run, es)
    ensures
      var s := run[|es|];
      && s.call.ok
      && s.call.sent <= s.req.items
      && s.call.log == [HANDSHAKE] + Repeat(WRITE, |s.call.sent|) + (if s.endSent then [END] else [])
      && (s.endSent ==> s.req.end.Some? && s.call.sent == s.req.items)
  {
    InvInit();
    InvAlong(Init, run, es);
  }

  lemma DoneTidy(s: State, b: Batch, st: Status)
    requires Tidy(s.call) && Asked(s.call)
    ensures Tidy(OnDone(s, b, st).call) && Asked(OnDone(s, b, st).call)
  {
    hide Tidy, Start, Completed, Resolve, Destroy;
    TidyKept();
  }

  lemma StepTidy(s: State, e: Event)
    requires Tidy(s.call) && Asked(s.call) && Enabled(s, e)
    ensures Tidy(Step(s, e).call) && Asked(Step(s, e).call)
  {
    hide Tidy, Start, Received, OnDone, Create, Destroy;
    TidyKept();
    if e.Done? { DoneTidy(s, e.b, e.st); }
  }

  lemma TidyAlong(run: seq<State>, es: seq<Event>)
    requires IsRun(Enabled, Step, Init, run, es)
    ensures Tidy(run[|es|].call) && Asked(run[|es|].call)
  {
    hide Tidy;
    TidyKept();
    var inv := (s: State) => Tidy(s.call) && Asked(s.call);
    forall s, e | inv(s) && Enabled(s, e) ensures inv(Step(s, e)) { StepTidy(s, e); }
    Invariance(Enabled, Step, inv, Init, run, es, |es|);
  }

  /** At any time at most one batch is outstanding; core refuses none, and all of them together obey
      the discipline of a call. */
  lemma CallIsOrderly(run: seq<State>, es: seq<Event>)
    requires IsRun(Enabled, Step, Init, run, es)
    ensures
      var c := run[|es|].call;
      && c.ok && Orderly(c) && Once(c, RecvMetadata)
      && (c.live == {} || c.live == {HANDSHAKE} || c.live == {WRITE} || c.live == {END})
  {
    InvInit();
    InvAlong(Init, run, es);
    TidyAlong(run, es);
    AskedOnce(run[|es|].call);
  }

  /** Every byte buffer a push serialises is destroyed exactly once: none is destroyed twice, the
      live ones are exactly those still queued, and none is left when the session is deleted. */
  lemma BuffersConserved(run: seq<State>, es: seq<Event>)
    requires IsRun(Enabled, Step, Init, run, es)
    ensures
      var s := run[|es|];
      && s.buffers.ok
      && s.buffers.next == |s.req.items|
      && (forall i :: i in s.buffers.alive <==> exists j :: 0 <= j < |s.pending| && s.pending[j].buffer == i)
      && (forall i, j :: 0 <= i < j < |s.pending| ==> s.pending[i].buffer != s.pending[j].buffer)
      && (s.deleted ==> s.pending == [] && s.buffers.alive == {})
  {
    InvInit();
    InvAlong(Init, run, es);
    var s := run[|es|];
    var base := s.buffers.next - |s.pending|;
    forall i ensures i in s.buffers.alive <==> exists j :: 0 <= j < |s.pending| && s.pending[j].buffer == i {
      if i in s.buffers.alive { assert s.pending[i - base].buffer == i; }
    }
  }

  /** `exec` asks for deletion only when the source stream is over and nothing is outstanding, and
      nothing can happen to a deleted session. */
  lemma DeletionIsFinal(run: seq<State>, es: seq<Event>, e: Event)
    requires IsRun(Enabled, Step, Init, run, es) && run[|es|].deleted
    ensures
      var s := run[|es|];
      && s.call.live == {} && s.req.end.Some? && s.pending == []
      && s.rep.valid && s.rep.outcome.Some?
      && !Enabled(s, e)
  {
    InvInit();
    InvAlong(Init, run, es);
  }

  // `exec` does not look at the stream itself.
  lemma ExecIgnoresStream(s: State, r: Stream)
    ensures Exec(s.(req := r)).0 == Exec(s).0.(req := r) && Exec(s.(req := r)).1 == Exec(s).1
  {
    hide Start, Resolve, Destroy;
  }

  lemma DoneIgnoresStream(s: State, r: Stream, b: Batch, st: Status)
    ensures OnDone(s.(req := r), b, st) == OnDone(s, b, st).(req := r)
  {
    hide Exec;
    ExecIgnoresStream(s.(call := Completed(s.call, b), status := if Has(b, RecvStatus) then st else s.status), r);
  }

  /** The state after the constructor if the metadata complete between its two last statements: the
      flag is set after `exec` has cleared it. */
  function Overtaken(st: Status): State {
    OnDone(Init.(batchInFlight := false), HANDSHAKE, st).(batchInFlight := true)
  }

  /** The flag then stays set for good: nothing is ever sent, and the session is never deleted. */
  lemma OvertakenIsStuck(st: Status, run: seq<State>, es: seq<Event>)
    requires IsRun(Enabled, Step, Overtaken(st), run, es)
    ensures
      var s := run[|es|];
      s.batchInFlight && s.call.live == {} && s.call.sent == [] && !s.deleted && s.rep.outcome.None?
  {
    var inv := (s: State) =>
      s.batchInFlight && s.call.live == {} && s.call.sent == [] && !s.deleted && s.rep.outcome.None?;
    assert inv(Overtaken(st));
    Invariance(Enabled, Step, inv, Overtaken(st), run, es, |es|);
  }

  // Completions a session whose stream has ended still waits for.
  function Remaining(s: State): nat {
    if s.deleted then 0 else |s.pending| + (if s.batchInFlight then 1 else 0) + 1
  }

  lemma CountStep(s: State, e: Event)
    requires Control(s) && s.finished && Enabled(s, e)
    ensures Step(s, e).finished
    ensures Remaining(Step(s, e)) + (if e.Done? then 1 else 0) == Remaining(s)
  {
    hide Accepts;
  }

  lemma {:induction false} CountDown(s: State, run: seq<State>, es: seq<Event>, n: nat)
    requires Inv(s) && s.finished && IsRun(Enabled, Step, s, run, es) && n <= |es|
    ensures Inv(run[n]) && run[n].finished
    ensures Remaining(run[n]) + Completions(es, n) == Remaining(s)
  {
    hide Step, Enabled;
    if n > 0 {
      CountDown(s, run, es, n - 1);
      InvKept(run[n - 1], es[n - 1]);
      CountStep(run[n - 1], es[n - 1]);
    }
  }

  /** Once the stream has ended with k messages queued and f batches in flight, in whatever order
      completions and received buffers arrive, `rep_` is resolved and the session deleted by exactly
      the (k + f + 1)-th completion. */
  lemma ExactTermination(s: State, run: seq<State>, es: seq<Event>)
    requires Inv(s) && s.finished && !s.deleted && IsRun(Enabled, Step, s, run, es)
    ensures
      var n := |s.pending| + (if s.batchInFlight then 1 else 0) + 1;
      var t := run[|es|];
      && Completions(es, |es|) <= n
      && (t.deleted <==> Completions(es, |es|) == n)
      && (t.rep.outcome.Some? <==> Completions(es, |es|) == n)
  {
    CountDown(s, run, es, |es|);
  }

  // ---- what the events say

  // The one read that is ever started writes the buffer at most once.
  ghost predicate ReadOnce(s: State) {
    && (s.recvBuffer.Some? ==> s.call.received)
    && (s.call.received ==> s.endSent)
  }

  lemma EventRecorded(s: State, e: Event)
    requires Control(s) && ReadOnce(s) && Enabled(s, e)
    ensures
      var t := Step(s, e);
      && ReadOnce(t)
      && t.req.items == s.req.items + (if e.Push? then [e.m] else [])
      && t.req.end == (if e.End? then Some(e.t) else s.req.end)
      && Slot(t.recvBuffer) == Slot(s.recvBuffer) + (if e.Recv? then Slot(e.v) else [])
  {
  }

  /** The request stream follows the events, and the receive buffer holds what core wrote. */
  lemma {:induction false} FollowsEvents(run: seq<State>, es: seq<Event>, n: nat)
    requires IsRun(Enabled, Step, Init, run, es) && n <= |es|
    ensures
      var s := run[n];
      && ReadOnce(s)
      && s.req.items == Pushed(es, n) && s.req.end == Ended(es, n)
      && Slot(s.recvBuffer) == Written(es, n)
  {
    hide Step, Enabled;
    if n > 0 {
      FollowsEvents(run, es, n - 1);
      Simulates(run, es, n - 1);
      EventRecorded(run[n - 1], es[n - 1]);
    }
  }

  /** The status that core delivers decides how `rep_` is resolved, in the same step: by the message
      that core wrote, if any, or by the failure. */
  lemma PromiseEndsAsCoreSays(run: seq<State>, es: seq<Event>, i: nat, st: Status)
    requires IsRun(Enabled, Step, Init, run, es) && i < |es| && es[i] == Done(END, st)
    ensures run[i + 1].deleted && run[i + 1].rep.outcome.Some?
    ensures st != Ok ==> run[i + 1].rep.outcome.value == Refusal(st)
    ensures st == Ok ==> run[i + 1].rep.outcome.value.Answer? &&
                         Slot(run[i + 1].rep.outcome.value.buffer) == Written(es, i)
  {
    hide Step, Enabled, Performs, Trace;
    FollowsEvents(run, es, i);
    Simulates(run, es, i);
    EndResolves(run[i], st);
  }

  lemma EndResolves(s: State, st: Status)
    requires Control(s) && Enabled(s, Done(END, st))
    ensures
      var t := Step(s, Done(END, st));
      t.deleted && t.rep.outcome == Some(if st == Ok then Answer(s.recvBuffer) else Refusal(st))
  {
  }
}
