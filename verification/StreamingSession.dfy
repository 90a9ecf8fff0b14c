/** The client side of a server-streaming call: `Streaming_call_session`. */
module StreamingSession {
  import opened GrpcCall
  import opened CallContract
  import opened Runs

  const OPEN := Batch(Open, F0)
  const READ := Batch(Read, F0)
  const END := Batch(CloseForStatus, F0)

  datatype State = State(recvBuffer: Option<Message>, finishing: bool, status: Status,
                         reply: Stream, call: Call, deleted: bool)

  // After `start_server_streaming_call` has started its first batch.
  function Init(request: Message): State {
    State(None, false, Ok, NewStream, Start(NewCall, OPEN, [request], None), false)
  }

  // ---- the code of the session, on values

  function Exec(s: State): (State, bool) {
    var allDone := s.finishing;
    if !allDone then
      if s.recvBuffer.Some? then
        var t := s.(recvBuffer := None, call := Start(s.call, READ, [], None));
        (t.(reply := Put(t.reply, s.recvBuffer.value)), allDone)
      else
        (s.(finishing := true, call := Start(s.call, END, [], None)), allDone)
    else
      (s.(reply := Close(s.reply, StatusTerminal(s.status))), allDone)
  }

  // ---- the session object

  class Session {
    var recvBuffer: Option<Message>
    var finishing: bool
    var status: Status
    var reply: Stream
    var call: Call
    var deleted: bool

    function Value(): State
      reads this
    {
      State(recvBuffer, finishing, status, reply, call, deleted)
    }

    constructor (request: Message)
      ensures Value() == Init(request)
    {
      recvBuffer, finishing, status, deleted := None, false, Ok, false;
      reply := NewStream;
      call := Start(NewCall, OPEN, [request], None);
    }

    method Execute() returns (kill: bool)
      modifies this
      ensures (Value(), kill) == Exec(old(Value()))
    {
      kill := finishing;
      if !kill {
        if recvBuffer.Some? {
          var data := recvBuffer.value;
          recvBuffer := None;
          call := Start(call, READ, [], None);
          reply := Put(reply, data);
        } else {
          finishing := true;
          call := Start(call, END, [], None);
        }
      } else if status == Ok {
        reply := Close(reply, Complete);
      } else {
        reply := Close(reply, Failure(status));
      }
    }
  }

  // ---- steps

  predicate Enabled(s: State, e: Event) {
    match e
    case Push(_) => false
    case End(_) => false
    case Recv(_) => AwaitsMessage(s.call)
    case Done(b, _) => CanComplete(s.call, b)
  }

  function OnDone(s: State, b: Batch, st: Status): State {
    var t := s.(call := Completed(s.call, b), status := if Has(b, RecvStatus) then st else s.status);
    var (u, kill) := Exec(t);
    u.(deleted := s.deleted || kill)
  }

  function Step(s: State, e: Event): State {
    match e
    case Recv(v) => s.(recvBuffer := v, call := Received(s.call, v))
    case Done(b, st) => OnDone(s, b, st)
    case _ => s
  }

  // ---- the invariant

  ghost predicate Inv(s: State) {
    && s.call.ok && s.reply.valid
    && (!s.finishing ==> s.call.live == {OPEN} || s.call.live == {READ})
    && (s.finishing ==> s.call.live == if s.deleted then {} else {END})
    && (s.deleted ==> s.finishing)
    && s.reply.end == (if s.deleted then Some(StatusTerminal(s.status)) else None)
    && SendMetadata in s.call.used && SendStatus !in s.call.used
    && (SendClose in s.call.used) == (RecvStatus in s.call.used) == s.finishing
    && |s.call.sent| == 1 && s.call.status == None
    && (s.recvBuffer.Some? ==> s.call.received && !s.finishing)
    && (s.finishing ==> s.call.received)
    && s.call.taken == |s.reply.items| + |Slot(s.recvBuffer)|
  }

  lemma InvInit(request: Message)
    ensures Inv(Init(request))
  {
  }

  lemma InvKept(s: State, e: Event)
    requires Inv(s) && Enabled(s, e)
    ensures Inv(Step(s, e))
  {
  }

  lemma InvAlong(request: Message, run: seq<State>, es: seq<Event>)
    requires IsRun(Enabled, Step, Init(request), run, es)
    ensures Inv(run[|es|])
  {
    InvInit(request);
    forall t, x | Inv(t) && Enabled(t, x) ensures Inv(Step(t, x)) { InvKept(t, x); }
    Invariance(Enabled, Step, Inv, Init(request), run, es, |es|);
  }

  /** In every run, whatever core delivers: the reply promise ends exactly when the session is
      deleted, once, with `complete` iff the status is OK; then nothing is outstanding and nothing
      more can happen. */
  lemma OneTerminalThenDeleted(request: Message, run: seq<State>, es: seq<Event>, e: Event)
    requires IsRun(Enabled, Step, Init(request), run, es)
    ensures
      var s := run[|es|];
      && s.call.ok && s.reply.valid
      && (s.reply.end.Some? <==> s.deleted)
      && (s.deleted ==> (s.reply.end.value == Complete <==> s.status == Ok))
      && (s.deleted ==> s.call.live == {} && !Enabled(s, e))
  {
    InvAlong(request, run, es);
  }

  lemma StepTidy(s: State, e: Event)
    requires Tidy(s.call) && Asked(s.call) && Enabled(s, e)
    ensures Tidy(Step(s, e).call) && Asked(Step(s, e).call)
  {
    hide Tidy, Start, Completed, Received;
    TidyKept();
  }

  lemma TidyAlong(request: Message, run: seq<State>, es: seq<Event>)
    requires IsRun(Enabled, Step, Init(request), run, es)
    ensures Tidy(run[|es|].call) && Asked(run[|es|].call)
  {
    hide Tidy;
    TidyKept();
    var inv := (s: State) => Tidy(s.call) && Asked(s.call);
    forall s, e | inv(s) && Enabled(s, e) ensures inv(Step(s, e)) { StepTidy(s, e); }
    Invariance(Enabled, Step, inv, Init(request), run, es, |es|);
  }

  /** At any time at most one batch is outstanding; core refuses none, and all of them together obey
      the discipline of a call. */
  lemma CallIsOrderly(request: Message, run: seq<State>, es: seq<Event>)
    requires IsRun(Enabled, Step, Init(request), run, es)
    ensures
      var c := run[|es|].call;
      && c.ok && Orderly(c) && Once(c, RecvMetadata)
      && (c.live == {} || c.live == {OPEN} || c.live == {READ} || c.live == {END})
  {
    InvAlong(request, run, es);
    TidyAlong(request, run, es);
    AskedOnce(run[|es|].call);
  }

  /** Whatever core writes is delivered, in order, but for the message in the receive buffer. */
  lemma {:induction false} FollowsEvents(request: Message, run: seq<State>, es: seq<Event>, n: nat)
    requires IsRun(Enabled, Step, Init(request), run, es) && n <= |es|
    ensures Inv(run[n]) && run[n].reply.items + Slot(run[n].recvBuffer) == Written(es, n)
  {
    if n == 0 {
      InvInit(request);
    } else {
      FollowsEvents(request, run, es, n - 1);
      EventRecorded(run[n - 1], es[n - 1]);
    }
  }

  lemma EventRecorded(s: State, e: Event)
    requires Inv(s) && Enabled(s, e)
    ensures
      var t := Step(s, e);
      && Inv(t)
      && t.reply.items + Slot(t.recvBuffer) ==
           s.reply.items + Slot(s.recvBuffer) + (if e.Recv? then Slot(e.v) else [])
  {
    InvKept(s, e);
  }

  /** The status that core delivers decides how the promise ends, in the same step, after everything
      that core wrote. */
  lemma PromiseEndsAsCoreSays(request: Message, run: seq<State>, es: seq<Event>, i: nat, st: Status)
    requires IsRun(Enabled, Step, Init(request), run, es) && i < |es| && es[i] == Done(END, st)
    ensures run[i + 1].deleted && run[i + 1].reply.end == Some(if st == Ok then Complete else Failure(st))
    ensures run[i + 1].reply.items == Written(es, i)
  {
    FollowsEvents(request, run, es, i);
  }
}
