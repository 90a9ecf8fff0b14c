/** The server side of a client-streaming call: `Client_streaming_call_handler`. */
module ClientStreamingHandler {
  import opened GrpcCall
  import opened CallContract
  import opened Runs

  const OPEN_READ := Batch(OpenRead, F0)
  const READ := Batch(Read, F0)
  const REPLY := Batch(Reply, F1)
  const FAREWELL := Batch(Farewell, F1)

  // What the user's callback answers with: a reply, or the status made from its exception.
  datatype Result = Value(m: Message) | Exception(status: Status)

  datatype State = State(payload: Option<Message>, reader: Stream, answer: Option<Result>,
                         call: Call, deleted: bool)

  // After `perform`: the callback holds the reader, metadata and the first read are started.
  const Init := State(None, NewStream, None, Start(NewCall, OPEN_READ, [], None), false)

  // ---- the code of the handler, on values

  function Finish(s: State, r: Result): State {
    s.(answer := Some(r),
       call := match r
               case Value(m) => Start(s.call, REPLY, [m], Some(Ok))
               case Exception(st) => Start(s.call, FAREWELL, [], Some(st)))
  }

  function Exec(s: State, flags: Flags): (State, bool) {
    var allDone := flags.b0;
    if allDone then
      (s, allDone)
    else if s.payload.Some? then
      var t := s.(payload := None, call := Start(s.call, READ, [], None));
      (t.(reader := Put(t.reader, s.payload.value)), allDone)
    else
      (s.(reader := Close(s.reader, Complete)), allDone)
  }

  // ---- the handler object

  class Handler {
    var payload: Option<Message>
    var reader: Stream
    var answer: Option<Result>
    var call: Call
    var deleted: bool

    function Value(): State
      reads this
    {
      State(payload, reader, answer, call, deleted)
    }

    // Default construction followed by `perform`.
    constructor ()
      ensures Value() == Init
    {
      payload, answer, deleted := None, None, false;
      reader := NewStream;
      call := Start(NewCall, OPEN_READ, [], None);
    }

    method Answer(r: Result)
      modifies this
      ensures Value() == Finish(old(Value()), r)
    {
      answer := Some(r);
      match r
      case Value(m) => call := Start(call, REPLY, [m], Some(Ok));
      case Exception(st) => call := Start(call, FAREWELL, [], Some(st));
    }

    method Execute(flags: Flags) returns (kill: bool)
      modifies this
      ensures (Value(), kill) == Exec(old(Value()), flags)
    {
      kill := flags.b0;
      if !kill {
        if payload.Some? {
          var data := payload.value;
          payload := None;
          call := Start(call, READ, [], None);
          reader := Put(reader, data);
        } else {
          reader := Close(reader, Complete);
        }
      }
    }
  }

  // ---- steps; the source is the callback's future, which yields the one reply or fails

  predicate Enabled(s: State, e: Event) {
    match e
    case Push(_) => s.answer.None?
    case End(t) => s.answer.None? && t.Failure?
    case Recv(_) => AwaitsMessage(s.call) && !s.deleted
    case Done(b, _) => CanComplete(s.call, b) && !s.deleted
  }

  function OnDone(s: State, b: Batch): State {
    var (u, kill) := Exec(s.(call := Completed(s.call, b)), b.flags);
    u.(deleted := s.deleted || kill)
  }

  function Step(s: State, e: Event): State {
    match e
    case Push(m) => Finish(s, Value(m))
    case End(t) => if t.Failure? then Finish(s, Exception(t.status)) else s
    case Recv(v) => s.(payload := v, call := Received(s.call, v))
    case Done(b, _) => OnDone(s, b)
  }

  // ---- the invariant

  ghost predicate Inv(s: State) {
    && s.call.ok && s.reader.valid
    && (s.reader.end.Some? ==> s.reader.end.value == Complete)
    && s.call.live <= {OPEN_READ, READ, REPLY, FAREWELL}
    // one read is outstanding exactly until the null payload
    && (OPEN_READ in s.call.live ==> READ !in s.call.live)
    && (OPEN_READ in s.call.live || READ in s.call.live <==> s.reader.end.None?)
    // one closing batch is outstanding between the answer and deletion
    && (REPLY in s.call.live ==> s.answer.Some? && s.answer.value.Value?)
    && (FAREWELL in s.call.live ==> s.answer.Some? && s.answer.value.Exception?)
    && (REPLY in s.call.live || FAREWELL in s.call.live <==> s.answer.Some? && !s.deleted)
    && (s.deleted ==> s.answer.Some?)
    && SendMetadata in s.call.used && SendClose !in s.call.used
    && (SendStatus in s.call.used) == (RecvClose in s.call.used) == s.answer.Some?
    && s.call.sent == (if s.answer.Some? && s.answer.value.Value? then [s.answer.value.m] else [])
    && s.call.status == (if s.answer.None? then None
                         else if s.answer.value.Value? then Some(Ok) else Some(s.answer.value.status))
    // the payload slot
    && (s.payload.Some? ==> s.call.received && s.reader.end.None?)
    && (s.reader.end.Some? ==> s.call.received)
    && s.call.taken == |s.reader.items| + |Slot(s.payload)|
  }

  lemma InvInit()
    ensures Inv(Init)
  {
  }

  lemma FinishKept(s: State, r: Result)
    requires Inv(s) && s.answer.None?
    ensures Inv(Finish(s, r))
  {
  }

  lemma InvKept(s: State, e: Event)
    requires Inv(s) && Enabled(s, e)
    ensures Inv(Step(s, e))
  {
    hide Finish;
    match e
    case Push(m) => FinishKept(s, Value(m));
    case End(t) => FinishKept(s, Exception(t.status));
    case _ =>
  }

  lemma InvAlong(s: State, run: seq<State>, es: seq<Event>)
    requires Inv(s) && IsRun(Enabled, Step, s, run, es)
    ensures Inv(run[|es|])
  {
    forall t, e | Inv(t) && Enabled(t, e) ensures Inv(Step(t, e)) { InvKept(t, e); }
    Invariance(Enabled, Step, Inv, s, run, es, |es|);
  }

  lemma StepTidy(s: State, e: Event)
    requires Tidy(s.call) && Enabled(s, e)
    ensures Tidy(Step(s, e).call)
  {
    hide Tidy, Start, Completed, Received;
    TidyKept();
  }

  lemma TidyAlong(run: seq<State>, es: seq<Event>)
    requires IsRun(Enabled, Step, Init, run, es)
    ensures Tidy(run[|es|].call)
  {
    hide Tidy, Start;
    TidyKept();
    var inv := (s: State) => Tidy(s.call);
    forall s, e | inv(s) && Enabled(s, e) ensures inv(Step(s, e)) { StepTidy(s, e); }
    Invariance(Enabled, Step, inv, Init, run, es, |es|);
  }

  /** Core refuses no batch, all of them together obey the discipline of a call, and beside one read
      at most one closing batch is outstanding. */
  lemma CallIsOrderly(run: seq<State>, es: seq<Event>)
    requires IsRun(Enabled, Step, Init, run, es)
    ensures
      var c := run[|es|].call;
      && c.ok && Orderly(c)
      && c.live <= {OPEN_READ, READ, REPLY, FAREWELL}
      && !(OPEN_READ in c.live && READ in c.live) && !(REPLY in c.live && FAREWELL in c.live)
  {
    InvInit();
    InvAlong(Init, run, es);
    TidyAlong(run, es);
  }

  // What the callback has answered by the first `n` events.
  function Answered(es: seq<Event>, n: nat): Option<Result>
    requires n <= |es|
  {
    if n == 0 then None
    else match es[n - 1]
         case Push(m) => Some(Value(m))
         case End(Failure(st)) => Some(Exception(st))
         case _ => Answered(es, n - 1)
  }

  lemma EventRecorded(s: State, e: Event)
    requires Inv(s) && Enabled(s, e)
    ensures
      var t := Step(s, e);
      && t.reader.items + Slot(t.payload) == s.reader.items + Slot(s.payload) + (if e.Recv? then Slot(e.v) else [])
      && t.answer == (match e
                      case Push(m) => Some(Value(m))
                      case End(Failure(st)) => Some(Exception(st))
                      case _ => s.answer)
  {
    hide Start;
    if e.Done? { ReadOnly(s, e.b); }
  }

  lemma ReadOnly(s: State, b: Batch)
    requires Inv(s) && CanComplete(s.call, b)
    ensures
      var t := OnDone(s, b);
      t.reader.items + Slot(t.payload) == s.reader.items + Slot(s.payload) && t.answer == s.answer
  {
    hide Start;
  }

  /** Whatever core writes is delivered, in order, but for the message in the payload slot; and what
      the callback has answered is what the handler has handed to core. */
  lemma {:induction false} FollowsEvents(run: seq<State>, es: seq<Event>, n: nat)
    requires IsRun(Enabled, Step, Init, run, es) && n <= |es|
    ensures
      var s := run[n];
      && Inv(s) && s.answer == Answered(es, n)
      && s.reader.items + Slot(s.payload) == Written(es, n)
      && (s.answer.None? ==> s.call.sent == [] && s.call.status == None)
      && (s.answer.Some? ==>
            match s.answer.value
            case Value(m) => s.call.sent == [m] && s.call.status == Some(Ok)
            case Exception(st) => s.call.sent == [] && s.call.status == Some(st))
  {
    hide Step, Enabled;
    if n == 0 {
      InvInit();
    } else {
      FollowsEvents(run, es, n - 1);
      InvKept(run[n - 1], es[n - 1]);
      EventRecorded(run[n - 1], es[n - 1]);
    }
  }

  /** `exec` asks for deletion exactly on the completion of the closing batch, and that leaves
      nothing outstanding exactly when the null payload has been delivered before. */
  lemma DeletionSafeIff(s: State, b: Batch, st: Status)
    requires Inv(s) && Enabled(s, Done(b, st))
    ensures
      var t := Step(s, Done(b, st));
      && (t.deleted <==> Has(b, SendStatus))
      && (t.deleted ==> (t.call.live == {} <==> s.reader.end.Some?))
  {
    var t := Step(s, Done(b, st));
    if t.deleted && s.reader.end.None? {
      assert OPEN_READ in t.call.live || READ in t.call.live;
    }
  }

  /** A callback that answers before it has read anything, and whose closing batch completes before
      the first read, has the handler deleted under that read. */
  lemma DeletedUnderTheRead(m: Message) returns (run: seq<State>, es: seq<Event>)
    ensures IsRun(Enabled, Step, Init, run, es)
    ensures run[|es|].deleted && run[|es|].call.live == {OPEN_READ}
  {
    var t := Step(Init, Push(m));
    var u := Step(t, Done(REPLY, Ok));
    run, es := [Init, t, u], [Push(m), Done(REPLY, Ok)];
  }
}
