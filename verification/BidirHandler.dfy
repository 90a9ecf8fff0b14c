/** The server side of a bidirectional call: `Bidir_streaming_call_handler`. */
module BidirHandler {
  import opened GrpcCall
  import opened CallContract
  import opened SerialSender
  import opened Runs

  const HANDSHAKE := Batch(ServerHandshake, F8)
  const WRITE := Batch(Write, F2)
  const READ := Batch(Read, F1)
  const FAREWELL := Batch(Farewell, F4)
  const FAILURE := Batch(Farewell, F0)   // the status batch of `fail`, whose tag carries no flag

  datatype State = State(
    payload: Option<Message>, reader: Stream, finished: bool, readyToSend: bool, pending: seq<Message>,
    reply: Stream, call: Call, deleted: bool)

  // The callback is attached; no batch has been started.
  const Fresh := State(None, NewStream, false, false, [], NewStream, NewCall, false)

  // ---- the code of the handler, on values

  function Flush(s: State): State
    requires s.pending != []
  {
    if !s.readyToSend then s else
    s.(readyToSend := false, pending := s.pending[1..], call := Start(s.call, WRITE, [s.pending[0]], None))
  }

  function SendServerEnd(s: State): State {
    s.(call := Start(s.call, FAREWELL, [], Some(Ok)))
  }

  function OnPush(s: State, m: Message): State {
    Flush(s.(reply := Put(s.reply, m), pending := s.pending + [m]))
  }

  function Finish(s: State): State {
    var t := s.(reply := Close(s.reply, Complete), finished := true);
    if t.readyToSend then SendServerEnd(t) else t
  }

  // `fail` ignores its argument: the status it starts is OK, whatever is in flight or queued.
  function Fail(s: State, st: Status): State {
    s.(reply := Close(s.reply, Failure(st)), call := Start(s.call, FAILURE, [], Some(Ok)))
  }

  /** The state after `perform`.  The reply stream may already hold messages, and may be over, when
      the callback returns it; its callbacks then run before the metadata is started. */
  function Performed(early: seq<Message>, over: bool): State {
    var s := Fresh.(reply := Stream(early, if over then Some(Complete) else None, true),
                    pending := early, finished := over);
    s.(call := Start(s.call, HANDSHAKE, [], None))
  }

  // The state after `perform` if the reply stream has already failed by then.
  function PerformedFailed(early: seq<Message>, st: Status): State {
    var s := Fail(Fresh.(reply := Stream(early, None, true), pending := early), st);
    s.(call := Start(s.call, HANDSHAKE, [], None))
  }

  function ExecHandshake(s: State): State {
    var t := s.(readyToSend := true);
    var u := if t.pending != [] then Flush(t) else t;
    u.(call := Start(u.call, READ, [], None))
  }

  function ExecSend(s: State): State {
    var t := s.(readyToSend := true);
    if t.pending != [] then Flush(t) else if t.finished then SendServerEnd(t) else t
  }

  function ExecRecv(s: State): State {
    if s.payload.Some? then
      var t := s.(payload := None, call := Start(s.call, READ, [], None));
      t.(reader := Put(t.reader, s.payload.value))
    else
      s.(reader := Close(s.reader, Complete))
  }

  function Exec(s: State, flags: Flags): (State, bool) {
    var t := if flags.b3 then ExecHandshake(s) else s;
    var u := if flags.b1 then ExecSend(t) else t;
    var v := if flags.b0 then ExecRecv(u) else u;
    (v, flags.b2)
  }

  // ---- the handler object

  class Handler {
    var payload: Option<Message>
    var reader: Stream
    var finished: bool
    var readyToSend: bool
    var pending: seq<Message>
    var reply: Stream
    var call: Call
    var deleted: bool

    function Value(): State
      reads this
    {
      State(payload, reader, finished, readyToSend, pending, reply, call, deleted)
    }

    constructor ()
      ensures Value() == Fresh
    {
      payload, finished, readyToSend, pending, deleted := None, false, false, [], false;
      reader, reply := NewStream, NewStream;
      call := NewCall;
    }

    /** The callback's reply stream is drained of what it already holds, then the metadata is
        started. */
    method Perform(early: seq<Message>, end: Option<Terminal>)
      requires Value() == Fresh
      modifies this
      ensures Value() == if end.Some? && end.value.Failure? then PerformedFailed(early, end.value.status)
                         else Performed(early, end.Some?)
    {
      for i := 0 to |early|
        invariant Value() == Fresh.(reply := Stream(early[..i], None, true), pending := early[..i])
      {
        Push(early[i]);
        assert early[..i + 1] == early[..i] + [early[i]];
      }
      assert early[..|early|] == early;
      if end.Some? {
        Finally(end.value);
      }
      call := Start(call, HANDSHAKE, [], None);
    }

    method FlushPending()
      requires pending != []
      modifies this
      ensures Value() == Flush(old(Value()))
    {
      if !readyToSend {
        return;
      }
      readyToSend := false;
      var op := pending[0];
      pending := pending[1..];
      call := Start(call, WRITE, [op], None);
    }

    method StartServerEnd()
      modifies this
      ensures Value() == SendServerEnd(old(Value()))
    {
      call := Start(call, FAREWELL, [], Some(Ok));
    }

    method Push(m: Message)
      modifies this
      ensures Value() == OnPush(old(Value()), m)
    {
      reply := Put(reply, m);
      pending := pending + [m];
      FlushPending();
    }

    method Finally(t: Terminal)
      modifies this
      ensures Value() == if t.Complete? then Finish(old(Value())) else Fail(old(Value()), t.status)
    {
      reply := Close(reply, t);
      if t.Complete? {
        finished := true;
        if readyToSend {
          StartServerEnd();
        }
      } else {
        call := Start(call, FAILURE, [], Some(Ok));
      }
    }

    // The branch of `exec` for the end of a read.
    method ExecuteRecv()
      modifies this
      ensures Value() == ExecRecv(old(Value()))
    {
      hide Accepts;
      if payload.Some? {
        var data := payload.value;
        payload := None;
        call := Start(call, READ, [], None);
        reader := Put(reader, data);
      } else {
        reader := Close(reader, Complete);
      }
    }

    method Execute(flags: Flags) returns (kill: bool)
      modifies this
      ensures (Value(), kill) == Exec(old(Value()), flags)
    {
      hide Accepts, ExecRecv;
      if flags.b3 {
        readyToSend := true;
        if pending != [] {
          FlushPending();
        }
        call := Start(call, READ, [], None);
      }
      assert Value() == if flags.b3 then ExecHandshake(old(Value())) else old(Value());
      label send:
      if flags.b1 {
        readyToSend := true;
        if pending != [] {
          FlushPending();
        } else if finished {
          StartServerEnd();
        }
      }
      assert Value() == if flags.b1 then ExecSend(old@send(Value())) else old@send(Value());
      if flags.b0 {
        ExecuteRecv();
      }
      return flags.b2;
    }
  }

  // ---- steps; a run starts no failure, see `FailureLeaks` for those

  predicate Enabled(s: State, e: Event) {
    match e
    case Push(_) => s.reply.end.None?
    case End(t) => s.reply.end.None? && t.Complete?
    case Recv(_) => AwaitsMessage(s.call) && !s.deleted
    case Done(b, _) => CanComplete(s.call, b) && !s.deleted
  }

  function OnDone(s: State, b: Batch): State {
    var (u, kill) := Exec(s.(call := Completed(s.call, b)), b.flags);
    if kill then u.(deleted := true) else u
  }

  // What each completion comes to.
  lemma HandshakeIs(s: State)
    ensures OnDone(s, HANDSHAKE) == ExecHandshake(s.(call := Completed(s.call, HANDSHAKE)))
  {
    hide ExecHandshake, Completed;
  }

  lemma WriteIs(s: State)
    ensures OnDone(s, WRITE) == ExecSend(s.(call := Completed(s.call, WRITE)))
  {
    hide ExecSend, Completed;
  }

  lemma ReadIs(s: State)
    ensures OnDone(s, READ) == ExecRecv(s.(call := Completed(s.call, READ)))
  {
    hide ExecRecv, Completed;
  }

  lemma FarewellIs(s: State)
    ensures OnDone(s, FAREWELL) == s.(call := Completed(s.call, FAREWELL), deleted := true)
  {
    hide ExecHandshake, ExecSend, ExecRecv, Completed;
  }

  function Step(s: State, e: Event): State {
    match e
    case Push(m) => OnPush(s, m)
    case End(_) => Finish(s)
    case Recv(v) => s.(payload := v, call := Received(s.call, v))
    case Done(b, _) => OnDone(s, b)
  }

  // ---- the invariant

  function View(s: State): Sender {
    Sender(s.reply.items, s.pending, s.call.sent, !s.readyToSend, s.reply.end.Some?, SendStatus in s.call.used)
  }

  ghost predicate Sending(s: State) {
    && s.call.ok && s.reply.valid
    && s.finished == s.reply.end.Some? && (s.finished ==> s.reply.end.value == Complete)
    && (s.pending != [] ==> !s.readyToSend)
    && s.call.live <= {HANDSHAKE, WRITE, READ, FAREWELL}
    && (s.readyToSend <==> HANDSHAKE !in s.call.live && WRITE !in s.call.live)
    && (HANDSHAKE in s.call.live ==> s.call.live == {HANDSHAKE} && s.reader.end.None?)
    && SendMetadata in s.call.used && SendClose !in s.call.used
    && (SendStatus in s.call.used) == (RecvClose in s.call.used)
    && s.call.status == (if SendStatus in s.call.used then Some(Ok) else None)
    && (SendStatus in s.call.used ==> s.finished && s.readyToSend && HANDSHAKE !in s.call.live)
    && (FAREWELL in s.call.live <==> SendStatus in s.call.used && !s.deleted)
    && (s.deleted ==> SendStatus in s.call.used)
  }

  ghost predicate Receiving(s: State) {
    && (READ in s.call.live <==> HANDSHAKE !in s.call.live && s.reader.end.None?)
    && (s.payload.Some? ==> s.call.received && READ in s.call.live)
    && (s.reader.end.Some? ==> s.reader.end.value == Complete && s.call.received)
    && (HANDSHAKE in s.call.live ==> !s.call.received)
    && s.call.taken == |s.reader.items| + |Slot(s.payload)|
    && s.reader.valid
  }

  ghost predicate Inv(s: State) { Sending(s) && Receiving(s) && Safe(View(s)) }

  // ---- refinement

  function Moves(s: State, e: Event): seq<Move> {
    match e
    case Push(m) => if s.readyToSend then [Enqueue(m), StartHead] else [Enqueue(m)]
    case End(_) => if s.readyToSend then [EndStream, StartEnd] else [EndStream]
    case Recv(_) => []
    case Done(b, _) =>
      if b != HANDSHAKE && b != WRITE then []
      else if s.pending != [] then [BecomeIdle, StartHead]
      else if b == WRITE && s.finished then [BecomeIdle, StartEnd]
      else [BecomeIdle]
  }

  lemma HandshakeDone(s: State)
    requires Sending(s) && Receiving(s) && HANDSHAKE in s.call.live
    ensures Sending(OnDone(s, HANDSHAKE)) && Receiving(OnDone(s, HANDSHAKE))
    ensures View(OnDone(s, HANDSHAKE)) ==
            if s.pending != [] then Apply(Apply(View(s), BecomeIdle), StartHead) else Apply(View(s), BecomeIdle)
  {
    hide OnDone;
    HandshakeIs(s);
  }

  lemma WriteDone(s: State)
    requires Sending(s) && Receiving(s) && WRITE in s.call.live && !s.deleted
    ensures Sending(OnDone(s, WRITE)) && Receiving(OnDone(s, WRITE))
    ensures View(OnDone(s, WRITE)) ==
            if s.pending != [] then Apply(Apply(View(s), BecomeIdle), StartHead)
            else if s.finished then Apply(Apply(View(s), BecomeIdle), StartEnd)
            else Apply(View(s), BecomeIdle)
  {
    hide OnDone;
    WriteIs(s);
  }

  lemma ReadDone(s: State)
    requires Sending(s) && Receiving(s) && CanComplete(s.call, READ) && !s.deleted
    ensures Sending(OnDone(s, READ)) && Receiving(OnDone(s, READ)) && View(OnDone(s, READ)) == View(s)
  {
    hide OnDone;
    ReadIs(s);
  }

  lemma FarewellDone(s: State)
    requires Sending(s) && Receiving(s) && FAREWELL in s.call.live
    ensures Sending(OnDone(s, FAREWELL)) && Receiving(OnDone(s, FAREWELL)) && View(OnDone(s, FAREWELL)) == View(s)
  {
  }

  lemma DoneKept(s: State, b: Batch, st: Status)
    requires Sending(s) && Receiving(s) && Enabled(s, Done(b, st))
    ensures Sending(OnDone(s, b)) && Receiving(OnDone(s, b))
    ensures Performs(View(s), Moves(s, Done(b, st)), View(OnDone(s, b)))
  {
    var v := View(s);
    if b == HANDSHAKE {
      HandshakeDone(s);
      if s.pending != [] { Moves2(v, BecomeIdle, StartHead); } else { Moves1(v, BecomeIdle); }
    } else if b == WRITE {
      WriteDone(s);
      if s.pending != [] { Moves2(v, BecomeIdle, StartHead); }
      else if s.finished { Moves2(v, BecomeIdle, StartEnd); }
      else { Moves1(v, BecomeIdle); }
    } else if b == READ {
      ReadDone(s);
    } else {
      FarewellDone(s);
    }
  }

  lemma PushKept(s: State, m: Message)
    requires Sending(s) && Receiving(s) && s.reply.end.None?
    ensures Sending(OnPush(s, m)) && Receiving(OnPush(s, m))
    ensures Performs(View(s), Moves(s, Push(m)), View(OnPush(s, m)))
  {
  }

  lemma FinishKept(s: State)
    requires Sending(s) && Receiving(s) && s.reply.end.None?
    ensures Sending(Finish(s)) && Receiving(Finish(s))
    ensures Performs(View(s), Moves(s, End(Complete)), View(Finish(s)))
  {
  }

  lemma SourceKept(s: State, e: Event)
    requires Sending(s) && Receiving(s) && Enabled(s, e) && !e.Done?
    ensures Sending(Step(s, e)) && Receiving(Step(s, e))
    ensures Performs(View(s), Moves(s, e), View(Step(s, e)))
  {
    hide OnPush, Finish;
    match e
    case Push(m) => PushKept(s, m);
    case End(_) => FinishKept(s);
    case Recv(_) =>
  }

  lemma Refines(s: State, e: Event)
    requires Sending(s) && Receiving(s) && Enabled(s, e)
    ensures Performs(View(s), Moves(s, e), View(Step(s, e)))
  {
    if e.Done? { DoneKept(s, e.b, e.st); } else { SourceKept(s, e); }
  }

  lemma InvKept(s: State, e: Event)
    requires Inv(s) && Enabled(s, e)
    ensures Inv(Step(s, e))
  {
    if e.Done? { DoneKept(s, e.b, e.st); } else { SourceKept(s, e); }
    SafeAlong(View(s), Moves(s, e), View(Step(s, e)));
  }

  lemma InvInit(early: seq<Message>, over: bool)
    ensures Inv(Performed(early, over)) && Ending(Performed(early, over), false)
  {
  }

  lemma InvAlong(s: State, run: seq<State>, es: seq<Event>)
    requires Inv(s) && IsRun(Enabled, Step, s, run, es)
    ensures Inv(run[|es|])
  {
    forall t, e | Inv(t) && Enabled(t, e) ensures Inv(Step(t, e)) { InvKept(t, e); }
    Invariance(Enabled, Step, Inv, s, run, es, |es|);
  }

  // ---- what holds of every run

  // The moves performed inside `perform`, before the metadata are started.
  function EarlyMoves(early: seq<Message>, over: bool): seq<Move> {
    seq(|early|, i requires 0 <= i < |early| => Enqueue(early[i])) + if over then [EndStream] else []
  }

  // Those, and the moves performed by the first `n` events of a run.
  function Trace(early: seq<Message>, over: bool, run: seq<State>, es: seq<Event>, n: nat): seq<Move>
    requires n <= |es| <= |run|
  {
    if n == 0 then EarlyMoves(early, over)
    else Trace(early, over, run, es, n - 1) + Moves(run[n - 1], es[n - 1])
  }

  lemma {:induction false} Queued(early: seq<Message>)
    ensures Performs(Initial, EarlyMoves(early, false), Sender(early, early, [], true, false, false))
  {
    if early != [] {
      var front, m := early[..|early| - 1], early[|early| - 1];
      Queued(front);
      var t := Sender(front, front, [], true, false, false);
      Moves1(t, Enqueue(m));
      PerformsAppend(Initial, EarlyMoves(front, false), t, [Enqueue(m)], Apply(t, Enqueue(m)));
      assert EarlyMoves(front, false) + [Enqueue(m)] == EarlyMoves(early, false);
      assert front + [m] == early;
    }
  }

  lemma EarlyPerforms(early: seq<Message>, over: bool)
    ensures Performs(Initial, EarlyMoves(early, over), View(Performed(early, over)))
  {
    Queued(early);
    if over {
      var t := Sender(early, early, [], true, false, false);
      Moves1(t, EndStream);
      PerformsAppend(Initial, EarlyMoves(early, false), t, [EndStream], Apply(t, EndStream));
      assert EarlyMoves(early, false) + [EndStream] == EarlyMoves(early, true);
    }
  }

  lemma {:induction false} Simulates(early: seq<Message>, over: bool, run: seq<State>, es: seq<Event>, n: nat)
    requires IsRun(Enabled, Step, Performed(early, over), run, es) && n <= |es|
    ensures Inv(run[n]) && Performs(Initial, Trace(early, over, run, es, n), View(run[n]))
  {
    hide Step, Enabled, Moves, View, Performs;
    if n == 0 {
      InvInit(early, over);
      EarlyPerforms(early, over);
    } else {
      Simulates(early, over, run, es, n - 1);
      var s, e := run[n - 1], es[n - 1];
      InvKept(s, e);
      Refines(s, e);
      PerformsAppend(Initial, Trace(early, over, run, es, n - 1), View(s), Moves(s, e), View(run[n]));
    }
  }

  /** The handler refines the serial FIFO sender: up to any point, the moves performed by `perform`
      and by the events are, in order, a run of the abstract protocol that leads to the handler's own
      queue, what it handed to core, and its flags.  Busy means that the metadata or a write is
      outstanding, and a queued message waits for nothing else. */
  lemma {:induction false} RefinesSerialSender(early: seq<Message>, over: bool, run: seq<State>, es: seq<Event>, n: nat)
    requires IsRun(Enabled, Step, Performed(early, over), run, es) && n <= |es|
    ensures
      var s := run[n];
      && (s.pending != [] ==> !s.readyToSend)
      && (!s.readyToSend <==> HANDSHAKE in s.call.live || WRITE in s.call.live)
      && Performs(Initial, Trace(early, over, run, es, n),
                  Sender(s.reply.items, s.pending, s.call.sent, !s.readyToSend,
                         s.reply.end.Some?, SendStatus in s.call.used))
  {
    Simulates(early, over, run, es, n);
  }

  /** No batch is refused; the status is started only after every pushed message; `exec` asks for
      deletion only after that, and never with a message queued. */
  lemma StatusComesLast(early: seq<Message>, over: bool, run: seq<State>, es: seq<Event>)
    requires IsRun(Enabled, Step, Performed(early, over), run, es)
    ensures
      var s := run[|es|];
      && s.call.ok
      && (s.call.status.Some? ==> s.reply.end == Some(Complete) && s.call.sent == s.reply.items && s.pending == [])
      && (s.deleted ==> s.call.status.Some?)
  {
    InvInit(early, over);
    InvAlong(Performed(early, over), run, es);
  }

  // What `exec` may do to the call; the reply stream is not its business.
  ghost predicate Grows(s: State, t: State) {
    Grown(s.call, t.call) && t.deleted == s.deleted && t.reply == s.reply
  }

  lemma HalvesGrow(s: State)
    ensures Grows(s, ExecHandshake(s)) && Grows(s, ExecSend(s)) && Grows(s, ExecRecv(s))
  {
    hide Tidy, Start;
    TidyKept();
  }

  lemma ExecGrows(s: State, flags: Flags)
    ensures Grows(s, Exec(s, flags).0)
  {
    hide Tidy, ExecHandshake, ExecSend, ExecRecv;
    HalvesGrow(s);
    var t := if flags.b3 then ExecHandshake(s) else s;
    HalvesGrow(t);
    HalvesGrow(if flags.b1 then ExecSend(t) else t);
  }

  lemma StepTidy(s: State, e: Event)
    requires Tidy(s.call) && Enabled(s, e)
    ensures Tidy(Step(s, e).call)
  {
    hide Tidy, Start, Completed, Received, Exec;
    TidyKept();
    if e.Done? { ExecGrows(s.(call := Completed(s.call, e.b)), e.b.flags); }
  }

  lemma TidyAlong(early: seq<Message>, over: bool, run: seq<State>, es: seq<Event>)
    requires IsRun(Enabled, Step, Performed(early, over), run, es)
    ensures Tidy(run[|es|].call)
  {
    hide Tidy, Start;
    TidyKept();
    var inv := (s: State) => Tidy(s.call);
    forall s, e | inv(s) && Enabled(s, e) ensures inv(Step(s, e)) { StepTidy(s, e); }
    Invariance(Enabled, Step, inv, Performed(early, over), run, es, |es|);
  }

  /** Core refuses no batch, and all of them together obey the discipline of a call. */
  lemma CallIsOrderly(early: seq<Message>, over: bool, run: seq<State>, es: seq<Event>)
    requires IsRun(Enabled, Step, Performed(early, over), run, es)
    ensures run[|es|].call.ok && Orderly(run[|es|].call)
  {
    StatusComesLast(early, over, run, es);
    TidyAlong(early, over, run, es);
  }

  /** `exec` asks for deletion exactly on the completion of the status batch, and that leaves nothing
      outstanding exactly when the null payload has been delivered before. */
  lemma DeletionSafeIff(s: State, b: Batch, st: Status)
    requires Inv(s) && Enabled(s, Done(b, st))
    ensures
      var t := Step(s, Done(b, st));
      && (t.deleted <==> b == FAREWELL)
      && (t.deleted ==> (t.call.live == {} <==> s.reader.end.Some?))
  {
    var t := Step(s, Done(b, st));
    if b == FAREWELL {
      assert HANDSHAKE !in s.call.live;
      if s.reader.end.None? { assert READ in t.call.live; }
      else { assert t.call.live == {}; }
    }
  }

  // ---- the two halves, as the other end sees them

  function In(s: State): Inbox { Inbox(s.reader.items, s.payload, s.call.received, s.call.taken) }

  lemma SourcePasses(s: State, e: Event)
    requires Sending(s) && Receiving(s) && Enabled(s, e) && (e.Push? || e.End?)
    ensures In(Step(s, e)) == In(s)
  {
  }

  lemma ReadPasses(s: State)
    requires Sending(s) && Receiving(s) && CanComplete(s.call, READ)
    ensures Passes(In(s), In(OnDone(s, READ)))
  {
    hide OnDone;
    ReadIs(s);
  }

  lemma HandshakePasses(s: State)
    requires Sending(s) && Receiving(s) && HANDSHAKE in s.call.live
    ensures Passes(In(s), In(OnDone(s, HANDSHAKE)))
  {
    hide OnDone;
    HandshakeIs(s);
  }

  lemma WritePasses(s: State)
    requires Sending(s) && Receiving(s) && WRITE in s.call.live
    ensures In(OnDone(s, WRITE)) == In(s)
  {
    hide OnDone;
    WriteIs(s);
  }

  lemma InboxPasses(s: State, e: Event)
    requires Sending(s) && Receiving(s) && Enabled(s, e) && !e.Recv?
    ensures Passes(In(s), In(Step(s, e)))
  {
    if !e.Done? { SourcePasses(s, e); }
    else if e.b == HANDSHAKE { HandshakePasses(s); }
    else if e.b == WRITE { WritePasses(s); }
    else if e.b == READ { ReadPasses(s); }
    else { assert Step(s, e) == OnDone(s, FAREWELL); }
  }

  lemma OutboxGrows(s: State, e: Event)
    requires Inv(s) && Enabled(s, e)
    ensures s.call.sent <= Step(s, e).call.sent
    ensures SendStatus in s.call.used ==>
              SendStatus in Step(s, e).call.used && Step(s, e).call.sent == s.call.sent
  {
    if e.Done? { DoneKept(s, e.b, e.st); } else { SourceKept(s, e); }
    Monotone(View(s), Moves(s, e), View(Step(s, e)));
  }

  lemma EventRecorded(s: State, e: Event)
    requires Sending(s) && Receiving(s) && Enabled(s, e)
    ensures
      var t := Step(s, e);
      && t.reply.items == s.reply.items + (if e.Push? then [e.m] else [])
      && t.reply.end == (if e.End? then Some(e.t) else s.reply.end) && (e.End? ==> s.reply.end.None?)
      && Arrived(In(t)) == Arrived(In(s)) + (if e.Recv? then Slot(e.v) else [])
  {
    hide Start, Exec;
    if e.Done? { ExecGrows(s.(call := Completed(s.call, e.b)), e.b.flags); }
    if !e.Recv? { InboxPasses(s, e); }
  }

  /** The streams follow the events: what was pushed, early or later, and how it ended, and, whatever
      core writes, what was delivered or still is in the payload slot, in order. */
  lemma {:induction false} FollowsEvents(early: seq<Message>, over: bool, run: seq<State>, es: seq<Event>, n: nat)
    requires IsRun(Enabled, Step, Performed(early, over), run, es) && n <= |es|
    ensures
      var s := run[n];
      && s.reply.items == early + Pushed(es, n)
      && s.reply.end == (if over then Some(Complete) else Ended(es, n))
      && s.reader.items + Slot(s.payload) == Written(es, n)
  {
    hide Step, Enabled, Performs, Trace, View, Moves;
    if n > 0 {
      FollowsEvents(early, over, run, es, n - 1);
      Simulates(early, over, run, es, n - 1);
      EventRecorded(run[n - 1], es[n - 1]);
    }
  }

  // ---- progress of the end

  predicate Misses(s: State, e: Event) {
    e.Done? && e.b == HANDSHAKE && s.finished && s.pending == []
  }

  // The end was missed by one of the first `n` events.
  ghost predicate Missed(run: seq<State>, es: seq<Event>, n: nat)
    requires n <= |es| <= |run|
  {
    exists i {:trigger es[i]} | 0 <= i < n :: Misses(run[i], es[i])
  }

  ghost predicate Ending(s: State, missed: bool) {
    && (missed ==> s.finished && s.readyToSend && s.call.status.None?)
    && (!missed && s.finished && s.readyToSend ==> s.call.status.Some?)
  }

  lemma EndingKept(s: State, e: Event, missed: bool)
    requires Sending(s) && Ending(s, missed) && Enabled(s, e)
    ensures Ending(Step(s, e), missed || Misses(s, e))
  {
    hide OnDone;
    if e.Done? {
      if e.b == HANDSHAKE { HandshakeIs(s); }
      else if e.b == WRITE { WriteIs(s); }
      else if e.b == READ { ReadIs(s); }
      else { FarewellIs(s); }
    }
  }

  lemma {:induction false} EndingAlong(early: seq<Message>, over: bool, run: seq<State>, es: seq<Event>, n: nat)
    requires IsRun(Enabled, Step, Performed(early, over), run, es) && n <= |es|
    ensures Inv(run[n]) && Ending(run[n], Missed(run, es, n))
  {
    hide Step, Enabled, Sending, Receiving, Ending, Misses;
    if n == 0 {
      InvInit(early, over);
    } else {
      EndingAlong(early, over, run, es, n - 1);
      InvKept(run[n - 1], es[n - 1]);
      EndingKept(run[n - 1], es[n - 1], Missed(run, es, n - 1));
      assert Missed(run, es, n) <==> Missed(run, es, n - 1) || Misses(run[n - 1], es[n - 1]);
    }
  }

  /** Once the reply stream has ended and the handler is idle, the status has been started exactly in
      the runs whose handshake did not complete after the end with nothing queued; in the others it
      never is, because a run that missed it is idle for good. */
  lemma StatusIffNotMissed(early: seq<Message>, over: bool, run: seq<State>, es: seq<Event>)
    requires IsRun(Enabled, Step, Performed(early, over), run, es)
    ensures
      var s := run[|es|];
      var missed := Missed(run, es, |es|);
      && (s.finished && s.readyToSend ==> (s.call.status.Some? <==> !missed))
      && (missed ==> s.finished && s.readyToSend)
  {
    EndingAlong(early, over, run, es, |es|);
  }

  // Write completions a handler with a write in flight still waits for.
  function Remaining(s: State): nat {
    if s.readyToSend then 0 else |s.pending| + 1
  }

  // The stream has ended and the handshake is over; idle means that the status was started.
  predicate Draining(s: State) {
    s.finished && HANDSHAKE !in s.call.live && (s.readyToSend <==> s.call.status.Some?)
  }

  lemma Drains(s: State, e: Event)
    requires Sending(s) && Draining(s) && Enabled(s, e)
    ensures Draining(Step(s, e))
    ensures Remaining(Step(s, e)) + (if EndsWrite(e) then 1 else 0) == Remaining(s)
  {
    hide OnDone;
    if e.Done? {
      if e.b == WRITE { WriteIs(s); } else if e.b == READ { ReadIs(s); } else { FarewellIs(s); }
    }
  }

  lemma {:induction false} CountDown(s: State, run: seq<State>, es: seq<Event>, n: nat)
    requires Inv(s) && s.finished && WRITE in s.call.live && IsRun(Enabled, Step, s, run, es) && n <= |es|
    ensures Inv(run[n]) && Draining(run[n])
    ensures Remaining(run[n]) + Writes(es, n) == Remaining(s)
  {
    hide Step, Enabled;
    if n > 0 {
      CountDown(s, run, es, n - 1);
      InvKept(run[n - 1], es[n - 1]);
      Drains(run[n - 1], es[n - 1]);
    }
  }

  /** Once the reply stream has ended with k messages queued behind a write in flight, the status is
      started by exactly the (k + 1)-th write completion, whatever is received meanwhile. */
  lemma ExactEnd(s: State, run: seq<State>, es: seq<Event>)
    requires Inv(s) && s.finished && WRITE in s.call.live && IsRun(Enabled, Step, s, run, es)
    ensures
      var n := |s.pending| + 1;
      Writes(es, |es|) <= n && (run[|es|].call.status.Some? <==> Writes(es, |es|) == n)
  {
    CountDown(s, run, es, |es|);
  }

  // A handler whose reply stream is empty starts its status as soon as it may.
  lemma EmptyReply() returns (t: State, u: State)
    ensures Enabled(Performed([], false), Done(HANDSHAKE, Ok)) && t == Step(Performed([], false), Done(HANDSHAKE, Ok))
    ensures Enabled(t, End(Complete)) && u == Step(t, End(Complete))
    ensures SendStatus in u.call.used && u.call.sent == []
    ensures Inv(u) && u.reader.end.None? && !u.deleted
  {
    var s := Performed([], false);
    InvInit([], false);
    t := Step(s, Done(HANDSHAKE, Ok));
    HandshakeDone(s);
    u := Step(t, End(Complete));
    SourceKept(t, End(Complete));
    assert Performs(Apply(Apply(View(t), EndStream), StartEnd), [], View(u));
  }

  /** The status of an empty reply stream may complete before the first read does; the handler is then
      deleted under that read. */
  lemma DeletedUnderTheRead() returns (run: seq<State>, es: seq<Event>)
    ensures IsRun(Enabled, Step, Performed([], false), run, es)
    ensures run[|es|].deleted && READ in run[|es|].call.live
  {
    hide Accepts;
    var t, u := EmptyReply();
    var v := Step(u, Done(FAREWELL, Ok));
    run, es := [Performed([], false), t, u, v], [Done(HANDSHAKE, Ok), End(Complete), Done(FAREWELL, Ok)];
    DeletionSafeIff(u, FAREWELL, Ok);
  }

  // ---- the error exit

  // Nothing outstanding carries the closing flag, and `finished_` stays unset.
  ghost predicate Leaking(s: State, status: Option<Status>) {
    && !s.finished && !s.deleted && s.reply.end.Some? && s.call.status == status
    && forall b | b in s.call.live :: !b.flags.b2
  }

  lemma LeakingHandshake(s: State, status: Option<Status>)
    requires Leaking(s, status)
    ensures Leaking(ExecHandshake(s), status)
  {
    hide Accepts;
  }

  lemma LeakingSend(s: State, status: Option<Status>)
    requires Leaking(s, status)
    ensures Leaking(ExecSend(s), status)
  {
    hide Accepts;
  }

  lemma LeakingRecv(s: State, status: Option<Status>)
    requires Leaking(s, status)
    ensures Leaking(ExecRecv(s), status)
  {
    hide Accepts;
  }

  lemma LeakingKept(s: State, e: Event, status: Option<Status>)
    requires Leaking(s, status) && Enabled(s, e)
    ensures Leaking(Step(s, e), status)
  {
    if e.Done? {
      var c := s.(call := Completed(s.call, e.b));
      LeakingHandshake(c, status);
      var t := if e.b.flags.b3 then ExecHandshake(c) else c;
      LeakingSend(t, status);
      var u := if e.b.flags.b1 then ExecSend(t) else t;
      LeakingRecv(u, status);
    }
  }

  lemma LeakingAlong(s: State, status: Option<Status>, run: seq<State>, es: seq<Event>)
    requires Leaking(s, status) && IsRun(Enabled, Step, s, run, es)
    ensures Leaking(run[|es|], status)
  {
    var inv := (t: State) => Leaking(t, status);
    forall t, e | inv(t) && Enabled(t, e) ensures inv(Step(t, e)) { LeakingKept(t, e, status); }
    Invariance(Enabled, Step, inv, s, run, es, |es|);
  }

  /** A reply stream that ends with an exception leaks the handler: whatever completes afterwards,
      `exec` never asks for deletion, and the status the client is given is OK. */
  lemma FailureLeaks(s: State, st: Status, run: seq<State>, es: seq<Event>)
    requires Inv(s) && s.reply.end.None? && IsRun(Enabled, Step, Fail(s, st), run, es)
    ensures
      var t := run[|es|];
      !t.deleted && t.call.status == Some(Ok)
  {
    LeakingAlong(Fail(s, st), Some(Ok), run, es);
  }

  // What stays true after a failure with `sent` handed to core.
  ghost predicate Truncated(s: State, sent: seq<Message>) {
    Leaking(s, Some(Ok)) && Closed(s.call) && s.call.sent == sent
  }

  lemma TruncatedKept(s: State, e: Event, sent: seq<Message>)
    requires Truncated(s, sent) && Enabled(s, e)
    ensures Truncated(Step(s, e), sent)
  {
    hide Start, Exec, Tidy;
    LeakingKept(s, e, Some(Ok));
    if e.Done? { ExecGrows(s.(call := Completed(s.call, e.b)), e.b.flags); }
  }

  /** A stream that has already failed when the handler is performed has its status started before
      the metadata, out of order.  Whether core takes the status or refuses it, the handler leaks. */
  lemma EarlyFailureLeaks(early: seq<Message>, st: Status, run: seq<State>, es: seq<Event>)
    requires IsRun(Enabled, Step, PerformedFailed(early, st), run, es)
    ensures run[0].reply == Stream(early, Some(Failure(st)), true) && run[0].pending == early
    ensures run[0].call.live == if CoreChecksOrder then {HANDSHAKE} else {FAILURE, HANDSHAKE}
    ensures !run[0].call.ordered && (run[0].call.accepted <==> !CoreChecksOrder)
    ensures !run[|es|].deleted && run[|es|].call.status == if CoreChecksOrder then None else Some(Ok)
  {
    LeakingAlong(PerformedFailed(early, st), if CoreChecksOrder then None else Some(Ok), run, es);
  }

  // A failed handler that had something queued when it failed, or had not, goes on sending and
  // receiving; its writes are out of order, and refused if core checks that.
  ghost predicate FailedSending(s: State, queued: bool) {
    && (s.call.accepted || (CoreChecksOrder && queued))
    && (!queued ==> s.pending == [] && s.call.ordered)
    && !s.finished && s.reply.end.Some? && (s.pending != [] ==> !s.readyToSend)
    && SendMetadata in s.call.used && s.call.live <= {HANDSHAKE, WRITE, READ, FAILURE}
    && (WRITE in s.call.live ==> !s.readyToSend && HANDSHAKE !in s.call.live)
  }

  ghost predicate Failed(s: State, queued: bool) { FailedSending(s, queued) && Receiving(s) }

  lemma FailedHandshake(s: State, queued: bool)
    requires Failed(s, queued) && HANDSHAKE in s.call.live
    ensures FailedSending(OnDone(s, HANDSHAKE), queued)
  {
    hide OnDone;
    HandshakeIs(s);
    var t := s.(call := Completed(s.call, HANDSHAKE), readyToSend := true);
    FailedArming(if t.pending != [] then Flush(t) else t, queued);
  }

  lemma FailedArming(s: State, queued: bool)
    requires FailedSending(s, queued) && HANDSHAKE !in s.call.live && READ !in s.call.live
    ensures FailedSending(s.(call := Start(s.call, READ, [], None)), queued)
  {
  }

  lemma FailedHandshakeReads(s: State, queued: bool)
    requires Failed(s, queued) && HANDSHAKE in s.call.live
    ensures Receiving(OnDone(s, HANDSHAKE))
  {
    hide OnDone;
    HandshakeIs(s);
  }

  lemma FailedWrite(s: State, queued: bool)
    requires Failed(s, queued) && WRITE in s.call.live
    ensures Failed(OnDone(s, WRITE), queued)
  {
    hide OnDone;
    WriteIs(s);
  }

  lemma FailedRead(s: State, queued: bool)
    requires Failed(s, queued) && CanComplete(s.call, READ)
    ensures Failed(OnDone(s, READ), queued)
  {
    hide OnDone;
    ReadIs(s);
  }

  lemma FailedKept(s: State, e: Event, queued: bool)
    requires Failed(s, queued) && Enabled(s, e)
    ensures Failed(Step(s, e), queued)
  {
    hide Start;
    if e.Done? {
      if e.b == HANDSHAKE { FailedHandshake(s, queued); FailedHandshakeReads(s, queued); }
      else if e.b == WRITE { FailedWrite(s, queued); }
      else if e.b == READ { FailedRead(s, queued); }
      else { assert OnDone(s, FAILURE) == s.(call := Completed(s.call, FAILURE)); }
    }
  }

  lemma FailedAlong(s: State, st: Status, run: seq<State>, es: seq<Event>)
    requires Inv(s) && s.reply.end.None? && IsRun(Enabled, Step, Fail(s, st), run, es)
    ensures Failed(run[|es|], s.pending != [])
  {
    var inv := (t: State) => Failed(t, s.pending != []);
    assert inv(Fail(s, st));
    forall t, e | inv(t) && Enabled(t, e) ensures inv(Step(t, e)) { FailedKept(t, e, s.pending != []); }
    Invariance(Enabled, Step, inv, Fail(s, st), run, es, |es|);
  }

  // With something queued, the completion of the batch in flight starts a write after the status.
  lemma FailedQueueStarts(s: State, st: Status) returns (run: seq<State>, es: seq<Event>)
    requires Inv(s) && s.reply.end.None? && s.pending != []
    ensures IsRun(Enabled, Step, Fail(s, st), run, es)
    ensures !run[|es|].call.ordered && (CoreChecksOrder ==> !run[|es|].call.accepted)
  {
    var t, e := Fail(s, st), Done(if HANDSHAKE in s.call.live then HANDSHAKE else WRITE, Ok);
    run, es := [t, Step(t, e)], [e];
    Single(Enabled, Step, t, e);
  }

  /** Some continuation of a failure starts a message after the status exactly when something is
      queued.  Its assertion that core accepts the message fails exactly if core also checks the
      order; no other is ever refused. */
  lemma FailureDisorderIff(s: State, st: Status)
    requires Inv(s) && s.reply.end.None?
    ensures
      (forall run: seq<State>, es: seq<Event> :: IsRun(Enabled, Step, Fail(s, st), run, es) ==> run[|es|].call.ordered)
      <==> s.pending == []
    ensures
      (forall run: seq<State>, es: seq<Event> :: IsRun(Enabled, Step, Fail(s, st), run, es) ==> run[|es|].call.accepted)
      <==> s.pending == [] || !CoreChecksOrder
  {
    forall run: seq<State>, es: seq<Event> | IsRun(Enabled, Step, Fail(s, st), run, es)
      ensures Failed(run[|es|], s.pending != [])
    {
      FailedAlong(s, st, run, es);
    }
    if s.pending != [] {
      var run, es := FailedQueueStarts(s, st);
    }
  }

  // ---- termination

  /** How many more events core has at most for a handler whose stream is over and that is sent
      `total` messages. */
  function Left(s: State, total: nat): int {
    if s.deleted then 0
    else |s.pending| + One(HANDSHAKE in s.call.live) + One(WRITE in s.call.live) + 1
         + Reading(s.reader.end.Some?, total - |s.reader.items|, s.call.received)
  }

  lemma LeftLowers(s: State, e: Event, total: nat)
    requires Sending(s) && Receiving(s) && s.finished && Enabled(s, e)
    requires |s.reader.items| + |Slot(s.payload)| <= total
    ensures Left(Step(s, e), total) < Left(s, total)
  {
    if e.Done? {
      if e.b == HANDSHAKE { HandshakeLowers(s, total); }
      else if e.b == WRITE { WriteLowers(s, total); }
      else if e.b == READ { ReadLowers(s, total); }
      else { FarewellLowers(s, total); }
    }
  }

  lemma SourceOver(s: State, e: Event)
    requires Sending(s) && s.finished && Enabled(s, e)
    ensures Step(s, e).reply == s.reply
  {
    hide Start, Completed, Received, Exec;
    if e.Done? {
      ExecGrows(s.(call := Completed(s.call, e.b)), e.b.flags);
    }
  }

  lemma HandshakeLowers(s: State, total: nat)
    requires Sending(s) && Receiving(s) && HANDSHAKE in s.call.live && !s.deleted
    ensures Left(OnDone(s, HANDSHAKE), total) < Left(s, total)
  {
    hide OnDone;
    HandshakeIs(s);
  }

  lemma WriteLowers(s: State, total: nat)
    requires Sending(s) && Receiving(s) && WRITE in s.call.live && !s.deleted
    ensures Left(OnDone(s, WRITE), total) < Left(s, total)
  {
    hide OnDone;
    WriteIs(s);
  }

  lemma ReadLowers(s: State, total: nat)
    requires Sending(s) && Receiving(s) && CanComplete(s.call, READ) && !s.deleted
    requires |s.reader.items| + |Slot(s.payload)| <= total
    ensures Left(OnDone(s, READ), total) < Left(s, total)
  {
    hide OnDone;
    ReadIs(s);
  }

  lemma FarewellLowers(s: State, total: nat)
    requires Sending(s) && FAREWELL in s.call.live && |s.reader.items| <= total && !s.deleted
    ensures Left(OnDone(s, FAREWELL), total) < Left(s, total)
  {
  }
}
