/** The client side of a bidirectional call: `Bidir_streaming_call_session`. */
module BidirSession {
  import opened GrpcCall
  import opened CallContract
  import opened SerialSender
  import opened Runs

  const HANDSHAKE := Batch(Handshake, F2)
  const WRITE := Batch(Write, F1)
  const HALF_CLOSE := Batch(HalfClose, F4)
  const STATUS := Batch(AwaitStatus, F8)
  const READ := Batch(Read, F0)

  // `cancelled` records `grpc_call_cancel`.
  datatype State = State(
    canSend: bool, finishedSending: bool, finishedReceiving: bool, endSent: bool,
    recvBuffer: Option<Message>, status: Status, pending: seq<Message>,
    req: Stream, rep: Stream, call: Call, cancelled: bool, deleted: bool)

  const Init := State(false, false, false, false, None, Ok, [], NewStream, NewStream,
                      Start(NewCall, HANDSHAKE, [], None), false, false)

  // ---- the code of the session, on values

  function Flush(s: State): State
    requires s.pending != []
  {
    if !s.canSend then s else
    s.(canSend := false, pending := s.pending[1..], call := Start(s.call, WRITE, [s.pending[0]], None))
  }

  function SendClientEnd(s: State): State {
    s.(call := Start(s.call, HALF_CLOSE, [], None), endSent := true)
  }

  function Finish(s: State): State {
    s.(call := Start(s.call, STATUS, [], None), endSent := true)
  }

  function OnPush(s: State, m: Message): State {
    Flush(s.(req := Put(s.req, m), pending := s.pending + [m]))
  }

  function OnEnd(s: State, t: Terminal): State {
    var u := s.(req := Close(s.req, t), cancelled := s.cancelled || t.Failure?, finishedSending := true);
    if u.canSend then SendClientEnd(u) else u
  }

  function ExecHandshake(s: State): State {
    var t := s.(canSend := true);
    var u := if t.pending != [] then Flush(t) else t;
    u.(call := Start(u.call, READ, [], None))
  }

  function ExecHalfClose(s: State): State {
    if s.finishedReceiving then Finish(s) else s
  }

  function ExecWrite(s: State): State {
    var t := s.(canSend := true);
    if t.pending != [] then Flush(t) else if t.finishedSending then SendClientEnd(t) else t
  }

  function ExecRead(s: State): State {
    if s.recvBuffer.Some? then
      var t := s.(recvBuffer := None, call := Start(s.call, READ, [], None));
      t.(rep := Put(t.rep, s.recvBuffer.value))
    else
      var t := s.(finishedReceiving := true);
      if t.finishedSending && t.endSent then Finish(t) else t
  }

  function Exec(s: State, flags: Flags): (State, bool) {
    if flags.b3 then (s.(rep := Close(s.rep, StatusTerminal(s.status))), true)
    else if flags.b1 then (ExecHandshake(s), false)
    else if flags.b2 then (ExecHalfClose(s), false)
    else if flags.b0 then (ExecWrite(s), false)
    else (ExecRead(s), false)
  }

  // ---- the session object

  class Session {
    var canSend: bool
    var finishedSending: bool
    var finishedReceiving: bool
    var endSent: bool
    var recvBuffer: Option<Message>
    var status: Status
    var pending: seq<Message>
    var req: Stream
    var rep: Stream
    var call: Call
    var cancelled: bool
    var deleted: bool

    function Value(): State
      reads this
    {
      State(canSend, finishedSending, finishedReceiving, endSent, recvBuffer, status, pending,
            req, rep, call, cancelled, deleted)
    }

    constructor ()
      ensures Value() == Init
    {
      finishedSending, finishedReceiving, endSent := false, false, false;
      recvBuffer, status, pending := None, Ok, [];
      req, rep := NewStream, NewStream;
      cancelled, deleted := false, false;
      canSend := false;
      call := Start(NewCall, HANDSHAKE, [], None);
    }

    method FlushPending()
      requires pending != []
      modifies this
      ensures Value() == Flush(old(Value()))
    {
      if !canSend {
        return;
      }
      canSend := false;
      var op := pending[0];
      pending := pending[1..];
      call := Start(call, WRITE, [op], None);
    }

    method StartHalfClose()
      modifies this
      ensures Value() == SendClientEnd(old(Value()))
    {
      call := Start(call, HALF_CLOSE, [], None);
      endSent := true;
    }

    method AwaitTheStatus()
      modifies this
      ensures Value() == Finish(old(Value()))
    {
      call := Start(call, STATUS, [], None);
      endSent := true;
    }

    method Push(m: Message)
      modifies this
      ensures Value() == OnPush(old(Value()), m)
    {
      req := Put(req, m);
      pending := pending + [m];
      FlushPending();
    }

    method Finally(t: Terminal)
      modifies this
      ensures Value() == OnEnd(old(Value()), t)
    {
      req := Close(req, t);
      if t.Failure? {
        cancelled := true;
      }
      finishedSending := true;
      if canSend {
        StartHalfClose();
      }
    }

    // The branch of `exec` for the end of a read.
    method ExecuteRead()
      modifies this
      ensures Value() == ExecRead(old(Value()))
    {
      hide Accepts;
      if recvBuffer.Some? {
        var data := recvBuffer.value;
        recvBuffer := None;
        call := Start(call, READ, [], None);
        rep := Put(rep, data);
      } else {
        finishedReceiving := true;
        if finishedSending && endSent {
          AwaitTheStatus();
        }
      }
    }

    method Execute(flags: Flags) returns (kill: bool)
      modifies this
      ensures (Value(), kill) == Exec(old(Value()), flags)
    {
      hide Accepts, ExecRead;
      if flags.b3 {
        if status == Ok {
          rep := Close(rep, Complete);
        } else {
          rep := Close(rep, Failure(status));
        }
        return true;
      }
      if flags.b1 {
        canSend := true;
        if pending != [] {
          FlushPending();
        }
        call := Start(call, READ, [], None);
      } else if flags.b2 {
        if finishedReceiving {
          AwaitTheStatus();
        }
      } else if flags.b0 {
        canSend := true;
        if pending != [] {
          FlushPending();
        } else if finishedSending {
          StartHalfClose();
        }
      } else {
        ExecuteRead();
      }
      return false;
    }
  }

  // ---- steps

  predicate Enabled(s: State, e: Event) {
    match e
    case Push(_) => s.req.end.None?
    case End(_) => s.req.end.None?
    case Recv(_) => AwaitsMessage(s.call)
    case Done(b, _) => CanComplete(s.call, b)
  }

  // Core completes a batch: it is no longer outstanding and its status buffer is written.
  function Retired(s: State, b: Batch, st: Status): State {
    s.(call := Completed(s.call, b), status := if Has(b, RecvStatus) then st else s.status)
  }

  function OnDone(s: State, b: Batch, st: Status): State {
    var (u, kill) := Exec(Retired(s, b, st), b.flags);
    if kill then u.(deleted := true) else u
  }

  // What each completion comes to.
  lemma HandshakeIs(s: State, st: Status)
    ensures OnDone(s, HANDSHAKE, st) == ExecHandshake(s.(call := Completed(s.call, HANDSHAKE)))
  {
    hide ExecHandshake, Completed;
  }

  lemma WriteIs(s: State, st: Status)
    ensures OnDone(s, WRITE, st) == ExecWrite(s.(call := Completed(s.call, WRITE)))
  {
    hide ExecWrite, Completed;
  }

  lemma HalfCloseIs(s: State, st: Status)
    ensures OnDone(s, HALF_CLOSE, st) == ExecHalfClose(s.(call := Completed(s.call, HALF_CLOSE)))
  {
    hide ExecHalfClose, Completed;
  }

  lemma ReadIs(s: State, st: Status)
    ensures OnDone(s, READ, st) == ExecRead(s.(call := Completed(s.call, READ)))
  {
    hide ExecRead, Completed;
  }

  function Step(s: State, e: Event): State {
    match e
    case Push(m) => OnPush(s, m)
    case End(t) => OnEnd(s, t)
    case Recv(v) => s.(recvBuffer := v, call := Received(s.call, v))
    case Done(b, st) => OnDone(s, b, st)
  }

  // ---- the invariant of every run

  function View(s: State): Sender {
    Sender(s.req.items, s.pending, s.call.sent, !s.canSend, s.req.end.Some?, SendClose in s.call.used)
  }

  ghost predicate Sending(s: State) {
    && s.finishedSending == s.req.end.Some? && s.req.valid && s.call.ordered
    && s.cancelled == (s.req.end.Some? && s.req.end.value.Failure?)
    && (s.pending != [] ==> !s.canSend)
    && s.call.live <= {HANDSHAKE, WRITE, READ, HALF_CLOSE, STATUS}
    && (s.canSend <==> HANDSHAKE !in s.call.live && WRITE !in s.call.live)
    && (HANDSHAKE in s.call.live ==> s.call.live == {HANDSHAKE} && !s.finishedReceiving)
    && SendMetadata in s.call.used && SendStatus !in s.call.used && s.call.status == None
    && (SendClose in s.call.used) == s.endSent
    && (s.endSent ==> s.finishedSending && s.canSend)
    && (HALF_CLOSE in s.call.live ==> s.endSent)
  }

  ghost predicate Receiving(s: State) {
    && (READ in s.call.live <==> HANDSHAKE !in s.call.live && !s.finishedReceiving)
    && (s.recvBuffer.Some? ==> s.call.received && READ in s.call.live)
    && (s.finishedReceiving ==> s.call.received)
    && (HANDSHAKE in s.call.live ==> !s.call.received)
    && s.call.taken == |s.rep.items| + |Slot(s.recvBuffer)|
    && (RecvStatus in s.call.used ==> s.endSent && s.finishedReceiving)
    && (STATUS in s.call.live <==> RecvStatus in s.call.used && !s.deleted)
    && (s.deleted ==> RecvStatus in s.call.used)
    && s.rep.valid
    && s.rep.end == (if s.deleted then Some(StatusTerminal(s.status)) else None)
  }

  ghost predicate Inv(s: State) { Sending(s) && Receiving(s) && Safe(View(s)) }

  // ---- refinement

  function Moves(s: State, e: Event): seq<Move> {
    match e
    case Push(m) => if s.canSend then [Enqueue(m), StartHead] else [Enqueue(m)]
    case End(_) => if s.canSend then [EndStream, StartEnd] else [EndStream]
    case Recv(_) => []
    case Done(b, _) =>
      if b != HANDSHAKE && b != WRITE then []
      else if s.pending != [] then [BecomeIdle, StartHead]
      else if b == WRITE && s.finishedSending then [BecomeIdle, StartEnd]
      else [BecomeIdle]
  }

  lemma HandshakeRefines(s: State, st: Status)
    requires Sending(s) && CanComplete(s.call, HANDSHAKE)
    ensures Performs(View(s), Moves(s, Done(HANDSHAKE, st)), View(OnDone(s, HANDSHAKE, st)))
  {
    var v, w := View(s), View(OnDone(s, HANDSHAKE, st));
    if s.pending != [] {
      assert w == Apply(Apply(v, BecomeIdle), StartHead);
      Moves2(v, BecomeIdle, StartHead);
    } else {
      assert w == Apply(v, BecomeIdle);
      Moves1(v, BecomeIdle);
    }
  }

  lemma WriteRefines(s: State, st: Status)
    requires Sending(s) && CanComplete(s.call, WRITE)
    ensures Performs(View(s), Moves(s, Done(WRITE, st)), View(OnDone(s, WRITE, st)))
  {
    var v, w := View(s), View(OnDone(s, WRITE, st));
    if s.pending != [] {
      assert w == Apply(Apply(v, BecomeIdle), StartHead);
      Moves2(v, BecomeIdle, StartHead);
    } else if s.finishedSending {
      assert w == Apply(Apply(v, BecomeIdle), StartEnd);
      Moves2(v, BecomeIdle, StartEnd);
    } else {
      assert w == Apply(v, BecomeIdle);
      Moves1(v, BecomeIdle);
    }
  }

  // Reads and the status request do not touch the outgoing lane.
  lemma LaneUntouched(c: Call, b: Batch)
    requires b == READ || b == STATUS
    ensures
      var d := Start(c, b, [], None);
      d.sent == c.sent && (SendClose in d.used <==> SendClose in c.used)
  {
    hide Accepts;
  }

  // Nor do the other completions touch the sender.
  lemma HalfCloseUntouched(s: State, st: Status)
    ensures View(OnDone(s, HALF_CLOSE, st)) == View(s)
  {
    hide Start, OnDone;
    LaneUntouched(Completed(s.call, HALF_CLOSE), STATUS);
    HalfCloseIs(s, st);
  }

  lemma ReadUntouched(s: State, st: Status)
    ensures View(OnDone(s, READ, st)) == View(s)
  {
    hide Start, OnDone, Put;
    var c := Completed(s.call, READ);
    LaneUntouched(c, READ);
    LaneUntouched(c, STATUS);
    ReadIs(s, st);
    assert View(ExecRead(s.(call := c))) == View(s.(call := c));
  }

  lemma StatusUntouched(s: State, st: Status)
    ensures View(OnDone(s, STATUS, st)) == View(s)
  {
    hide ExecHandshake, ExecWrite, ExecHalfClose, ExecRead;
  }

  lemma Refines(s: State, e: Event)
    requires Sending(s) && Receiving(s) && Enabled(s, e)
    ensures Performs(View(s), Moves(s, e), View(Step(s, e)))
  {
    hide OnDone;
    var v := View(s);
    match e
    case Push(m) => if s.canSend { Moves2(v, Enqueue(m), StartHead); } else { Moves1(v, Enqueue(m)); }
    case End(_) => if s.canSend { Moves2(v, EndStream, StartEnd); } else { Moves1(v, EndStream); }
    case Recv(_) =>
    case Done(b, st) =>
      if b == HANDSHAKE { HandshakeRefines(s, st); }
      else if b == WRITE { WriteRefines(s, st); }
      else if b == HALF_CLOSE { HalfCloseUntouched(s, st); }
      else if b == READ { ReadUntouched(s, st); }
      else { StatusUntouched(s, st); }
  }

  lemma ArmingKeepsSending(s: State)
    requires Sending(s) && HANDSHAKE !in s.call.live
    ensures Sending(s.(call := Start(s.call, READ, [], None)))
  {
  }

  lemma HandshakeKeepsSending(s: State, st: Status)
    requires Sending(s) && CanComplete(s.call, HANDSHAKE)
    ensures Sending(OnDone(s, HANDSHAKE, st))
  {
    hide OnDone;
    HandshakeIs(s, st);
    var t := s.(call := Completed(s.call, HANDSHAKE), canSend := true);
    ArmingKeepsSending(if t.pending != [] then Flush(t) else t);
  }

  lemma HandshakeKeepsReceiving(s: State, st: Status)
    requires Sending(s) && Receiving(s) && CanComplete(s.call, HANDSHAKE)
    ensures Receiving(OnDone(s, HANDSHAKE, st))
  {
    hide OnDone;
    HandshakeIs(s, st);
  }

  lemma WriteKeepsSending(s: State, st: Status)
    requires Sending(s) && CanComplete(s.call, WRITE)
    ensures Sending(OnDone(s, WRITE, st))
  {
    hide OnDone;
    WriteIs(s, st);
    var t := s.(call := Completed(s.call, WRITE), canSend := true);
    if t.pending != [] { assert Sending(Flush(t)); }
    else if t.finishedSending { assert Sending(SendClientEnd(t)); }
  }

  lemma WriteKeepsReceiving(s: State, st: Status)
    requires Sending(s) && Receiving(s) && CanComplete(s.call, WRITE)
    ensures Receiving(OnDone(s, WRITE, st))
  {
    hide OnDone;
    WriteIs(s, st);
  }

  lemma HalfCloseDone(s: State, st: Status)
    requires Sending(s) && Receiving(s) && CanComplete(s.call, HALF_CLOSE)
    ensures Sending(OnDone(s, HALF_CLOSE, st)) && Receiving(OnDone(s, HALF_CLOSE, st))
  {
    hide OnDone;
    HalfCloseIs(s, st);
  }

  lemma StatusDone(s: State, st: Status)
    requires Sending(s) && Receiving(s) && CanComplete(s.call, STATUS)
    ensures Sending(OnDone(s, STATUS, st)) && Receiving(OnDone(s, STATUS, st))
  {
  }

  lemma ReadKeepsSending(s: State, st: Status)
    requires Sending(s) && Receiving(s) && CanComplete(s.call, READ)
    ensures Sending(OnDone(s, READ, st))
  {
    hide OnDone;
    ReadIs(s, st);
    var t := s.(call := Completed(s.call, READ));
    assert HANDSHAKE !in t.call.live && Sending(t);
  }

  lemma ReadKeepsReceiving(s: State, st: Status)
    requires Sending(s) && Receiving(s) && CanComplete(s.call, READ)
    ensures Receiving(OnDone(s, READ, st))
  {
    hide OnDone;
    ReadIs(s, st);
  }

  lemma ControlKept(s: State, e: Event)
    requires Sending(s) && Receiving(s) && Enabled(s, e)
    ensures Sending(Step(s, e)) && Receiving(Step(s, e))
  {
    hide OnDone;
    if e.Done? {
      if e.b == HANDSHAKE { HandshakeKeepsSending(s, e.st); HandshakeKeepsReceiving(s, e.st); }
      else if e.b == WRITE { WriteKeepsSending(s, e.st); WriteKeepsReceiving(s, e.st); }
      else if e.b == HALF_CLOSE { HalfCloseDone(s, e.st); }
      else if e.b == STATUS { StatusDone(s, e.st); }
      else { ReadKeepsSending(s, e.st); ReadKeepsReceiving(s, e.st); }
    }
  }

  lemma InvKept(s: State, e: Event)
    requires Inv(s) && Enabled(s, e)
    ensures Inv(Step(s, e))
  {
    ControlKept(s, e);
    Refines(s, e);
    SafeAlong(View(s), Moves(s, e), View(Step(s, e)));
  }

  lemma InvInit()
    ensures Inv(Init) && View(Init) == Initial && Closing(Init, false) && Ending(Init, false)
  {
  }

  lemma InvAlong(s: State, run: seq<State>, es: seq<Event>)
    requires Inv(s) && IsRun(Enabled, Step, s, run, es)
    ensures Inv(run[|es|])
  {
    forall t, e | Inv(t) && Enabled(t, e) ensures Inv(Step(t, e)) { InvKept(t, e); }
    Invariance(Enabled, Step, Inv, s, run, es, |es|);
  }

  // ---- what holds of every run

  // The moves performed by the first `n` events of a run.
  function Trace(run: seq<State>, es: seq<Event>, n: nat): seq<Move>
    requires n <= |es| <= |run|
  {
    if n == 0 then [] else Trace(run, es, n - 1) + Moves(run[n - 1], es[n - 1])
  }

  lemma {:induction false} Simulates(run: seq<State>, es: seq<Event>, n: nat)
    requires IsRun(Enabled, Step, Init, run, es) && n <= |es|
    ensures Inv(run[n]) && Performs(Initial, Trace(run, es, n), View(run[n]))
  {
    hide Step, Enabled, Moves, View;
    if n == 0 {
      InvInit();
    } else {
      Simulates(run, es, n - 1);
      var s, e := run[n - 1], es[n - 1];
      InvKept(s, e);
      Refines(s, e);
      PerformsAppend(Initial, Trace(run, es, n - 1), View(s), Moves(s, e), View(run[n]));
    }
  }

  /** The session refines the serial FIFO sender: up to any point, the moves its events perform are,
      in order, a run of the abstract protocol that leads to the session's own queue, what it handed
      to core, and its flags.  Busy means that the metadata or a write is outstanding, and a queued
      message waits for nothing else. */
  lemma {:induction false} RefinesSerialSender(run: seq<State>, es: seq<Event>, n: nat)
    requires IsRun(Enabled, Step, Init, run, es) && n <= |es|
    ensures
      var s := run[n];
      && (s.pending != [] ==> !s.canSend)
      && (!s.canSend <==> HANDSHAKE in s.call.live || WRITE in s.call.live)
      && Performs(Initial, Trace(run, es, n),
                  Sender(s.req.items, s.pending, s.call.sent, !s.canSend,
                         s.req.end.Some?, SendClose in s.call.used))
  {
    Simulates(run, es, n);
  }

  /** `finish` is reached only after the half-close was started and the null payload was read; the
      half-close is started only after every pushed message; nothing is queued at deletion, and the
      reply promise ends then, once, as the status says. */
  lemma StatusComesLast(run: seq<State>, es: seq<Event>)
    requires IsRun(Enabled, Step, Init, run, es)
    ensures
      var s := run[|es|];
      && (RecvStatus in s.call.used ==> SendClose in s.call.used && s.finishedReceiving)
      && (SendClose in s.call.used ==> s.req.end.Some? && s.call.sent == s.req.items && s.pending == [])
      && (s.deleted ==> RecvStatus in s.call.used && s.pending == [])
      && s.rep.valid && (s.rep.end.Some? <==> s.deleted)
      && (s.deleted ==> s.rep.end.value == if s.status == Ok then Complete else Failure(s.status))
  {
    InvInit();
    InvAlong(Init, run, es);
  }

  // What `exec` may do to the call; the request stream is not its business.
  ghost predicate Grows(s: State, t: State) {
    Grown(s.call, t.call) && t.deleted == s.deleted && t.status == s.status && t.req == s.req
  }

  lemma SendsGrow(s: State)
    ensures s.pending != [] ==> Grows(s, Flush(s))
    ensures Grows(s, SendClientEnd(s)) && Grows(s, Finish(s))
  {
    hide Tidy, Start;
    TidyKept();
  }

  lemma ExecGrows(s: State, flags: Flags)
    ensures Grows(s, Exec(s, flags).0) && Exec(s, flags).1 == flags.b3
  {
    hide Tidy, Start, Flush, SendClientEnd, Finish;
    TidyKept();
    if flags.b1 { SendsGrow(s.(canSend := true)); }
    else if flags.b2 { SendsGrow(s); }
    else if flags.b0 { SendsGrow(s.(canSend := true)); }
    else { SendsGrow(s.(finishedReceiving := true)); }
  }

  lemma StepTidy(s: State, e: Event)
    requires Tidy(s.call) && Asked(s.call) && Enabled(s, e)
    ensures Tidy(Step(s, e).call) && Asked(Step(s, e).call)
  {
    hide Tidy, Start, Completed, Received, Exec;
    TidyKept();
    if e.Done? { ExecGrows(Retired(s, e.b, e.st), e.b.flags); }
  }

  lemma TidyAlong(run: seq<State>, es: seq<Event>)
    requires IsRun(Enabled, Step, Init, run, es)
    ensures Tidy(run[|es|].call) && Asked(run[|es|].call)
  {
    hide Tidy;
    TidyKept();
    var inv := (s: State) => Tidy(s.call) && Asked(s.call);
    forall s, e | inv(s) && Enabled(s, e) ensures inv(Step(s, e)) { StepTidy(s, e); }
    Invariance(Enabled, Step, inv, Init, run, es, |es|);
  }

  // Only the completion of the status request sets the status and deletes the session.
  lemma StatusIs(s: State, e: Event)
    requires Sending(s) && Enabled(s, e)
    ensures
      var t, over := Step(s, e), e.Done? && e.b == STATUS;
      t.status == (if over then e.st else s.status) && t.deleted == (s.deleted || over)
  {
    hide Start, Completed, Received, Exec;
    if e.Done? { ExecGrows(Retired(s, e.b, e.st), e.b.flags); }
  }

  // ---- the two halves, as the other end sees them

  function In(s: State): Inbox { Inbox(s.rep.items, s.recvBuffer, s.call.received, s.call.taken) }

  lemma SourcePasses(s: State, e: Event)
    requires Sending(s) && Receiving(s) && Enabled(s, e) && (e.Push? || e.End?)
    ensures In(Step(s, e)) == In(s)
  {
  }

  lemma WritePasses(s: State, st: Status)
    requires Sending(s) && Receiving(s) && WRITE in s.call.live
    ensures In(OnDone(s, WRITE, st)) == In(s)
  {
    hide OnDone;
    WriteIs(s, st);
  }

  lemma ReadPasses(s: State, st: Status)
    requires Sending(s) && Receiving(s) && CanComplete(s.call, READ)
    ensures Passes(In(s), In(OnDone(s, READ, st)))
  {
    hide OnDone;
    ReadIs(s, st);
  }

  lemma HandshakePasses(s: State, st: Status)
    requires Sending(s) && Receiving(s) && HANDSHAKE in s.call.live
    ensures Passes(In(s), In(OnDone(s, HANDSHAKE, st)))
  {
    hide OnDone;
    HandshakeIs(s, st);
  }

  lemma OtherPasses(s: State, b: Batch, st: Status)
    requires b == HALF_CLOSE || b == STATUS
    ensures In(OnDone(s, b, st)) == In(s)
  {
    hide Accepts;
  }

  lemma InboxPasses(s: State, e: Event)
    requires Sending(s) && Receiving(s) && Enabled(s, e) && !e.Recv?
    ensures Passes(In(s), In(Step(s, e)))
  {
    if !e.Done? { SourcePasses(s, e); }
    else if e.b == HANDSHAKE { HandshakePasses(s, e.st); }
    else if e.b == WRITE { WritePasses(s, e.st); }
    else if e.b == READ { ReadPasses(s, e.st); }
    else { OtherPasses(s, e.b, e.st); }
  }

  lemma OutboxGrows(s: State, e: Event)
    requires Inv(s) && Enabled(s, e)
    ensures s.call.sent <= Step(s, e).call.sent
    ensures SendClose in s.call.used ==>
              SendClose in Step(s, e).call.used && Step(s, e).call.sent == s.call.sent
  {
    Refines(s, e);
    Monotone(View(s), Moves(s, e), View(Step(s, e)));
  }

  // ---- the race of the half-close with the null payload

  // A null payload is dispatched while the half-close is outstanding.
  predicate Races(s: State, e: Event) {
    e.Done? && e.b == READ && s.recvBuffer.None? && HALF_CLOSE in s.call.live
  }

  // One of the first `n` events raced.
  ghost predicate Raced(run: seq<State>, es: seq<Event>, n: nat)
    requires n <= |es| <= |run|
  {
    exists i {:trigger es[i]} | 0 <= i < n :: Races(run[i], es[i])
  }

  // No batch was refused, and a deleted session has nothing outstanding.
  ghost predicate Sound(s: State) { s.call.accepted && (s.deleted ==> s.call.live == {}) }

  ghost predicate Closing(s: State, raced: bool) {
    if raced then
      RecvStatus in s.call.used && s.endSent && s.finishedReceiving &&
      (HALF_CLOSE in s.call.live || !s.call.accepted)
    else
      s.call.ok &&
      (RecvStatus in s.call.used <==> s.finishedReceiving && s.endSent && HALF_CLOSE !in s.call.live)
  }

  lemma {:induction false} ClosingAlong(run: seq<State>, es: seq<Event>, n: nat)
    requires IsRun(Enabled, Step, Init, run, es) && n <= |es|
    ensures Inv(run[n]) && Closing(run[n], Raced(run, es, n))
  {
    hide Step, Enabled, Sending, Receiving, Closing, Races;
    if n == 0 {
      InvInit();
    } else {
      ClosingAlong(run, es, n - 1);
      InvKept(run[n - 1], es[n - 1]);
      ClosingKept(run[n - 1], es[n - 1], Raced(run, es, n - 1));
      assert Raced(run, es, n) <==> Raced(run, es, n - 1) || Races(run[n - 1], es[n - 1]);
    }
  }

  lemma SourceClosingKept(s: State, e: Event, raced: bool)
    requires Sending(s) && Receiving(s) && Closing(s, raced) && Enabled(s, e) && !e.Done?
    ensures Closing(Step(s, e), raced)
  {
  }

  lemma HandshakeClosingKept(s: State, st: Status, raced: bool)
    requires Sending(s) && Receiving(s) && Closing(s, raced) && HANDSHAKE in s.call.live
    ensures Closing(OnDone(s, HANDSHAKE, st), raced)
  {
    hide OnDone;
    HandshakeIs(s, st);
  }

  lemma WriteClosingKept(s: State, st: Status, raced: bool)
    requires Sending(s) && Receiving(s) && Closing(s, raced) && WRITE in s.call.live
    ensures Closing(OnDone(s, WRITE, st), raced)
  {
    hide OnDone;
    WriteIs(s, st);
  }

  lemma HalfCloseClosingKept(s: State, st: Status, raced: bool)
    requires Sending(s) && Receiving(s) && Closing(s, raced) && HALF_CLOSE in s.call.live
    ensures Closing(OnDone(s, HALF_CLOSE, st), raced)
  {
    hide OnDone;
    HalfCloseIs(s, st);
  }

  lemma ReadClosingKept(s: State, st: Status, raced: bool)
    requires Sending(s) && Receiving(s) && Closing(s, raced) && CanComplete(s.call, READ)
    ensures Closing(OnDone(s, READ, st), raced || Races(s, Done(READ, st)))
  {
    hide OnDone;
    ReadIs(s, st);
  }

  lemma ClosingKept(s: State, e: Event, raced: bool)
    requires Sending(s) && Receiving(s) && Closing(s, raced) && Enabled(s, e)
    ensures Closing(Step(s, e), raced || Races(s, e))
  {
    if !e.Done? { SourceClosingKept(s, e, raced); }
    else if e.b == HANDSHAKE { HandshakeClosingKept(s, e.st, raced); }
    else if e.b == WRITE { WriteClosingKept(s, e.st, raced); }
    else if e.b == HALF_CLOSE { HalfCloseClosingKept(s, e.st, raced); }
    else if e.b == READ { ReadClosingKept(s, e.st, raced); }
  }

  // A session whose request stream is empty half-closes as soon as it may.
  lemma EmptyRequest() returns (t: State, u: State)
    ensures Enabled(Init, Done(HANDSHAKE, Ok)) && t == Step(Init, Done(HANDSHAKE, Ok))
    ensures Enabled(t, End(Complete)) && u == Step(t, End(Complete))
    ensures Inv(u) && Closing(u, false) && HALF_CLOSE in u.call.live && READ in u.call.live
    ensures !u.call.received && u.recvBuffer.None? && u.call.taken == 0
  {
    InvInit();
    t := Step(Init, Done(HANDSHAKE, Ok));
    HandshakeStart();
    u := Step(t, End(Complete));
    InvKept(t, End(Complete));
    SourceClosingKept(t, End(Complete), false);
    SourcePasses(t, End(Complete));
    EndStarts(t);
  }

  lemma HandshakeStart()
    ensures
      var t := OnDone(Init, HANDSHAKE, Ok);
      && Inv(t) && Closing(t, false) && t.canSend && t.req.end.None?
      && In(t) == Inbox([], None, false, 0)
  {
    InvInit();
    InvKept(Init, Done(HANDSHAKE, Ok));
    ClosingKept(Init, Done(HANDSHAKE, Ok), false);
  }

  lemma EndStarts(s: State)
    requires Inv(s) && s.canSend && s.req.end.None?
    ensures HALF_CLOSE in OnEnd(s, Complete).call.live && s.call.live <= OnEnd(s, Complete).call.live
  {
  }

  // The null payload is in, and the half-close is still outstanding.
  ghost predicate CanRace(s: State) {
    && Inv(s) && Closing(s, false)
    && CanComplete(s.call, READ) && s.recvBuffer.None? && HALF_CLOSE in s.call.live
  }

  lemma NullArrives(s: State)
    requires Inv(s) && Closing(s, false) && HALF_CLOSE in s.call.live && READ in s.call.live
    requires !s.call.received
    ensures Enabled(s, Recv(None)) && CanRace(Step(s, Recv(None)))
  {
  }

  /** From every such state, dispatching the null payload and then the half-close starts a second
      status request, which is refused. */
  lemma RaceRefuses(s: State, st: Status, st': Status)
    requires CanRace(s)
    ensures
      var t := Step(s, Done(READ, st));
      Enabled(t, Done(HALF_CLOSE, st')) && !Step(t, Done(HALF_CLOSE, st')).call.accepted
  {
  }

  /** Without the race a run is sound throughout: every batch is accepted, so `finish` runs at most
      once, and nothing is outstanding at deletion.  With it, the session is unsound as soon as the
      half-close has completed or the session is deleted, whichever comes first. */
  lemma SoundIffNoRace(run: seq<State>, es: seq<Event>)
    requires IsRun(Enabled, Step, Init, run, es)
    ensures
      var s := run[|es|];
      && (!Raced(run, es, |es|) ==> Sound(s))
      && (HALF_CLOSE !in s.call.live || s.deleted ==> (Sound(s) <==> !Raced(run, es, |es|)))
  {
    ClosingAlong(run, es, |es|);
    var s := run[|es|];
    if s.deleted && !Raced(run, es, |es|) {
      assert s.call.live == {};
    }
  }

  /** The batches that core accepts obey the discipline of a call, and without the race it accepts
      every one. */
  lemma CallIsOrderly(run: seq<State>, es: seq<Event>)
    requires IsRun(Enabled, Step, Init, run, es)
    ensures Orderly(run[|es|].call) && Once(run[|es|].call, RecvMetadata)
    ensures run[|es|].call.ok || Raced(run, es, |es|)
  {
    TidyAlong(run, es);
    AskedOnce(run[|es|].call);
    ClosingAlong(run, es, |es|);
  }

  lemma DeletionIsFinal(run: seq<State>, es: seq<Event>, e: Event)
    requires IsRun(Enabled, Step, Init, run, es) && !Raced(run, es, |es|) && run[|es|].deleted
    ensures !Enabled(run[|es|], e)
  {
    SoundIffNoRace(run, es);
    ClosingAlong(run, es, |es|);
  }

  // ---- progress of the half-close

  // The handshake completes after the stream has ended with nothing queued.
  predicate Misses(s: State, e: Event) {
    e.Done? && e.b == HANDSHAKE && s.finishedSending && s.pending == []
  }

  // The end was missed by one of the first `n` events.
  ghost predicate Missed(run: seq<State>, es: seq<Event>, n: nat)
    requires n <= |es| <= |run|
  {
    exists i {:trigger es[i]} | 0 <= i < n :: Misses(run[i], es[i])
  }

  ghost predicate Ending(s: State, missed: bool) {
    && (missed ==> s.finishedSending && s.canSend && !s.endSent)
    && (!missed && s.finishedSending && s.canSend ==> s.endSent)
  }

  lemma EndingKept(s: State, e: Event, missed: bool)
    requires Sending(s) && Receiving(s) && Ending(s, missed) && Enabled(s, e)
    ensures Ending(Step(s, e), missed || Misses(s, e))
  {
    hide Accepts;
  }

  lemma {:induction false} EndingAlong(run: seq<State>, es: seq<Event>, n: nat)
    requires IsRun(Enabled, Step, Init, run, es) && n <= |es|
    ensures Inv(run[n]) && Ending(run[n], Missed(run, es, n))
  {
    hide Step, Enabled, Sending, Receiving, Ending, Misses;
    if n == 0 {
      InvInit();
    } else {
      EndingAlong(run, es, n - 1);
      InvKept(run[n - 1], es[n - 1]);
      EndingKept(run[n - 1], es[n - 1], Missed(run, es, n - 1));
      assert Missed(run, es, n) <==> Missed(run, es, n - 1) || Misses(run[n - 1], es[n - 1]);
    }
  }

  /** Once the stream has ended and the session is idle, the half-close has been started exactly in
      the runs whose handshake did not complete after the end with nothing queued; in the others it
      never is, because a run that missed it is idle for good. */
  lemma HalfCloseIffNotMissed(run: seq<State>, es: seq<Event>)
    requires IsRun(Enabled, Step, Init, run, es)
    ensures
      var s := run[|es|];
      && (s.finishedSending && s.canSend ==> (SendClose in s.call.used <==> !Missed(run, es, |es|)))
      && (Missed(run, es, |es|) ==> s.finishedSending && s.canSend)
  {
    EndingAlong(run, es, |es|);
  }

  // Write completions a session with a write in flight still waits for.
  function Remaining(s: State): nat {
    if s.canSend then 0 else |s.pending| + 1
  }

  // The stream has ended and the handshake is over; idle means that the half-close was started.
  predicate Draining(s: State) {
    s.finishedSending && HANDSHAKE !in s.call.live && (s.canSend <==> s.endSent)
  }

  lemma SourceDrains(s: State, e: Event)
    requires Sending(s) && Draining(s) && Enabled(s, e) && !e.Done?
    ensures Draining(Step(s, e)) && Remaining(Step(s, e)) == Remaining(s)
  {
  }

  lemma WriteDrains(s: State, st: Status)
    requires Sending(s) && Draining(s) && WRITE in s.call.live
    ensures Draining(OnDone(s, WRITE, st)) && Remaining(OnDone(s, WRITE, st)) + 1 == Remaining(s)
  {
    hide Accepts, OnDone;
    WriteIs(s, st);
  }

  lemma HalfCloseDrains(s: State, st: Status)
    requires Sending(s) && Draining(s) && HALF_CLOSE in s.call.live
    ensures Draining(OnDone(s, HALF_CLOSE, st)) && Remaining(OnDone(s, HALF_CLOSE, st)) == Remaining(s)
  {
    hide Accepts, OnDone;
    HalfCloseIs(s, st);
  }

  lemma StatusDrains(s: State, st: Status)
    requires Draining(s)
    ensures Draining(OnDone(s, STATUS, st)) && Remaining(OnDone(s, STATUS, st)) == Remaining(s)
  {
    hide Accepts;
  }

  lemma ReadDrains(s: State, st: Status)
    requires Draining(s)
    ensures Draining(OnDone(s, READ, st)) && Remaining(OnDone(s, READ, st)) == Remaining(s)
  {
    hide Accepts, OnDone;
    ReadIs(s, st);
  }

  lemma Drains(s: State, e: Event)
    requires Sending(s) && Draining(s) && Enabled(s, e)
    ensures Draining(Step(s, e))
    ensures Remaining(Step(s, e)) + (if EndsWrite(e) then 1 else 0) == Remaining(s)
  {
    hide Exec, Start;
    if !e.Done? { SourceDrains(s, e); }
    else if e.b == WRITE { WriteDrains(s, e.st); }
    else if e.b == HALF_CLOSE { HalfCloseDrains(s, e.st); }
    else if e.b == STATUS { StatusDrains(s, e.st); }
    else { ReadDrains(s, e.st); }
  }

  lemma {:induction false} CountDown(s: State, run: seq<State>, es: seq<Event>, n: nat)
    requires Inv(s) && s.finishedSending && WRITE in s.call.live && IsRun(Enabled, Step, s, run, es) && n <= |es|
    ensures Inv(run[n]) && Draining(run[n])
    ensures Remaining(run[n]) + Writes(es, n) == Remaining(s)
  {
    hide Step, Enabled;
    if n > 0 {
      CountDown(s, run, es, n - 1);
      InvKept(run[n - 1], es[n - 1]);
      Drains(run[n - 1], es[n - 1]);
    }
  }

  /** Once the stream has ended with k messages queued behind a write in flight, the half-close is
      started by exactly the (k + 1)-th write completion, whatever is received meanwhile. */
  lemma ExactHalfClose(s: State, run: seq<State>, es: seq<Event>)
    requires Inv(s) && s.finishedSending && WRITE in s.call.live && IsRun(Enabled, Step, s, run, es)
    ensures
      var n := |s.pending| + 1;
      Writes(es, |es|) <= n && (SendClose in run[|es|].call.used <==> Writes(es, |es|) == n)
  {
    CountDown(s, run, es, |es|);
  }

  // ---- termination

  /** How many more events core has at most for a session whose stream is over and that is sent
      `total` messages. */
  function Left(s: State, total: nat): int {
    |s.pending| + One(HANDSHAKE in s.call.live) + One(WRITE in s.call.live)
    + One(!s.endSent || HALF_CLOSE in s.call.live)
    + Reading(s.finishedReceiving, total - |s.rep.items|, s.call.received)
    + One(!s.deleted)
  }

  lemma LeftLowers(s: State, e: Event, total: nat)
    requires Sending(s) && Receiving(s) && s.finishedSending && Enabled(s, e)
    requires |s.rep.items| + |Slot(s.recvBuffer)| <= total
    ensures Left(Step(s, e), total) < Left(s, total)
  {
    if e.Done? {
      if e.b == HANDSHAKE { HandshakeLowers(s, e.st, total); }
      else if e.b == WRITE { WriteLowers(s, e.st, total); }
      else if e.b == HALF_CLOSE { HalfCloseLowers(s, e.st, total); }
      else if e.b == READ { ReadLowers(s, e.st, total); }
      else { StatusLowers(s, e.st, total); }
    }
  }

  lemma SourceOver(s: State, e: Event)
    requires Sending(s) && s.finishedSending && Enabled(s, e)
    ensures Step(s, e).req == s.req
  {
    hide Start, Completed, Received, Exec;
    if e.Done? { ExecGrows(Retired(s, e.b, e.st), e.b.flags); }
  }

  lemma HandshakeLowers(s: State, st: Status, total: nat)
    requires Sending(s) && Receiving(s) && s.finishedSending && HANDSHAKE in s.call.live
    ensures Left(OnDone(s, HANDSHAKE, st), total) < Left(s, total)
  {
    hide OnDone;
    HandshakeIs(s, st);
  }

  lemma WriteLowers(s: State, st: Status, total: nat)
    requires Sending(s) && Receiving(s) && s.finishedSending && WRITE in s.call.live
    ensures Left(OnDone(s, WRITE, st), total) < Left(s, total)
  {
    hide OnDone;
    WriteIs(s, st);
  }

  lemma HalfCloseLowers(s: State, st: Status, total: nat)
    requires Sending(s) && Receiving(s) && HALF_CLOSE in s.call.live
    ensures Left(OnDone(s, HALF_CLOSE, st), total) < Left(s, total)
  {
    hide OnDone;
    HalfCloseIs(s, st);
  }

  lemma ReadLowers(s: State, st: Status, total: nat)
    requires Sending(s) && Receiving(s) && s.finishedSending && CanComplete(s.call, READ)
    requires |s.rep.items| + |Slot(s.recvBuffer)| <= total
    ensures Left(OnDone(s, READ, st), total) < Left(s, total)
  {
    hide OnDone;
    ReadIs(s, st);
  }

  lemma StatusLowers(s: State, st: Status, total: nat)
    requires Sending(s) && Receiving(s) && STATUS in s.call.live
    ensures Left(OnDone(s, STATUS, st), total) < Left(s, total)
  {
  }

  // A null payload that races the half-close leaves both the half-close and a status request outstanding.
  lemma RaceStarts(s: State, st: Status)
    requires Inv(s) && Closing(s, false) && CanComplete(s.call, READ) && Races(s, Done(READ, st))
    ensures HALF_CLOSE in OnDone(s, READ, st).call.live && STATUS in OnDone(s, READ, st).call.live
  {
    hide OnDone;
    ReadIs(s, st);
  }

  // ---- what the events say

  lemma EventRecorded(s: State, e: Event)
    requires Sending(s) && Receiving(s) && Enabled(s, e)
    ensures
      var t := Step(s, e);
      && t.req.items == s.req.items + (if e.Push? then [e.m] else [])
      && t.req.end == (if e.End? then Some(e.t) else s.req.end)
      && Arrived(In(t)) == Arrived(In(s)) + (if e.Recv? then Slot(e.v) else [])
  {
    hide Start, Exec;
    if e.Done? { ExecGrows(Retired(s, e.b, e.st), e.b.flags); }
    if !e.Recv? { InboxPasses(s, e); }
  }

  /** The streams follow the events: what was pushed and how it ended, and, whatever core writes,
      what was delivered or still is in the receive buffer, in order.  The call is cancelled exactly
      when the request stream ended with a failure. */
  lemma {:induction false} FollowsEvents(run: seq<State>, es: seq<Event>, n: nat)
    requires IsRun(Enabled, Step, Init, run, es) && n <= |es|
    ensures
      var s := run[n];
      && s.req.items == Pushed(es, n) && s.req.end == Ended(es, n)
      && s.rep.items + Slot(s.recvBuffer) == Written(es, n)
      && (s.cancelled <==> Ended(es, n).Some? && Ended(es, n).value.Failure?)
  {
    hide Step, Enabled;
    if n > 0 {
      FollowsEvents(run, es, n - 1);
      ClosingAlong(run, es, n - 1);
      ClosingAlong(run, es, n);
      EventRecorded(run[n - 1], es[n - 1]);
    }
  }

  /** The status that core delivers decides how the promise ends, in the same step. */
  lemma PromiseEndsAsCoreSays(run: seq<State>, es: seq<Event>, i: nat, st: Status)
    requires IsRun(Enabled, Step, Init, run, es) && i < |es| && es[i] == Done(STATUS, st)
    ensures run[i + 1].deleted && run[i + 1].rep.end == Some(if st == Ok then Complete else Failure(st))
    ensures run[i + 1].rep.items == run[i].rep.items == Written(es, i)
  {
    FollowsEvents(run, es, i);
    FollowsEvents(run, es, i + 1);
    ClosingAlong(run, es, i);
    ClosingAlong(run, es, i + 1);
    StatusIs(run[i], es[i]);
  }
}
