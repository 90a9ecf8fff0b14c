/** A whole client-streaming call: the client session, the two lanes of core, and the handler. */
module ClientStreamingCall {
  import opened GrpcCall
  import opened Runs
  import Client = ClientStreamingSession
  import Server = ClientStreamingHandler

  datatype Sys = Sys(client: Client.State, server: Server.State)

  const Init := Sys(Client.Init, Server.Init)

  datatype SysEvent = AtClient(e: Event) | AtServer(e: Event)

  // Core delivers what the other side sent, in order, and the status the handler sent.
  predicate Enabled(s: Sys, x: SysEvent) {
    match x
    case AtClient(e) =>
      && Client.Enabled(s.client, e)
      && (e.Recv? ==> LaneGives(s.server.call, s.client.call, e.v))
      && (e.Done? && Has(e.b, RecvStatus) ==> s.server.call.status == Some(e.st))
    case AtServer(e) =>
      && Server.Enabled(s.server, e)
      && (e.Recv? ==> LaneGives(s.client.call, s.server.call, e.v))
  }

  function Step(s: Sys, x: SysEvent): Sys {
    match x
    case AtClient(e) => s.(client := Client.Step(s.client, e))
    case AtServer(e) => s.(server := Server.Step(s.server, e))
  }

  // Everything the handler took off the lane is delivered or in its payload slot, and the null
  // payload means that the lane is closed and exhausted.
  ghost predicate RequestLane(s: Sys) {
    && s.server.call.taken <= |s.client.call.sent|
    && s.server.reader.items + Slot(s.server.payload) == s.client.call.sent[..s.server.call.taken]
    && (s.server.call.received && s.server.payload.None? ==>
          Closed(s.client.call) && s.server.call.taken == |s.client.call.sent|)
  }

  // How the client's promise must be resolved, given what the callback answered.
  function Expected(r: Server.Result): Client.Outcome {
    match r
    case Value(m) => Client.Answer(Some(m))
    case Exception(st) => if st == Ok then Client.Answer(None) else Client.Refusal(st)
  }

  // The end batch of the client reads the one reply, or null once the status closed the lane.
  ghost predicate ReplyLane(s: Sys) {
    && (s.client.call.received ==>
          && s.client.endSent && s.server.answer.Some?
          && s.client.recvBuffer == if s.server.answer.value.Value? then Some(s.server.answer.value.m) else None)
    && (!s.client.call.received ==> s.client.call.taken == 0)
    && (s.client.deleted ==>
          s.server.answer.Some? && s.client.rep.outcome == Some(Expected(s.server.answer.value)))
  }

  ghost predicate Inv(s: Sys) {
    && Client.Inv(s.client) && Server.Inv(s.server)
    && RequestLane(s) && ReplyLane(s)
  }

  lemma ClientStepKeeps(s: Sys, e: Event)
    requires Inv(s) && Enabled(s, AtClient(e))
    ensures Inv(Step(s, AtClient(e)))
  {
    Client.InvKept(s.client, e);
  }

  lemma ServerStepKeeps(s: Sys, e: Event)
    requires Inv(s) && Enabled(s, AtServer(e))
    ensures Inv(Step(s, AtServer(e)))
  {
    Server.InvKept(s.server, e);
  }

  lemma InvKept(s: Sys, x: SysEvent)
    requires Inv(s) && Enabled(s, x)
    ensures Inv(Step(s, x))
  {
    match x
    case AtClient(e) => ClientStepKeeps(s, e);
    case AtServer(e) => ServerStepKeeps(s, e);
  }

  lemma InvAlways(run: seq<Sys>, es: seq<SysEvent>, n: nat)
    requires IsRun(Enabled, Step, Init, run, es) && n <= |es|
    ensures Inv(run[n])
  {
    Client.InvInit();
    Server.InvInit();
    forall s, x | Inv(s) && Enabled(s, x) ensures Inv(Step(s, x)) { InvKept(s, x); }
    Invariance(Enabled, Step, Inv, Init, run, es, n);
  }

  /** In every interleaving each pushed message is in exactly one place: delivered to the callback,
      in the payload slot, on the lane, or still queued, and the places are in push order. */
  lemma Conservation(run: seq<Sys>, es: seq<SysEvent>)
    requires IsRun(Enabled, Step, Init, run, es)
    ensures
      var s := run[|es|];
      && s.server.call.taken <= |s.client.call.sent|
      && s.client.req.items ==
           s.server.reader.items + Slot(s.server.payload)
           + s.client.call.sent[s.server.call.taken..] + Client.Payloads(s.client.pending)
  {
    InvAlways(run, es, |es|);
    var s := run[|es|];
  }

  /** When the reader promise is completed, the callback has seen exactly the pushed sequence, the
      client's stream is over, and the promise was used correctly. */
  lemma CompleteMeansAll(run: seq<Sys>, es: seq<SysEvent>)
    requires IsRun(Enabled, Step, Init, run, es)
    ensures
      var s := run[|es|];
      && s.server.reader.valid
      && s.server.reader.items <= s.client.req.items
      && (s.server.reader.end.Some? ==>
            && s.server.reader.end.value == Complete
            && s.client.req.end.Some?
            && s.server.reader.items == s.client.req.items)
  {
    InvAlways(run, es, |es|);
    Conservation(run, es);
  }

  /** The client's future is resolved once, as the callback answered, and not before it did. */
  lemma ReplyIsTheAnswer(run: seq<Sys>, es: seq<SysEvent>)
    requires IsRun(Enabled, Step, Init, run, es)
    ensures
      var s := run[|es|];
      && s.client.rep.valid
      && (s.client.rep.outcome.Some? ==>
            && s.server.answer.Some?
            && s.client.rep.outcome.value == Expected(s.server.answer.value)
            && s.client.req.end.Some?)
  {
    InvAlways(run, es, |es|);
  }

  /** No call is ever refused a batch on either side. */
  lemma NoBatchRefused(run: seq<Sys>, es: seq<SysEvent>)
    requires IsRun(Enabled, Step, Init, run, es)
    ensures run[|es|].client.call.ok && run[|es|].server.call.ok
  {
    InvAlways(run, es, |es|);
  }

  // The core event that moves the client on.
  function NextForClient(s: Sys): Event {
    if Client.HANDSHAKE in s.client.call.live then Done(Client.HANDSHAKE, Ok)
    else if Client.WRITE in s.client.call.live then Done(Client.WRITE, Ok)
    else if s.client.call.received && s.server.call.status.Some? then Done(Client.END, s.server.call.status.value)
    else Recv(if s.server.call.sent == [] then None else Some(s.server.call.sent[0]))
  }

  lemma ClientMoves(s: Sys)
    requires Inv(s) && s.client.finished && s.server.answer.Some? && !s.client.deleted
    ensures Enabled(s, AtClient(NextForClient(s)))
  {
  }

  // The core event that moves the reading half of the handler on.
  function NextForReader(s: Sys): Event {
    var c := s.server.call;
    if c.received then
      Done(if Server.READ in c.live then Server.READ else Server.OPEN_READ, Ok)
    else
      Recv(if c.taken < |s.client.call.sent| then Some(s.client.call.sent[c.taken]) else None)
  }

  lemma ReaderMoves(s: Sys)
    requires Inv(s) && s.client.endSent && s.server.reader.end.None? && !s.server.deleted
    ensures Enabled(s, AtServer(NextForReader(s)))
  {
  }

  // Core has nothing left to do.
  ghost predicate Quiet(s: Sys) { forall x: SysEvent | x.e.Recv? || x.e.Done? :: !Enabled(s, x) }

  /** No deadlock: when core has nothing left to do after the end of the request stream, everything
      pushed was delivered and the reader is complete, unless the callback has answered; and once it
      has, both ends are deleted. */
  lemma QuietMeansOver(run: seq<Sys>, es: seq<SysEvent>)
    requires IsRun(Enabled, Step, Init, run, es) && run[|es|].client.req.end.Some? && Quiet(run[|es|])
    ensures
      var s := run[|es|];
      && (s.server.answer.None? ==> s.server.reader.end.Some? && s.server.reader.items == s.client.req.items)
      && (s.server.answer.Some? ==> s.client.deleted && s.server.deleted)
  {
    InvAlways(run, es, |es|);
    CompleteMeansAll(run, es);
    var s := run[|es|];
    if s.server.answer.Some? {
      if !s.client.deleted { ClientMoves(s); }
      if !s.server.deleted { ClosingMoves(s); }
    } else {
      if !s.client.endSent { SenderMoves(s); }
      if s.server.reader.end.None? { ReaderMoves(s); }
    }
  }

  lemma SenderMoves(s: Sys)
    requires Inv(s) && s.client.finished && !s.client.endSent
    ensures Enabled(s, AtClient(Done(Client.HANDSHAKE, Ok))) || Enabled(s, AtClient(Done(Client.WRITE, Ok)))
  {
  }

  lemma ClosingMoves(s: Sys)
    requires Inv(s) && s.server.answer.Some? && !s.server.deleted
    ensures Enabled(s, AtServer(Done(Server.REPLY, Ok))) || Enabled(s, AtServer(Done(Server.FAREWELL, Ok)))
  {
  }

  // How many more events core has at most for the client whose stream is over, and for the handler.
  function LeftAtClient(s: Sys): int {
    if s.client.deleted then 0
    else Client.Remaining(s.client) + if s.client.call.received then 0 else 1
  }

  function LeftAtServer(s: Sys): int {
    if s.server.deleted then 0
    else 1 + Reading(s.server.reader.end.Some?, |s.client.req.items| - |s.server.reader.items|, s.server.call.received)
  }

  lemma ClientLowers(s: Sys, e: Event)
    requires Inv(s) && s.client.finished && s.server.answer.Some? && Enabled(s, AtClient(e))
    ensures
      var t := Step(s, AtClient(e));
      t.client.finished && LeftAtClient(t) == LeftAtClient(s) - 1 && LeftAtServer(t) == LeftAtServer(s)
  {
    Client.CountStep(s.client, e);
  }

  lemma ServerLowers(s: Sys, e: Event)
    requires Inv(s) && s.client.finished && s.server.answer.Some? && Enabled(s, AtServer(e))
    ensures
      var t := Step(s, AtServer(e));
      t.server.answer.Some? && LeftAtClient(t) == LeftAtClient(s) && LeftAtServer(t) < LeftAtServer(s)
  {
  }

  lemma LeftIsNatural(s: Sys)
    requires Inv(s)
    ensures LeftAtClient(s) >= 0 && LeftAtServer(s) >= 0
  {
  }

  lemma {:induction false} LeftAlong(run: seq<Sys>, es: seq<SysEvent>, n: nat, m: nat)
    requires IsRun(Enabled, Step, Init, run, es) && n <= m <= |es|
    requires run[n].client.finished && run[n].server.answer.Some?
    ensures run[m].client.finished && run[m].server.answer.Some?
    ensures m - n + LeftAtClient(run[m]) + LeftAtServer(run[m]) <= LeftAtClient(run[n]) + LeftAtServer(run[n])
    decreases m
  {
    hide Enabled, LeftAtClient, LeftAtServer, Inv, Client.Step, Server.Step;
    if n < m {
      LeftAlong(run, es, n, m - 1);
      InvAlways(run, es, m - 1);
      match es[m - 1]
      case AtClient(e) => ClientLowers(run[m - 1], e);
      case AtServer(e) => ServerLowers(run[m - 1], e);
    }
  }

  /** Every call ends: once the request stream is over and the callback has answered, core has at
      most `LeftAtClient` and `LeftAtServer` events more, in whatever order it takes them, and has
      none left exactly when both ends are deleted. */
  lemma EveryCallEnds(run: seq<Sys>, es: seq<SysEvent>, n: nat)
    requires IsRun(Enabled, Step, Init, run, es) && n <= |es|
    requires run[n].client.req.end.Some? && run[n].server.answer.Some?
    ensures |es| - n <= LeftAtClient(run[n]) + LeftAtServer(run[n])
    ensures Quiet(run[|es|]) <==> run[|es|].client.deleted && run[|es|].server.deleted
  {
    InvAlways(run, es, n);
    InvAlways(run, es, |es|);
    LeftAlong(run, es, n, |es|);
    LeftIsNatural(run[|es|]);
    if Quiet(run[|es|]) { QuietMeansOver(run, es); }
  }

  // ---- a request stream that fails

  // The same with a stream that ended normally, if it ended.
  function Smoothed(s: Sys): Sys {
    if s.client.req.end.None? then s
    else s.(client := s.client.(req := s.client.req.(end := Some(Complete))))
  }

  function Smooth(x: SysEvent): SysEvent {
    if x.AtClient? && x.e.End? then AtClient(End(Complete)) else x
  }

  lemma SmoothDone(s: Sys, b: Batch, st: Status)
    ensures Step(Smoothed(s), AtClient(Done(b, st))) == Smoothed(Step(s, AtClient(Done(b, st))))
  {
    hide Client.OnDone;
    Client.DoneIgnoresStream(s.client, s.client.req, b, st);
    Client.DoneIgnoresStream(s.client, s.client.req.(end := Some(Complete)), b, st);
  }

  lemma SmoothStep(s: Sys, x: SysEvent)
    requires Enabled(s, x)
    ensures Enabled(Smoothed(s), Smooth(x)) && Step(Smoothed(s), Smooth(x)) == Smoothed(Step(s, x))
  {
    hide Start, Client.OnDone;
    if x.AtClient? && x.e.Done? { SmoothDone(s, x.e.b, x.e.st); }
  }

  /** The handler cannot tell how the request stream ended: in every run, putting a normal end in the
      place of a failure gives a run that differs in nothing but the end of the stream itself. */
  lemma HandlerCannotTell(run: seq<Sys>, es: seq<SysEvent>)
    requires IsRun(Enabled, Step, Init, run, es)
    ensures IsRun(Enabled, Step, Init, seq(|run|, i requires 0 <= i < |run| => Smoothed(run[i])),
                  seq(|es|, i requires 0 <= i < |es| => Smooth(es[i])))
  {
    hide Enabled, Step;
    forall i | 0 <= i < |es|
      ensures Enabled(Smoothed(run[i]), Smooth(es[i])) && Smoothed(run[i + 1]) == Step(Smoothed(run[i]), Smooth(es[i]))
    {
      assert Enabled(run[i], es[i]) && run[i + 1] == Step(run[i], es[i]);
      SmoothStep(run[i], es[i]);
    }
  }

  /** In particular a failed request stream is delivered as complete: if core has nothing left to do
      before the callback answers, its reader has been completed with everything pushed. */
  lemma FailedRequestLooksComplete(run: seq<Sys>, es: seq<SysEvent>, st: Status)
    requires IsRun(Enabled, Step, Init, run, es) && run[|es|].client.req.end == Some(Failure(st))
    requires Quiet(run[|es|]) && run[|es|].server.answer.None?
    ensures run[|es|].server.reader.end == Some(Complete)
    ensures run[|es|].server.reader.items == run[|es|].client.req.items
  {
    QuietMeansOver(run, es);
    CompleteMeansAll(run, es);
  }
}
