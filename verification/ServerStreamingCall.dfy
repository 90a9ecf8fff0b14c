/** A whole server-streaming call: the client session, the reply lane of core, and the handler. */
module ServerStreamingCall {
  import opened GrpcCall
  import opened Runs
  import Client = StreamingSession
  import Server = ServerStreamingHandler

  datatype Sys = Sys(client: Client.State, server: Server.State)

  // The handler is given the one message on the client's lane.
  function Init(request: Message): Sys {
    var client := Client.Init(request);
    Sys(client, Server.Init(client.call.sent[0]))
  }

  datatype SysEvent = AtClient(e: Event) | AtServer(e: Event)

  predicate Enabled(s: Sys, x: SysEvent) {
    match x
    case AtClient(e) =>
      && Client.Enabled(s.client, e)
      && (e.Recv? ==> LaneGives(s.server.call, s.client.call, e.v))
      && (e.Done? && Has(e.b, RecvStatus) ==> s.server.call.status == Some(e.st))
    case AtServer(e) => Server.Enabled(s.server, e)
  }

  function Step(s: Sys, x: SysEvent): Sys {
    match x
    case AtClient(e) => s.(client := Client.Step(s.client, e))
    case AtServer(e) => s.(server := Server.Step(s.server, e))
  }

  ghost predicate ReplyLane(s: Sys) {
    && s.client.call.taken <= |s.server.call.sent|
    && s.client.reply.items + Slot(s.client.recvBuffer) == s.server.call.sent[..s.client.call.taken]
    && (s.client.call.received && s.client.recvBuffer.None? ==>
          Closed(s.server.call) && s.client.call.taken == |s.server.call.sent|)
    && (s.client.deleted ==> s.client.status == Ok)
  }

  ghost predicate Inv(s: Sys) { Client.Inv(s.client) && Server.Inv(s.server) && ReplyLane(s) }

  lemma InvKept(s: Sys, x: SysEvent)
    requires Inv(s) && Enabled(s, x)
    ensures Inv(Step(s, x))
  {
    match x
    case AtClient(e) => Client.InvKept(s.client, e);
    case AtServer(e) => Server.InvKept(s.server, e);
  }

  lemma InvAlways(request: Message, run: seq<Sys>, es: seq<SysEvent>, n: nat)
    requires IsRun(Enabled, Step, Init(request), run, es) && n <= |es|
    ensures Inv(run[n])
  {
    Client.InvInit(request);
    Server.InvInit(request);
    forall s, x | Inv(s) && Enabled(s, x) ensures Inv(Step(s, x)) { InvKept(s, x); }
    Invariance(Enabled, Step, Inv, Init(request), run, es, n);
  }

  /** The one message the client ever sends is the request, and the handler's callback was called
      with it. */
  lemma HandlerGetsTheRequest(request: Message, run: seq<Sys>, es: seq<SysEvent>)
    requires IsRun(Enabled, Step, Init(request), run, es)
    ensures run[|es|].client.call.sent == [request] && run[|es|].server.request == request
  {
    var inv := (s: Sys) => s.client.call.sent == [request] && s.server.request == request;
    Sent(request);
    forall s, x | inv(s) && Enabled(s, x) ensures inv(Step(s, x)) { RequestKept(s, x); }
    Invariance(Enabled, Step, inv, Init(request), run, es, |es|);
  }

  lemma RequestKept(s: Sys, x: SysEvent)
    ensures Step(s, x).client.call.sent == s.client.call.sent && Step(s, x).server.request == s.server.request
  {
    hide Accepts;
  }

  lemma Sent(request: Message)
    ensures Client.Init(request).call.sent == [request]
  {
  }

  /** In every interleaving each message pushed by the handler is delivered to the client, in its
      receive buffer, on the lane, or queued, in push order. */
  lemma Conservation(request: Message, run: seq<Sys>, es: seq<SysEvent>)
    requires IsRun(Enabled, Step, Init(request), run, es)
    ensures
      var s := run[|es|];
      && s.client.call.taken <= |s.server.call.sent|
      && s.server.reply.items ==
           s.client.reply.items + Slot(s.client.recvBuffer)
           + s.server.call.sent[s.client.call.taken..] + s.server.pending
  {
    InvAlways(request, run, es, |es|);
  }

  /** The client receives a prefix of the handler's pushes; when its promise ends, it ends once, as
      complete, after exactly all of them, and the handler's stream is over. */
  lemma ClientReceivesExactlyThePushes(request: Message, run: seq<Sys>, es: seq<SysEvent>)
    requires IsRun(Enabled, Step, Init(request), run, es)
    ensures
      var s := run[|es|];
      && s.client.reply.valid
      && s.client.reply.items <= s.server.reply.items
      && (s.client.reply.end.Some? ==>
            && s.client.reply.end.value == Complete
            && s.server.reply.end == Some(Complete)
            && s.client.reply.items == s.server.reply.items)
  {
    InvAlways(request, run, es, |es|);
    Conservation(request, run, es);
  }

  // The core event that moves the client on.
  function NextForClient(s: Sys): Event {
    var c := s.client.call;
    if s.client.finishing then Done(Client.END, if s.server.call.status.Some? then s.server.call.status.value else Ok)
    else if c.received then Done(if Client.OPEN in c.live then Client.OPEN else Client.READ, Ok)
    else Recv(if c.taken < |s.server.call.sent| then Some(s.server.call.sent[c.taken]) else None)
  }

  lemma ClientMoves(s: Sys)
    requires Inv(s) && s.server.call.status.Some? && !s.client.deleted
    ensures Enabled(s, AtClient(NextForClient(s)))
  {
  }

  // The core event that moves the handler on.
  function NextForServer(s: Sys): Event {
    var live := s.server.call.live;
    Done(if Server.HANDSHAKE in live then Server.HANDSHAKE
         else if Server.WRITE in live then Server.WRITE else Server.FAREWELL, Ok)
  }

  lemma ServerMoves(s: Sys)
    requires Inv(s) && s.server.finished && !s.server.deleted
    ensures Enabled(s, AtServer(NextForServer(s)))
  {
  }

  // Core has nothing left to do.
  ghost predicate Quiet(s: Sys) { forall x: SysEvent | x.e.Recv? || x.e.Done? :: !Enabled(s, x) }

  // How many more events core has for a call whose reply stream is over.
  function Left(s: Sys): int {
    Server.Remaining(s.server)
    + Reading(s.client.finishing, |s.server.reply.items| - |s.client.reply.items|, s.client.call.received)
    + if s.client.deleted then 0 else 1
  }

  lemma LeftAtClient(s: Sys, e: Event)
    requires Inv(s) && s.server.finished && Enabled(s, AtClient(e))
    ensures Left(Step(s, AtClient(e))) == Left(s) - 1
  {
  }

  lemma LeftAtServer(s: Sys, e: Event)
    requires Inv(s) && s.server.finished && Enabled(s, AtServer(e))
    ensures Left(Step(s, AtServer(e))) == Left(s) - 1
    ensures Server.Step(s.server, e).finished
  {
    Server.CountStep(s.server, e);
  }

  lemma {:induction false} LeftAlong(request: Message, run: seq<Sys>, es: seq<SysEvent>, n: nat, m: nat)
    requires IsRun(Enabled, Step, Init(request), run, es) && n <= m <= |es| && run[n].server.finished
    ensures run[m].server.finished && m - n + Left(run[m]) == Left(run[n])
    decreases m
  {
    hide Enabled, Left, Inv;
    if n < m {
      LeftAlong(request, run, es, n, m - 1);
      InvAlways(request, run, es, m - 1);
      match es[m - 1]
      case AtClient(e) => LeftAtClient(run[m - 1], e);
      case AtServer(e) => LeftAtServer(run[m - 1], e);
    }
  }

  lemma QuietMeansOver(s: Sys)
    requires Inv(s) && s.server.finished
    ensures Left(s) >= 0
    ensures Quiet(s) <==> Left(s) == 0
    ensures Quiet(s) <==> s.client.deleted && s.server.deleted
  {
    if Quiet(s) {
      if !s.server.deleted { ServerMoves(s); }
      if !s.client.deleted { ClientMoves(s); }
    }
  }

  /** Every call ends: once the handler's stream is over, core has work until both ends are deleted,
      and in whatever order it does it, that takes exactly `Left` events. */
  lemma EveryCallEnds(request: Message, run: seq<Sys>, es: seq<SysEvent>, n: nat)
    requires IsRun(Enabled, Step, Init(request), run, es) && n <= |es| && run[n].server.reply.end.Some?
    ensures |es| - n <= Left(run[n])
    ensures Quiet(run[|es|]) <==> |es| - n == Left(run[n])
    ensures Quiet(run[|es|]) <==> run[|es|].client.deleted && run[|es|].server.deleted
  {
    InvAlways(request, run, es, n);
    InvAlways(request, run, es, |es|);
    LeftAlong(request, run, es, n, |es|);
    QuietMeansOver(run[|es|]);
  }

  // What stays true after the handler failed with `sent` handed to core.
  ghost predicate Failed(s: Sys, sent: seq<Message>) {
    Client.Inv(s.client) && ReplyLane(s) && Server.Truncated(s.server, sent)
  }

  lemma FailedKept(s: Sys, x: SysEvent, sent: seq<Message>)
    requires Failed(s, sent) && Enabled(s, x)
    ensures Failed(Step(s, x), sent)
  {
    match x
    case AtClient(e) => Client.InvKept(s.client, e);
    case AtServer(e) => Server.TruncatedKept(s.server, e, sent);
  }

  lemma FailedAlong(s: Sys, sent: seq<Message>, run: seq<Sys>, es: seq<SysEvent>)
    requires Failed(s, sent) && IsRun(Enabled, Step, s, run, es)
    ensures Failed(run[|es|], sent)
  {
    var inv := (t: Sys) => Failed(t, sent);
    forall t, x | inv(t) && Enabled(t, x) ensures inv(Step(t, x)) { FailedKept(t, x, sent); }
    Invariance(Enabled, Step, inv, s, run, es, |es|);
  }

  function AfterFailure(s: Sys, st: Status): Sys { s.(server := Server.Fail(s.server, st)) }

  lemma FailedMeans(s: Sys, sent: seq<Message>)
    requires Failed(s, sent) && s.client.reply.end.Some?
    ensures s.client.reply.end.value == Complete && s.client.reply.items == sent
  {
  }

  /** If the handler's stream ends with an exception instead, in every continuation the client still
      sees a complete stream: exactly the messages handed to core before the failure, which are all
      the pushed ones only if nothing was queued. */
  lemma FailedStreamLooksComplete(s: Sys, st: Status, run: seq<Sys>, more: seq<SysEvent>)
    requires Inv(s) && s.server.reply.end.None?
    requires IsRun(Enabled, Step, AfterFailure(s, st), run, more)
    ensures
      var t := run[|more|];
      t.client.reply.end.Some? ==>
        && t.client.reply.end.value == Complete
        && t.client.reply.items == s.server.call.sent
        && (t.client.reply.items == s.server.reply.items <==> s.server.pending == [])
  {
    FailedAlong(AfterFailure(s, st), s.server.call.sent, run, more);
    var t := run[|more|];
    if t.client.reply.end.Some? {
      FailedMeans(t, s.server.call.sent);
    }
  }
}
