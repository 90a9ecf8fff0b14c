/** A whole bidirectional call: the client session, the two lanes of core, and the handler. */
module BidirCall {
  import opened GrpcCall
  import opened Runs
  import Client = BidirSession
  import Server = BidirHandler

  datatype Sys = Sys(client: Client.State, server: Server.State)

  // The callback's reply stream may already hold messages when the handler is performed.
  function Init(early: seq<Message>, over: bool): Sys { Sys(Client.Init, Server.Performed(early, over)) }

  datatype SysEvent = AtClient(e: Event) | AtServer(e: Event)

  predicate Enabled(s: Sys, x: SysEvent) {
    match x
    case AtClient(e) =>
      && Client.Enabled(s.client, e)
      && (e.End? ==> e.t.Complete?)   // a failure would cancel the call
      && (e.Recv? ==> LaneGives(s.server.call, s.client.call, e.v))
      && (e.Done? && Has(e.b, RecvStatus) ==> s.server.call.status == Some(e.st))
    case AtServer(e) =>
      && Server.Enabled(s.server, e)
      && (e.Recv? ==> LaneGives(s.client.call, s.server.call, e.v))
  }

  function Step(s: Sys, x: SysEvent): Sys {
    match x
    case AtClient(e) => s.(client := Client.Step(s.client, e))
    case AtServer(e) => s.(server := Server.Step(s.server, e))
  }

  // What a receiver has taken off the lane is delivered or in its payload slot, and a null payload
  // means that the lane is closed and exhausted.
  ghost predicate Lane(from: Call, to: Inbox) {
    && to.taken <= |from.sent|
    && Arrived(to) == from.sent[..to.taken]
    && (to.received && to.slot.None? ==> Closed(from) && to.taken == |from.sent|)
  }

  lemma LanePasses(from: Call, b: Inbox, c: Inbox)
    requires Lane(from, b) && Passes(b, c)
    ensures Lane(from, c)
  {
  }

  lemma LaneGrows(c: Call, d: Call, to: Inbox)
    requires Lane(c, to) && c.sent <= d.sent && (Closed(c) ==> Closed(d) && d.sent == c.sent)
    ensures Lane(d, to)
  {
  }

  // Core writes the slot of an idle receiver.
  lemma LaneDelivers(from: Call, to: Call, b: Inbox, v: Option<Message>)
    requires Lane(from, b) && b.taken == to.taken && b.slot.None? && LaneGives(from, to, v)
    ensures Lane(from, Inbox(b.delivered, v, true, Received(to, v).taken))
  {
  }

  ghost predicate Inv(s: Sys) {
    && Client.Inv(s.client) && Server.Inv(s.server)
    && Lane(s.client.call, Server.In(s.server))
    && Lane(s.server.call, Client.In(s.client))
    && (s.client.deleted ==> s.client.status == Ok)
  }

  lemma ClientReceives(s: Sys, e: Event)
    requires Client.Inv(s.client) && Lane(s.server.call, Client.In(s.client)) && Enabled(s, AtClient(e))
    ensures
      var t := Client.Step(s.client, e);
      Client.Inv(t) && Lane(s.server.call, Client.In(t))
  {
    var t := Client.Step(s.client, e);
    Client.InvKept(s.client, e);
    if e.Recv? {
      LaneDelivers(s.server.call, s.client.call, Client.In(s.client), e.v);
    } else {
      Client.InboxPasses(s.client, e);
      LanePasses(s.server.call, Client.In(s.client), Client.In(t));
    }
  }

  lemma ClientSends(s: Sys, e: Event)
    requires Inv(s) && Enabled(s, AtClient(e))
    ensures Lane(Client.Step(s.client, e).call, Server.In(s.server))
  {
    Client.OutboxGrows(s.client, e);
    LaneGrows(s.client.call, Client.Step(s.client, e).call, Server.In(s.server));
  }

  lemma ServerStepKeeps(s: Sys, e: Event)
    requires Inv(s) && Enabled(s, AtServer(e))
    ensures
      var t := Server.Step(s.server, e);
      Server.Inv(t) && Lane(t.call, Client.In(s.client)) && Lane(s.client.call, Server.In(t))
  {
    var t := Server.Step(s.server, e);
    Server.InvKept(s.server, e);
    Server.OutboxGrows(s.server, e);
    LaneGrows(s.server.call, t.call, Client.In(s.client));
    if e.Recv? {
      LaneDelivers(s.client.call, s.server.call, Server.In(s.server), e.v);
    } else {
      Server.InboxPasses(s.server, e);
      LanePasses(s.client.call, Server.In(s.server), Server.In(t));
    }
  }

  lemma StatusKept(s: Sys, e: Event)
    requires Client.Inv(s.client) && (s.client.deleted ==> s.client.status == Ok)
    requires Enabled(s, AtClient(e)) && (s.server.call.status.Some? ==> s.server.call.status.value == Ok)
    ensures Client.Step(s.client, e).deleted ==> Client.Step(s.client, e).status == Ok
  {
    hide Client.Step;
    Client.StatusIs(s.client, e);
  }

  lemma InvKept(s: Sys, x: SysEvent)
    requires Inv(s) && Enabled(s, x)
    ensures Inv(Step(s, x))
  {
    match x
    case AtClient(e) => ClientReceives(s, e); ClientSends(s, e); StatusKept(s, e);
    case AtServer(e) => ServerStepKeeps(s, e);
  }

  lemma InvAlways(early: seq<Message>, over: bool, run: seq<Sys>, es: seq<SysEvent>, n: nat)
    requires IsRun(Enabled, Step, Init(early, over), run, es) && n <= |es|
    ensures Inv(run[n])
  {
    Client.InvInit();
    Server.InvInit(early, over);
    forall s, x | Inv(s) && Enabled(s, x) ensures Inv(Step(s, x)) { InvKept(s, x); }
    Invariance(Enabled, Step, Inv, Init(early, over), run, es, n);
  }

  // ---- what holds of every run

  // Nothing is lost on the way, and a closed lane has nothing more coming.
  lemma Conserved(s: Sys)
    requires Inv(s)
    ensures s.client.req.items ==
              Arrived(Server.In(s.server)) + s.client.call.sent[s.server.call.taken..] + s.client.pending
    ensures s.server.reply.items ==
              Arrived(Client.In(s.client)) + s.server.call.sent[s.client.call.taken..] + s.server.pending
    ensures Closed(s.client.call) ==> s.client.req.end.Some? && s.client.pending == []
    ensures Closed(s.server.call) ==> s.server.reply.end.Some? && s.server.pending == []
  {
  }

  /** In every interleaving of pushes, stream ends and completions, what is delivered at each end is
      a prefix of what was pushed at the other, in both directions at once.  Each message not yet
      delivered is in the payload slot, on the lane or queued, in push order. */
  lemma DeliveredIsPrefixOfPushed(early: seq<Message>, over: bool, run: seq<Sys>, es: seq<SysEvent>)
    requires IsRun(Enabled, Step, Init(early, over), run, es)
    ensures
      var s := run[|es|];
      && s.server.reader.items <= s.client.req.items
      && s.client.rep.items <= s.server.reply.items
      && s.server.call.taken <= |s.client.call.sent| && s.client.call.taken <= |s.server.call.sent|
      && s.client.req.items ==
           Arrived(Server.In(s.server)) + s.client.call.sent[s.server.call.taken..] + s.client.pending
      && s.server.reply.items ==
           Arrived(Client.In(s.client)) + s.server.call.sent[s.client.call.taken..] + s.server.pending
  {
    InvAlways(early, over, run, es, |es|);
    Conserved(run[|es|]);
  }

  /** A receiver that has seen the null payload has delivered exactly what was pushed at the other
      end, whose stream is over; each promise ends at most once, as complete, and takes nothing
      afterwards. */
  lemma NullPayloadMeansAll(early: seq<Message>, over: bool, run: seq<Sys>, es: seq<SysEvent>)
    requires IsRun(Enabled, Step, Init(early, over), run, es)
    ensures
      var s := run[|es|];
      && (s.server.reader.end.Some? ==>
            s.client.req.end.Some? && s.server.reader.items == s.client.req.items)
      && (s.client.finishedReceiving ==>
            s.server.reply.end.Some? && s.client.rep.items == s.server.reply.items)
      && (s.client.rep.end.Some? ==>
            s.client.finishedReceiving && s.client.rep.end.value == Complete)
      && s.server.reader.valid && s.client.rep.valid
  {
    InvAlways(early, over, run, es, |es|);
    Conserved(run[|es|]);
  }

  // ---- progress

  // The client's handshake, among the first `n` events, completed after its stream had ended with
  // nothing queued.
  ghost predicate ClientMissed(run: seq<Sys>, es: seq<SysEvent>, n: nat)
    requires n <= |es| <= |run|
  {
    exists i {:trigger es[i]} | 0 <= i < n :: es[i].AtClient? && Client.Misses(run[i].client, es[i].e)
  }

  // The same for the handler.
  ghost predicate ServerMissed(run: seq<Sys>, es: seq<SysEvent>, n: nat)
    requires n <= |es| <= |run|
  {
    exists i {:trigger es[i]} | 0 <= i < n :: es[i].AtServer? && Server.Misses(run[i].server, es[i].e)
  }

  ghost predicate Going(s: Sys, clientMissed: bool, serverMissed: bool) {
    && Client.Ending(s.client, clientMissed) && Server.Ending(s.server, serverMissed)
    && (Client.Closing(s.client, false) || Client.Closing(s.client, true))
  }

  lemma GoingAtClient(s: Sys, e: Event, c: bool, d: bool)
    requires Inv(s) && Going(s, c, d) && Enabled(s, AtClient(e))
    ensures Going(Step(s, AtClient(e)), c || Client.Misses(s.client, e), d)
  {
    hide Server.Ending, Client.Ending, Client.Closing, Accepts;
    Client.EndingKept(s.client, e, c);
    if Client.Closing(s.client, true) { Client.ClosingKept(s.client, e, true); }
    else { Client.ClosingKept(s.client, e, false); }
  }

  lemma GoingAtServer(s: Sys, e: Event, c: bool, d: bool)
    requires Inv(s) && Going(s, c, d) && Enabled(s, AtServer(e))
    ensures Going(Step(s, AtServer(e)), c, d || Server.Misses(s.server, e))
  {
    hide Server.Ending, Client.Ending, Client.Closing, Accepts;
    Server.EndingKept(s.server, e, d);
  }

  lemma {:induction false} GoingAlong(early: seq<Message>, over: bool, run: seq<Sys>, es: seq<SysEvent>, n: nat)
    requires IsRun(Enabled, Step, Init(early, over), run, es) && n <= |es|
    ensures Going(run[n], ClientMissed(run, es, n), ServerMissed(run, es, n))
  {
    hide Step, Enabled, Client.Misses, Server.Misses, Going, Inv;
    if n == 0 {
      GoingInit(early, over);
    } else {
      var c, d := ClientMissed(run, es, n - 1), ServerMissed(run, es, n - 1);
      var s, x := run[n - 1], es[n - 1];
      GoingAlong(early, over, run, es, n - 1);
      InvAlways(early, over, run, es, n - 1);
      assert ClientMissed(run, es, n) <==> c || (x.AtClient? && Client.Misses(s.client, x.e));
      assert ServerMissed(run, es, n) <==> d || (x.AtServer? && Server.Misses(s.server, x.e));
      match x
      case AtClient(e) => GoingAtClient(s, e, c, d);
      case AtServer(e) => GoingAtServer(s, e, c, d);
    }
  }

  lemma GoingInit(early: seq<Message>, over: bool)
    ensures Going(Init(early, over), false, false)
  {
    Client.InvInit();
    Server.InvInit(early, over);
  }

  /** An end whose handshake completed after its stream was over, with nothing queued, never closes
      its half, and the other end waits for it for good: if it is the client, the handler's reader
      stays incomplete; if it is the handler, the client's promise stays open and no end is deleted. */
  lemma MissedEndHangsTheOther(early: seq<Message>, over: bool, run: seq<Sys>, es: seq<SysEvent>)
    requires IsRun(Enabled, Step, Init(early, over), run, es)
    ensures
      var s := run[|es|];
      && (ClientMissed(run, es, |es|) ==>
            SendClose !in s.client.call.used && s.server.reader.end.None? && !s.client.deleted)
      && (ServerMissed(run, es, |es|) ==>
            && SendStatus !in s.server.call.used && !s.client.finishedReceiving
            && s.client.rep.end.None? && !s.client.deleted && !s.server.deleted)
  {
    InvAlways(early, over, run, es, |es|);
    GoingAlong(early, over, run, es, |es|);
  }

  // Core has nothing left to do.
  ghost predicate Quiet(s: Sys) { forall x: SysEvent | x.e.Recv? || x.e.Done? :: !Enabled(s, x) }

  // The core event that moves the handler's sender on.
  function NextForServer(s: Sys): Event {
    var live := s.server.call.live;
    Done(if Server.HANDSHAKE in live then Server.HANDSHAKE
         else if Server.WRITE in live then Server.WRITE else Server.FAREWELL, Ok)
  }

  lemma ServerMoves(s: Sys)
    requires Inv(s) && Server.Ending(s.server, false) && s.server.finished && !s.server.deleted
    ensures Enabled(s, AtServer(NextForServer(s)))
  {
  }

  // The core event that moves the client on: first its sender, then its reader, then its end.
  function NextForClient(s: Sys): Event {
    var c, d := s.client.call, s.server.call;
    if Client.HANDSHAKE in c.live then Done(Client.HANDSHAKE, Ok)
    else if Client.WRITE in c.live then Done(Client.WRITE, Ok)
    else if Client.HALF_CLOSE in c.live then Done(Client.HALF_CLOSE, Ok)
    else if Client.READ in c.live && c.received then Done(Client.READ, Ok)
    else if Client.READ in c.live then Recv(if c.taken < |d.sent| then Some(d.sent[c.taken]) else None)
    else Done(Client.STATUS, Ok)
  }

  lemma ClientMoves(s: Sys)
    requires Inv(s) && Going(s, false, false) && s.client.finishedSending && s.server.deleted && !s.client.deleted
    ensures Enabled(s, AtClient(NextForClient(s)))
  {
  }

  /** No deadlock, and exactly when: once both streams are over and core has nothing left to do, both
      ends have been deleted, unless one of them missed the end of its stream. */
  lemma BothDeletedIffNotMissed(early: seq<Message>, over: bool, run: seq<Sys>, es: seq<SysEvent>)
    requires IsRun(Enabled, Step, Init(early, over), run, es) && Quiet(run[|es|])
    requires run[|es|].client.req.end.Some? && run[|es|].server.reply.end.Some?
    ensures
      var s := run[|es|];
      s.client.deleted && s.server.deleted <==> !ClientMissed(run, es, |es|) && !ServerMissed(run, es, |es|)
  {
    var s := run[|es|];
    InvAlways(early, over, run, es, |es|);
    GoingAlong(early, over, run, es, |es|);
    MissedEndHangsTheOther(early, over, run, es);
    if !ClientMissed(run, es, |es|) && !ServerMissed(run, es, |es|) {
      if !s.server.deleted { ServerMoves(s); }
      if !s.client.deleted { ClientMoves(s); }
    }
  }

  // How many more events core has at most for a call whose streams are over.
  function Left(s: Sys): int {
    Client.Left(s.client, |s.server.reply.items|) + Server.Left(s.server, |s.client.req.items|)
  }

  lemma StillToCome(s: Sys)
    requires Inv(s)
    ensures |s.client.rep.items| + |Slot(s.client.recvBuffer)| <= |s.server.reply.items|
    ensures |s.server.reader.items| + |Slot(s.server.payload)| <= |s.client.req.items|
  {
    Conserved(s);
  }

  lemma LeftLowers(s: Sys, x: SysEvent)
    requires Inv(s) && s.client.finishedSending && s.server.finished && Enabled(s, x)
    ensures
      var t := Step(s, x);
      t.client.finishedSending && t.server.finished && Left(t) < Left(s)
  {
    hide Client.Step, Server.Step, Client.Enabled, Server.Enabled, Client.Left, Server.Left, LaneGives;
    StillToCome(s);
    InvKept(s, x);
    match x
    case AtClient(e) =>
      Client.SourceOver(s.client, e);
      Client.LeftLowers(s.client, e, |s.server.reply.items|);
    case AtServer(e) =>
      Server.SourceOver(s.server, e);
      Server.LeftLowers(s.server, e, |s.client.req.items|);
  }

  lemma {:induction false} LeftAlong(
      early: seq<Message>, over: bool, run: seq<Sys>, es: seq<SysEvent>, n: nat, m: nat)
    requires IsRun(Enabled, Step, Init(early, over), run, es) && n <= m <= |es|
    requires run[n].client.finishedSending && run[n].server.finished
    ensures run[m].client.finishedSending && run[m].server.finished && m - n + Left(run[m]) <= Left(run[n])
    decreases m
  {
    hide Enabled, Step, Left, Inv;
    if n < m {
      LeftAlong(early, over, run, es, n, m - 1);
      InvAlways(early, over, run, es, m - 1);
      LeftLowers(run[m - 1], es[m - 1]);
    }
  }

  /** Once both streams are over, core has at most `Left` events more, in whatever order it takes
      them, whatever happened before; so every call that no end missed is deleted at both ends. */
  lemma EveryCallEnds(early: seq<Message>, over: bool, run: seq<Sys>, es: seq<SysEvent>, n: nat)
    requires IsRun(Enabled, Step, Init(early, over), run, es) && n <= |es|
    requires run[n].client.req.end.Some? && run[n].server.reply.end.Some?
    ensures |es| - n <= Left(run[n])
  {
    InvAlways(early, over, run, es, n);
    InvAlways(early, over, run, es, |es|);
    LeftAlong(early, over, run, es, n, |es|);
    StillToCome(run[|es|]);
  }

  // ---- the two failures happen in whole calls, not only in contrived environments

  // One more event of a run in which the handler's reply stream is empty.
  lemma Then(run: seq<Sys>, es: seq<SysEvent>, x: SysEvent) returns (run': seq<Sys>, es': seq<SysEvent>)
    requires IsRun(Enabled, Step, Init([], false), run, es) && Enabled(run[|es|], x)
    ensures IsRun(Enabled, Step, Init([], false), run', es')
    ensures run'[|es'|] == Step(run[|es|], x)
  {
    run', es' := run + [Step(run[|es|], x)], es + [x];
    Continue(Enabled, Step, Init([], false), run, es, x);
  }

  /** A client whose stream is over before its handshake completes misses the end. */
  lemma ClientCanMiss() returns (run: seq<Sys>, es: seq<SysEvent>)
    ensures IsRun(Enabled, Step, Init([], false), run, es) && ClientMissed(run, es, |es|)
  {
    hide Accepts;
    var s := Init([], false);
    var t := Step(s, AtClient(End(Complete)));
    es := [AtClient(End(Complete)), AtClient(Done(Client.HANDSHAKE, Ok))];
    run := [s, t, Step(t, es[1])];
    assert Client.HANDSHAKE in s.client.call.live by { Client.InvInit(); }
    assert Client.Misses(run[1].client, es[1].e);
  }

  /** So does a handler whose callback returns a stream that is already over. */
  lemma HandlerCanMiss() returns (run: seq<Sys>, es: seq<SysEvent>)
    ensures IsRun(Enabled, Step, Init([], true), run, es) && ServerMissed(run, es, |es|)
  {
    hide Accepts;
    var s := Init([], true);
    es := [AtServer(Done(Server.HANDSHAKE, Ok))];
    run := [s, Step(s, es[0])];
    assert Server.HANDSHAKE in s.server.call.live by { Server.InvInit([], true); }
    assert Server.Misses(run[0].server, es[0].e);
  }

  // Both ends finish their empty streams; the client's half-close and first read are outstanding.
  lemma BothEnd() returns (run: seq<Sys>, es: seq<SysEvent>)
    ensures IsRun(Enabled, Step, Init([], false), run, es)
    ensures
      var s := run[|es|];
      && LaneGives(s.server.call, s.client.call, None)
      && Client.Inv(s.client) && Client.Closing(s.client, false)
      && Client.HALF_CLOSE in s.client.call.live && Client.READ in s.client.call.live
      && !s.client.call.received && s.client.recvBuffer.None?
  {
    hide Accepts;
    var t, u := Server.EmptyReply();
    var c, d := Client.EmptyRequest();
    run, es := [Init([], false)], [];
    run, es := Then(run, es, AtServer(Done(Server.HANDSHAKE, Ok)));
    run, es := Then(run, es, AtServer(End(Complete)));
    run, es := Then(run, es, AtClient(Done(Client.HANDSHAKE, Ok)));
    run, es := Then(run, es, AtClient(End(Complete)));
  }

  /** The client then reads the null payload before its half-close completes: `finish` runs twice and
      core refuses the second request. */
  lemma FinishCanRunTwice() returns (run: seq<Sys>, es: seq<SysEvent>)
    ensures IsRun(Enabled, Step, Init([], false), run, es) && !run[|es|].client.call.accepted
  {
    run, es := BothEnd();
    hide Accepts, Client.OnDone, Client.CanRace, Client.Closing;
    var s := run[|es|].client;
    var t := Client.Step(s, Recv(None));
    Client.NullArrives(s);
    Client.RaceRefuses(t, Ok, Ok);
    run, es := Then(run, es, AtClient(Recv(None)));
    run, es := Then(run, es, AtClient(Done(Client.READ, Ok)));
    run, es := Then(run, es, AtClient(Done(Client.HALF_CLOSE, Ok)));
  }

  // ---- a reply stream that fails

  // What stays true after the handler failed with `sent` handed to core.
  ghost predicate Failed(s: Sys, sent: seq<Message>) {
    && Client.Inv(s.client) && Lane(s.server.call, Client.In(s.client))
    && (s.client.deleted ==> s.client.status == Ok)
    && Server.Truncated(s.server, sent)
  }

  lemma FailedKept(s: Sys, x: SysEvent, sent: seq<Message>)
    requires Failed(s, sent) && Enabled(s, x)
    ensures Failed(Step(s, x), sent)
  {
    hide Client.Step, Client.Enabled, Server.Step, Server.Enabled, Client.Inv;
    match x
    case AtClient(e) => ClientReceives(s, e); StatusKept(s, e);
    case AtServer(e) => Server.TruncatedKept(s.server, e, sent);
  }

  function AfterFailure(s: Sys, st: Status): Sys { s.(server := Server.Fail(s.server, st)) }

  lemma AtFailure(s: Sys, st: Status)
    requires Inv(s) && s.server.reply.end.None?
    ensures Failed(AfterFailure(s, st), s.server.call.sent)
  {
  }

  lemma FailedAlong(s: Sys, sent: seq<Message>, run: seq<Sys>, es: seq<SysEvent>)
    requires Failed(s, sent) && IsRun(Enabled, Step, s, run, es)
    ensures Failed(run[|es|], sent)
  {
    var inv := (t: Sys) => Failed(t, sent);
    forall t, x | inv(t) && Enabled(t, x) ensures inv(Step(t, x)) { FailedKept(t, x, sent); }
    Invariance(Enabled, Step, inv, s, run, es, |es|);
  }

  /** If the handler's stream ends with an exception instead, in every continuation the client gets
      only what was handed to core before, and if its promise ends, it ends as complete with exactly
      that; it is everything pushed only if nothing was queued.  The handler is never deleted. */
  lemma FailedStreamLooksComplete(s: Sys, st: Status, run: seq<Sys>, more: seq<SysEvent>)
    requires Inv(s) && s.server.reply.end.None?
    requires IsRun(Enabled, Step, AfterFailure(s, st), run, more)
    ensures
      var t := run[|more|];
      && t.client.rep.items <= s.server.call.sent && !t.server.deleted
      && (t.client.rep.end.Some? ==>
            && t.client.rep.end.value == Complete
            && t.client.rep.items == s.server.call.sent
            && (t.client.rep.items == s.server.reply.items <==> s.server.pending == []))
  {
    AtFailure(s, st);
    FailedAlong(AfterFailure(s, st), s.server.call.sent, run, more);
  }
}
