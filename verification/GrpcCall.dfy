/** The part of gRPC core that the streaming sessions talk to: a call on which batches of operations
    are started, and which completes every started batch once.  Core itself is not modelled; what is
    modelled is the contract the sessions rely on. */
module GrpcCall {

  newtype Byte = x: int | 0 <= x < 256

  // A serialised message, the contents of one `grpc_byte_buffer`.
  type Message = seq<Byte>

  datatype Option<+T> = None | Some(value: T)

  datatype Status = Ok | Error(code: nat)

  datatype OpKind =
    | SendMetadata | RecvMetadata
    | SendMessage | RecvMessage
    | SendClose | RecvStatus
    | SendStatus | RecvClose

  // Every combination of operations that the library starts as one batch.
  datatype Shape =
    | Handshake        // both initial metadata: client-streaming and bidirectional clients
    | ServerHandshake  // initial metadata alone: server-streaming and bidirectional handlers
    | Open             // metadata, the one request, the first read: server-streaming client
    | OpenRead         // metadata and the first read: client-streaming handler
    | Write
    | Read
    | HalfClose        // bidirectional client
    | CloseForStatus   // server-streaming client
    | CloseForReply    // client-streaming client
    | AwaitStatus      // bidirectional client
    | Farewell         // status and close notice: every streaming handler, on normal end or failure
    | Reply            // the one response together with the farewell: client-streaming handler

  function Ops(b: Shape): set<OpKind> {
    match b
    case Handshake => {SendMetadata, RecvMetadata}
    case ServerHandshake => {SendMetadata}
    case Open => {SendMetadata, SendMessage, RecvMetadata, RecvMessage}
    case OpenRead => {SendMetadata, RecvMessage}
    case Write => {SendMessage}
    case Read => {RecvMessage}
    case HalfClose => {SendClose}
    case CloseForStatus => {SendClose, RecvStatus}
    case CloseForReply => {SendClose, RecvMessage, RecvStatus}
    case AwaitStatus => {RecvStatus}
    case Farewell => {SendStatus, RecvClose}
    case Reply => {SendMessage, SendStatus, RecvClose}
  }

  // The `std::bitset<4>` carried in the low bits of a completion tag.
  datatype Flags = Flags(b0: bool, b1: bool, b2: bool, b3: bool)

  const F0 := Flags(false, false, false, false)
  const F1 := Flags(true, false, false, false)
  const F2 := Flags(false, true, false, false)
  const F4 := Flags(false, false, true, false)
  const F8 := Flags(false, false, false, true)

  datatype Batch = Batch(shape: Shape, flags: Flags)

  predicate Has(b: Batch, k: OpKind) { k in Ops(b.shape) }

  /** One call as core sees it.
      `log`       every batch started, in order;
      `live`      batches started and not yet completed;
      `used`      kinds of operation that were ever started;
      `sent`      messages handed over by SEND_MESSAGE, in order: the contents of the outgoing lane;
      `status`    the status handed over by SEND_STATUS, if any;
      `received`  whether the outstanding RECV_MESSAGE has already written its buffer;
      `taken`     how many messages of the incoming lane were written so far;
      `accepted`  no batch was ever refused, that is, no `assert(status == GRPC_CALL_OK)` fired;
      `ordered`   no batch was ever started out of order, whether or not it was refused for that. */
  datatype Call = Call(log: seq<Batch>, live: set<Batch>, used: set<OpKind>, sent: seq<Message>, status: Option<Status>,
                       received: bool, taken: nat, accepted: bool, ordered: bool)
  {
    const ok: bool := accepted && ordered
  }

  const NewCall := Call([], {}, {}, [], None, false, 0, true, true)

  // Whether core refuses a batch that is out of order.  Everything is proved for either kind of core.
  const CoreChecksOrder: bool

  predicate OneShot(k: OpKind) { !k.SendMessage? && !k.RecvMessage? }

  // The outgoing lane takes no more messages.
  predicate Closed(c: Call) { SendClose in c.used || SendStatus in c.used }

  // The outgoing lane is used in order: metadata, messages, end.
  predicate InOrder(c: Call, b: Batch) {
    && (SendMetadata in c.used || SendMetadata in Ops(b.shape))
    && (Has(b, SendMessage) ==> !Closed(c))
  }

  /** Core accepts a batch iff no operation of its kind is outstanding, no one-shot operation is
      repeated, and, if core checks that, it is in order. */
  predicate Accepts(c: Call, b: Batch) {
    && (forall k | k in Ops(b.shape) :: forall l | l in c.live :: !Has(l, k))
    && (forall k | k in Ops(b.shape) :: OneShot(k) ==> k !in c.used)
    && (CoreChecksOrder ==> InOrder(c, b))
  }

  // `grpc_call_start_batch`.  A message accepted after the end completes but never reaches the lane.
  function Start(c: Call, b: Batch, payload: seq<Message>, status: Option<Status>): (r: Call)
    ensures payload == [] ==> r.sent == c.sent
  {
    var d := c.(accepted := c.accepted && Accepts(c, b), ordered := c.ordered && InOrder(c, b));
    if Accepts(c, b) then
      d.(log := c.log + [b],
         live := c.live + {b},
         used := c.used + Ops(b.shape),
         sent := if Closed(c) then c.sent else c.sent + payload,
         status := if status.Some? then status else c.status,
         received := c.received && !Has(b, RecvMessage))
    else
      d
  }

  // Core writes the buffer of the outstanding RECV_MESSAGE; `None` is the null payload.
  function Received(c: Call, v: Option<Message>): Call {
    c.(received := true, taken := if v.Some? then c.taken + 1 else c.taken)
  }

  predicate AwaitsMessage(c: Call) {
    !c.received && exists b :: b in c.live && Has(b, RecvMessage)
  }

  // A started batch completes; a batch that reads needs its buffer written first.
  predicate CanComplete(c: Call, b: Batch) {
    b in c.live && (Has(b, RecvMessage) ==> c.received)
  }

  function Completed(c: Call, b: Batch): Call { c.(live := c.live - {b}) }

  // `n` batches alike, as they appear in the log.
  function Repeat(b: Batch, n: nat): seq<Batch> { seq(n, _ => b) }

  /** The reliable FIFO lane from `from` to `to`: a read returns the first message not yet taken, or
      null once everything is taken and the lane is closed. */
  predicate LaneGives(from: Call, to: Call, v: Option<Message>) {
    if v.Some? then
      to.taken < |from.sent| && v.value == from.sent[to.taken]
    else
      to.taken >= |from.sent| && Closed(from)
  }

  // How a stream or its promise ends.
  datatype Terminal = Complete | Failure(status: Status)

  /** What has been pushed into a `Stream_promise`, and how it ended.  `valid` turns false when
      anything is done to a promise that has already ended. */
  datatype Stream = Stream(items: seq<Message>, end: Option<Terminal>, valid: bool)

  const NewStream := Stream([], None, true)

  function Put(s: Stream, m: Message): Stream {
    s.(items := s.items + [m], valid := s.valid && s.end.None?)
  }

  function Close(s: Stream, t: Terminal): Stream {
    s.(end := Some(t), valid := s.valid && s.end.None?)
  }

  function StatusTerminal(st: Status): Terminal {
    if st == Ok then Complete else Failure(st)
  }

  /** What can happen to a session or handler.  Every lambda body and every `exec` is one atomic
      step, because the session's mutex or the single worker thread serialises them. */
  datatype Event =
    | Push(m: Message)             // the source, a stream or future of the user, yields a message
    | End(t: Terminal)             // the source ends
    | Recv(v: Option<Message>)     // core writes the buffer of the outstanding read
    | Done(b: Batch, st: Status)   // a batch completes and `exec` runs; `st` is what RECV_STATUS wrote

  // How many of the first `n` events are completions.
  function Completions(es: seq<Event>, n: nat): nat
    requires n <= |es|
  {
    if n == 0 then 0 else Completions(es, n - 1) + if es[n - 1].Done? then 1 else 0
  }

  predicate EndsWrite(e: Event) { e.Done? && e.b.shape == Write }

  // How many of the first `n` events end a single write.
  function Writes(es: seq<Event>, n: nat): nat
    requires n <= |es|
  {
    if n == 0 then 0 else Writes(es, n - 1) + if EndsWrite(es[n - 1]) then 1 else 0
  }

  // What the first `n` events say: which messages the source yielded, how it ended, and which
  // messages core wrote.
  function Pushed(es: seq<Event>, n: nat): seq<Message>
    requires n <= |es|
  {
    if n == 0 then [] else Pushed(es, n - 1) + if es[n - 1].Push? then [es[n - 1].m] else []
  }

  function Ended(es: seq<Event>, n: nat): Option<Terminal>
    requires n <= |es|
  {
    if n == 0 then None else if es[n - 1].End? then Some(es[n - 1].t) else Ended(es, n - 1)
  }

  function Written(es: seq<Event>, n: nat): seq<Message>
    requires n <= |es|
  {
    if n == 0 then [] else Written(es, n - 1) + if es[n - 1].Recv? then Slot(es[n - 1].v) else []
  }

  function One(c: bool): nat { if c then 1 else 0 }

  // How many events core has for a reader with `n` messages still to come: two for each message and
  // for the null payload.
  function Reading(over: bool, n: int, received: bool): int {
    if over then 0 else 2 * n + if received then 1 else 2
  }

  // The payload slot as a sequence: the message core has written and `exec` has not yet seen.
  function Slot(v: Option<Message>): seq<Message> {
    if v.Some? then [v.value] else []
  }

  /** The receiving half of a session: the messages delivered so far with the payload slot, and what
      core has written into the slot. */
  datatype Inbox = Inbox(delivered: seq<Message>, slot: Option<Message>, received: bool, taken: nat)

  function Arrived(b: Inbox): seq<Message> { b.delivered + Slot(b.slot) }

  // A step other than core writing the slot neither loses nor invents a message or a null payload.
  predicate Passes(b: Inbox, c: Inbox) {
    && Arrived(c) == Arrived(b) && c.taken == b.taken
    && (c.received && c.slot.None? ==> b.received && b.slot.None?)
  }
}
