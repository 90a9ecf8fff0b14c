/** The protocol that four classes of the library hand-write: a serial FIFO sender.  Its atomic moves
    say only when something may happen; the sessions are shown to perform nothing else. */
module SerialSender {
  import opened GrpcCall

  datatype Sender = Sender(pushed: seq<Message>, queue: seq<Message>, started: seq<Message>,
                           busy: bool, ended: bool, endStarted: bool)

  // The metadata exchange is the first thing in flight.
  const Initial := Sender([], [], [], true, false, false)

  datatype Move = Enqueue(m: Message) | StartHead | BecomeIdle | EndStream | StartEnd

  predicate Enabled(s: Sender, a: Move) {
    match a
    case Enqueue(_) => !s.ended
    case StartHead => !s.busy && s.queue != []
    case BecomeIdle => s.busy
    case EndStream => !s.ended
    case StartEnd => !s.busy && s.queue == [] && s.ended && !s.endStarted
  }

  function Apply(s: Sender, a: Move): Sender {
    match a
    case Enqueue(m) => s.(pushed := s.pushed + [m], queue := s.queue + [m])
    case StartHead => if s.queue == [] then s
                      else s.(busy := true, queue := s.queue[1..], started := s.started + [s.queue[0]])
    case BecomeIdle => s.(busy := false)
    case EndStream => s.(ended := true)
    case StartEnd => s.(endStarted := true)
  }

  ghost predicate Performs(s: Sender, moves: seq<Move>, t: Sender)
    decreases |moves|
  {
    if moves == [] then s == t
    else Enabled(s, moves[0]) && Performs(Apply(s, moves[0]), moves[1..], t)
  }

  lemma {:induction false} PerformsAppend(s: Sender, xs: seq<Move>, t: Sender, ys: seq<Move>, u: Sender)
    requires Performs(s, xs, t) && Performs(t, ys, u)
    ensures Performs(s, xs + ys, u)
    decreases |xs|
  {
    if xs == [] {
      assert xs + ys == ys;
    } else {
      PerformsAppend(Apply(s, xs[0]), xs[1..], t, ys, u);
      assert (xs + ys)[1..] == xs[1..] + ys;
    }
  }

  // Nothing is lost, duplicated or reordered, and the end is started last.
  ghost predicate Safe(s: Sender) {
    && s.pushed == s.started + s.queue
    && (s.endStarted ==> s.ended && s.queue == [] && s.started == s.pushed)
  }

  lemma {:induction false} SafeAlong(s: Sender, moves: seq<Move>, t: Sender)
    requires Safe(s) && Performs(s, moves, t)
    ensures Safe(t)
    decreases |moves|
  {
    if moves != [] {
      SafeAlong(Apply(s, moves[0]), moves[1..], t);
    }
  }

  // Every state the protocol can reach is safe.
  lemma Safety(moves: seq<Move>, t: Sender)
    requires Performs(Initial, moves, t)
    ensures t.pushed == t.started + t.queue
    ensures t.endStarted ==> t.ended && t.queue == [] && t.started == t.pushed
  {
    SafeAlong(Initial, moves, t);
  }

  // What was started stays started, and nothing is started after the end.
  lemma {:induction false} Monotone(s: Sender, moves: seq<Move>, t: Sender)
    requires Safe(s) && Performs(s, moves, t)
    ensures s.started <= t.started
    ensures s.endStarted ==> t.endStarted && t.started == s.started
    decreases |moves|
  {
    if moves != [] {
      Monotone(Apply(s, moves[0]), moves[1..], t);
    }
  }

  // Unfolds `Performs` for the traces of one or two moves that the sessions produce.
  lemma Moves1(s: Sender, a: Move)
    requires Enabled(s, a)
    ensures Performs(s, [a], Apply(s, a))
  {
  }

  lemma Moves2(s: Sender, a: Move, b: Move)
    requires Enabled(s, a) && Enabled(Apply(s, a), b)
    ensures Performs(s, [a, b], Apply(Apply(s, a), b))
  {
  }
}
