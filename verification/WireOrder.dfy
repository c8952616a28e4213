/** The way of a notification from the protocol's queue to the wire, `server.py` and
    `connection.py`: a drain thread per protocol, the session registry, the event loop's
    callbacks, the connection's queue and its writer. */
module WireOrder {
  import opened Options
  import BackChannel

  type SessionId = BackChannel.SessionId
  type Data = BackChannel.Payload
  type Drain(==, !new)

  /** `Stop` is the sentinel that ends the writer. */
  datatype Item = Note(data: Data) | Reply(data: Data) | Stop

  /** `hold` is what the writer has taken and not yet written, `gate` lets it write. */
  datatype Conn = Conn(open: bool, gate: bool, queue: seq<Item>, hold: Option<Item>, writing: bool, written: seq<Item>)

  /** What a drain thread has in hand: polled, or with its connection looked up. */
  datatype Hand = Empty | Polled(s: SessionId, data: Data) | Routed(s: SessionId, data: Data)

  datatype Post = Post(s: SessionId, data: Data)

  /** `polled` is the history of what was polled for each session. */
  datatype State = State(
    registry: set<SessionId>, conns: map<SessionId, Conn>, hands: map<Drain, Hand>, loop: seq<Post>,
    polled: map<SessionId, seq<Data>>)

  // ---- a connection's own steps -------------------------------------------------------------------

  function NewConn(): Conn {
    Conn(true, true, [], None, true, [])
  }

  function Queue(c: Conn, item: Item): Conn {
    c.(queue := c.queue + [item])
  }

  /** `enqueue_outbound`. */
  function Enqueue(c: Conn, data: Data): Conn {
    if c.open then Queue(c, Note(data)) else c
  }

  /** The writer's next turn: it ends at the sentinel. */
  function Take(c: Conn): Conn
    requires c.writing && c.hold.None? && c.queue != []
  {
    if c.queue[0].Stop? then c.(writing := false, queue := c.queue[1..])
    else c.(hold := Some(c.queue[0]), queue := c.queue[1..])
  }

  function Write(c: Conn): Conn
    requires c.hold.Some?
  {
    c.(written := c.written + [c.hold.value], hold := None)
  }

  // ---- every step ---------------------------------------------------------------------------------

  datatype Action =
    | Binds(s: SessionId)
    | Polls(d: Drain, s: SessionId, data: Data)
    | LooksUp(d: Drain)
    | Posts(d: Drain)
    | RunsCallback
    | Sends(s: SessionId, data: Data)
    | Takes(s: SessionId)
    | Writes(s: SessionId)
    | WritesNow(s: SessionId, data: Data)
    | SetsGate(s: SessionId, gate: bool)
    | WriterFails(s: SessionId)
    | MarksClosed(s: SessionId)
    | Unregisters(s: SessionId)
    | StopsWriter(s: SessionId)

  function HandOf(x: State, d: Drain): Hand {
    if d in x.hands then x.hands[d] else Empty
  }

  /** `drainOf` names the drain of a session's protocol.  A session has notifications only once
      its connection is bound, because only a dispatched message subscribes it. */
  predicate Enabled(x: State, a: Action, drainOf: SessionId -> Drain) {
    match a
    case Binds(s) => s !in x.conns
    case Polls(d, s, _) => HandOf(x, d).Empty? && s in x.conns && s in x.polled && drainOf(s) == d
    case LooksUp(d) => HandOf(x, d).Polled?
    case Posts(d) => HandOf(x, d).Routed?
    case RunsCallback => x.loop != []
    case Sends(s, _) => s in x.conns
    case Takes(s) => s in x.conns && x.conns[s].writing && x.conns[s].hold.None? && x.conns[s].queue != []
    case Writes(s) => s in x.conns && x.conns[s].writing && x.conns[s].hold.Some? && x.conns[s].gate
    case WritesNow(s, _) => s in x.conns
    case SetsGate(s, _) => s in x.conns
    case WriterFails(s) => s in x.conns
    case MarksClosed(s) => s in x.conns
    case Unregisters(s) => s in x.conns && !x.conns[s].open
    case StopsWriter(s) => s in x.conns && !x.conns[s].open
  }

  function Step(x: State, a: Action, drainOf: SessionId -> Drain): State
    requires Enabled(x, a, drainOf)
  {
    match a
    case Binds(s) =>
      x.(registry := x.registry + {s}, conns := x.conns[s := NewConn()], polled := x.polled[s := []])
    case Polls(d, s, data) =>
      x.(hands := x.hands[d := Polled(s, data)], polled := x.polled[s := x.polled[s] + [data]])
    case LooksUp(d) =>
      var hand := HandOf(x, d);
      x.(hands := x.hands[d := if hand.s in x.registry then Routed(hand.s, hand.data) else Empty])
    case Posts(d) =>
      x.(hands := x.hands[d := Empty], loop := x.loop + [Post(HandOf(x, d).s, HandOf(x, d).data)])
    case RunsCallback =>
      var post := x.loop[0];
      var rest := x.(loop := x.loop[1..]);
      if post.s in x.conns then rest.(conns := x.conns[post.s := Enqueue(x.conns[post.s], post.data)]) else rest
    case Sends(s, data) => x.(conns := x.conns[s := Queue(x.conns[s], Reply(data))])
    case Takes(s) => x.(conns := x.conns[s := Take(x.conns[s])])
    case Writes(s) => x.(conns := x.conns[s := Write(x.conns[s])])
    case WritesNow(s, data) =>
      x.(conns := x.conns[s := x.conns[s].(written := x.conns[s].written + [Reply(data)])])
    case SetsGate(s, gate) => x.(conns := x.conns[s := x.conns[s].(gate := gate)])
    case WriterFails(s) => x.(conns := x.conns[s := x.conns[s].(writing := false)])
    case MarksClosed(s) => x.(conns := x.conns[s := x.conns[s].(open := false, gate := true)])
    case Unregisters(s) => x.(registry := x.registry - {s})
    case StopsWriter(s) => x.(conns := x.conns[s := Queue(x.conns[s], Stop)])
  }

  datatype Execution = Stuck | At(x: State)

  function Start(): State {
    State({}, map[], map[], [], map[])
  }

  /** Where a sequence of steps leads from a state. */
  function From(x: State, actions: seq<Action>, drainOf: SessionId -> Drain): Execution {
    if actions == [] then At(x)
    else
      var n := |actions| - 1;
      match From(x, actions[..n], drainOf)
      case Stuck => Stuck
      case At(y) => if Enabled(y, actions[n], drainOf) then At(Step(y, actions[n], drainOf)) else Stuck
  }

  function Execute(actions: seq<Action>, drainOf: SessionId -> Drain): Execution {
    From(Start(), actions, drainOf)
  }

  // ---- where a session's notifications are -------------------------------------------------------

  function Notes(items: seq<Item>): seq<Data> {
    if items == [] then []
    else
      var n := |items| - 1;
      Notes(items[..n]) + (if items[n].Note? then [items[n].data] else [])
  }

  function Held(hold: Option<Item>): seq<Data> {
    if hold.Some? && hold.value.Note? then [hold.value.data] else []
  }

  function Posted(loop: seq<Post>, s: SessionId): seq<Data> {
    if loop == [] then []
    else
      var n := |loop| - 1;
      Posted(loop[..n], s) + (if loop[n].s == s then [loop[n].data] else [])
  }

  function InHand(hand: Hand, s: SessionId): seq<Data> {
    if !hand.Empty? && hand.s == s then [hand.data] else []
  }

  /** The notifications that have reached the connection, oldest first. */
  function Reached(c: Conn): seq<Data> {
    Notes(c.written) + Held(c.hold) + Notes(c.queue)
  }

  /** While a connection is open nothing is lost on the way to it; once it is closed, what has
      reached it is still the beginning of what was polled. */
  predicate Ordered(c: Conn, polled: seq<Data>, posted: seq<Data>, inHand: seq<Data>) {
    && Reached(c) <= polled
    && (c.open ==> polled == Reached(c) + posted + inHand)
  }

  predicate InOrder(x: State, s: SessionId, drainOf: SessionId -> Drain)
    requires s in x.conns && s in x.polled
  {
    Ordered(x.conns[s], x.polled[s], Posted(x.loop, s), InHand(HandOf(x, drainOf(s)), s))
  }

  /** Only bound sessions have anything under way, each through the drain of its protocol, and
      a connection leaves the registry only after it was marked closed. */
  ghost predicate Known(x: State, drainOf: SessionId -> Drain) {
    && x.conns.Keys == x.polled.Keys
    && (forall s :: s in x.conns && x.conns[s].open ==> s in x.registry)
    && (forall d :: !HandOf(x, d).Empty? ==> drainOf(HandOf(x, d).s) == d && HandOf(x, d).s in x.conns)
    && (forall p :: p in x.loop ==> p.s in x.conns)
  }

  ghost predicate Inv(x: State, drainOf: SessionId -> Drain) {
    Known(x, drainOf) && forall s :: s in x.conns ==> InOrder(x, s, drainOf)
  }

  // ---- proofs ------------------------------------------------------------------------------------

  lemma {:induction false} NotesSnoc(items: seq<Item>, item: Item)
    ensures Notes(items + [item]) == Notes(items) + (if item.Note? then [item.data] else [])
  {
    assert (items + [item])[..|items|] == items;
  }

  lemma {:induction false} NotesOfHead(items: seq<Item>)
    requires items != []
    ensures Notes(items) == Held(Some(items[0])) + Notes(items[1..])
  {
    if |items| > 1 {
      var n := |items| - 1;
      NotesOfHead(items[..n]);
      assert items[..n][1..] == items[1..][..n - 1];
    }
  }

  lemma {:induction false} PostedSnoc(loop: seq<Post>, p: Post, s: SessionId)
    ensures Posted(loop + [p], s) == Posted(loop, s) + (if p.s == s then [p.data] else [])
  {
    assert (loop + [p])[..|loop|] == loop;
  }

  lemma {:induction false} PostedOfHead(loop: seq<Post>, s: SessionId)
    requires loop != []
    ensures Posted(loop, s) == (if loop[0].s == s then [loop[0].data] else []) + Posted(loop[1..], s)
  {
    if |loop| > 1 {
      var n := |loop| - 1;
      PostedOfHead(loop[..n], s);
      assert loop[..n][1..] == loop[1..][..n - 1];
    }
  }

  lemma {:induction false} PostedNothing(loop: seq<Post>, s: SessionId)
    requires forall p :: p in loop ==> p.s != s
    ensures Posted(loop, s) == []
  {
    if loop != [] {
      PostedNothing(loop[..|loop| - 1], s);
    }
  }

  lemma {:induction false} Regroup(a: seq<Data>, b: seq<Data>, c: seq<Data>, d: seq<Data>)
    ensures (a + b) + c + d == a + (b + c) + d
    ensures a + b + (c + d) == a + (b + c) + d
    ensures a <= a + b
  {}

  /** Taking, writing, replying and the gate leave what has reached the connection as it is. */
  lemma {:induction false} ConnKeeps(c: Conn, next: Conn, polled: seq<Data>, posted: seq<Data>, inHand: seq<Data>)
    requires Ordered(c, polled, posted, inHand) && Reached(next) == Reached(c) && (next.open ==> c.open)
    ensures Ordered(next, polled, posted, inHand)
  {}

  lemma {:induction false} TakeReaches(c: Conn)
    requires c.writing && c.hold.None? && c.queue != []
    ensures Reached(Take(c)) == Reached(c)
  {
    NotesOfHead(c.queue);
    MoveHead(Notes(c.written), Held(Some(c.queue[0])), Notes(c.queue[1..]));
    hide Notes;
  }

  lemma {:induction false} MoveHead(a: seq<Data>, head: seq<Data>, rest: seq<Data>)
    ensures a + [] + (head + rest) == a + head + rest
    ensures head == [] ==> a + head + rest == a + [] + rest
  {}

  lemma {:induction false} WriteReaches(c: Conn)
    requires c.hold.Some?
    ensures Reached(Write(c)) == Reached(c)
  {
    NotesSnoc(c.written, c.hold.value);
  }

  lemma {:induction false} ReplyReaches(c: Conn, item: Item)
    requires !item.Note?
    ensures Reached(Queue(c, item)) == Reached(c)
    ensures Reached(c.(written := c.written + [item])) == Reached(c)
  {
    NotesSnoc(c.queue, item);
    NotesSnoc(c.written, item);
  }

  lemma {:induction false} EnqueueKeeps(c: Conn, data: Data, polled: seq<Data>, posted: seq<Data>, inHand: seq<Data>)
    requires Ordered(c, polled, [data] + posted, inHand)
    ensures Ordered(Enqueue(c, data), polled, posted, inHand)
  {
    if c.open {
      NotesSnoc(c.queue, Note(data));
      assert Reached(Enqueue(c, data)) == Reached(c) + [data];
      hide Reached;
      Regroup(Reached(c), [data], posted, inHand);
      Regroup(Reached(c) + [data], posted + inHand, [], []);
      assert (Reached(c) + [data]) + (posted + inHand) == (Reached(c) + [data]) + posted + inHand;
    }
  }

  lemma {:induction false} PollKeeps(c: Conn, data: Data, polled: seq<Data>, posted: seq<Data>)
    requires Ordered(c, polled, posted, [])
    ensures Ordered(c, polled + [data], posted, [data])
  {
    hide Reached;
    assert Reached(c) <= polled <= polled + [data];
  }

  lemma {:induction false} PostKeeps(c: Conn, data: Data, polled: seq<Data>, posted: seq<Data>)
    requires Ordered(c, polled, posted, [data])
    ensures Ordered(c, polled, posted + [data], [])
  {
    hide Reached;
    assert Reached(c) + posted + [data] == Reached(c) + (posted + [data]) + [];
  }

  /** A step of one connection keeps the order of every session. */
  lemma {:induction false} OwnStepKeeps(x: State, s: SessionId, next: Conn, drainOf: SessionId -> Drain, t: SessionId)
    requires s in x.conns && t in x.conns && t in x.polled && InOrder(x, t, drainOf)
    requires Reached(next) == Reached(x.conns[s]) && (next.open ==> x.conns[s].open)
    ensures InOrder(x.(conns := x.conns[s := next]), t, drainOf)
  {
    hide Reached, Posted, Ordered, HandOf;
    if t == s {
      ConnKeeps(x.conns[s], next, x.polled[s], Posted(x.loop, s), InHand(HandOf(x, drainOf(s)), s));
    }
    SameHands(x, x.(conns := x.conns[s := next]), drainOf(t));
  }

  lemma {:induction false} SameHands(x: State, y: State, d: Drain)
    requires x.hands == y.hands
    ensures HandOf(x, d) == HandOf(y, d)
  {}

  lemma {:induction false} BindKeeps(x: State, s: SessionId, drainOf: SessionId -> Drain, t: SessionId)
    requires Known(x, drainOf) && s !in x.conns && (t in x.conns ==> t in x.polled && InOrder(x, t, drainOf))
    requires t in x.conns || t == s
    ensures InOrder(Step(x, Binds(s), drainOf), t, drainOf)
  {
    var y := Step(x, Binds(s), drainOf);
    SameHands(x, y, drainOf(t));
    if t == s {
      assert !HandOf(x, drainOf(s)).Empty? ==> HandOf(x, drainOf(s)).s in x.conns;
      PostedNothing(x.loop, s);
      assert Reached(NewConn()) == [];
      hide Known;
    } else {
      hide Known, Ordered, HandOf;
    }
  }

  lemma {:induction false} PollsKeeps(
    x: State, d: Drain, s: SessionId, data: Data, drainOf: SessionId -> Drain, t: SessionId)
    requires Enabled(x, Polls(d, s, data), drainOf)
    requires t in x.conns && t in x.polled && InOrder(x, t, drainOf)
    ensures InOrder(Step(x, Polls(d, s, data), drainOf), t, drainOf)
  {
    hide Reached, Posted, Ordered;
    if t == s {
      PollKeeps(x.conns[s], data, x.polled[s], Posted(x.loop, s));
    }
  }

  lemma {:induction false} LooksUpKeeps(x: State, d: Drain, drainOf: SessionId -> Drain, t: SessionId)
    requires HandOf(x, d).Polled? && drainOf(HandOf(x, d).s) == d
    requires t in x.conns && t in x.polled && InOrder(x, t, drainOf) && (x.conns[t].open ==> t in x.registry)
    ensures InOrder(Step(x, LooksUp(d), drainOf), t, drainOf)
  {
    hide Reached, Posted;
  }

  lemma {:induction false} PostsKeeps(x: State, d: Drain, drainOf: SessionId -> Drain, t: SessionId)
    requires HandOf(x, d).Routed? && drainOf(HandOf(x, d).s) == d
    requires t in x.conns && t in x.polled && InOrder(x, t, drainOf)
    ensures InOrder(Step(x, Posts(d), drainOf), t, drainOf)
  {
    var hand := HandOf(x, d);
    PostedSnoc(x.loop, Post(hand.s, hand.data), t);
    hide Reached, Posted, Ordered;
    if t == hand.s {
      PostKeeps(x.conns[t], hand.data, x.polled[t], Posted(x.loop, t));
    } else {
      assert Posted(x.loop, t) + [] == Posted(x.loop, t);
    }
  }

  lemma {:induction false} CallbackKeeps(x: State, drainOf: SessionId -> Drain, t: SessionId)
    requires x.loop != [] && x.loop[0].s in x.conns
    requires t in x.conns && t in x.polled && InOrder(x, t, drainOf)
    ensures InOrder(Step(x, RunsCallback, drainOf), t, drainOf)
  {
    var y, post := Step(x, RunsCallback, drainOf), x.loop[0];
    SameHands(x, y, drainOf(t));
    PostedOfHead(x.loop, t);
    hide Reached, Posted, Ordered, HandOf;
    if t == post.s {
      EnqueueKeeps(x.conns[t], post.data, x.polled[t], Posted(y.loop, t), InHand(HandOf(x, drainOf(t)), t));
    } else {
      assert [] + Posted(y.loop, t) == Posted(y.loop, t);
    }
  }

  lemma {:induction false} UnregisterKeeps(x: State, s: SessionId, drainOf: SessionId -> Drain, t: SessionId)
    requires Enabled(x, Unregisters(s), drainOf)
    requires t in x.conns && t in x.polled && InOrder(x, t, drainOf)
    ensures InOrder(Step(x, Unregisters(s), drainOf), t, drainOf)
  {
    SameHands(x, Step(x, Unregisters(s), drainOf), drainOf(t));
    hide Ordered, HandOf;
  }

  /** The connection a step works on after the step, when it works on one alone. */
  function OwnStep(x: State, a: Action, drainOf: SessionId -> Drain): Option<(SessionId, Conn)>
    requires Enabled(x, a, drainOf)
  {
    match a
    case Sends(s, data) => Some((s, Queue(x.conns[s], Reply(data))))
    case Takes(s) => Some((s, Take(x.conns[s])))
    case Writes(s) => Some((s, Write(x.conns[s])))
    case WritesNow(s, data) => Some((s, x.conns[s].(written := x.conns[s].written + [Reply(data)])))
    case SetsGate(s, gate) => Some((s, x.conns[s].(gate := gate)))
    case WriterFails(s) => Some((s, x.conns[s].(writing := false)))
    case MarksClosed(s) => Some((s, x.conns[s].(open := false, gate := true)))
    case StopsWriter(s) => Some((s, Queue(x.conns[s], Stop)))
    case _ => None
  }

  lemma {:induction false} OwnStepReaches(x: State, a: Action, drainOf: SessionId -> Drain)
    requires Enabled(x, a, drainOf) && OwnStep(x, a, drainOf).Some?
    ensures var (s, next) := OwnStep(x, a, drainOf).value;
            && s in x.conns && Step(x, a, drainOf) == x.(conns := x.conns[s := next])
            && Reached(next) == Reached(x.conns[s]) && (next.open ==> x.conns[s].open)
  {
    hide Notes;
    match a
    case Sends(s, data) => ReplyReaches(x.conns[s], Reply(data));
    case WritesNow(s, data) => ReplyReaches(x.conns[s], Reply(data));
    case StopsWriter(s) => ReplyReaches(x.conns[s], Stop);
    case Takes(s) => TakeReaches(x.conns[s]);
    case Writes(s) => WriteReaches(x.conns[s]);
    case SetsGate(_, _) | WriterFails(_) | MarksClosed(_) =>
  }

  lemma {:induction false} OwnStepKeepsKnown(x: State, s: SessionId, next: Conn, drainOf: SessionId -> Drain)
    requires Known(x, drainOf) && s in x.conns && (next.open ==> x.conns[s].open)
    ensures Known(x.(conns := x.conns[s := next]), drainOf)
  {
    var y := x.(conns := x.conns[s := next]);
    forall d ensures HandOf(y, d) == HandOf(x, d) { SameHands(x, y, d); }
    hide HandOf;
  }

  /** Who is bound after a step. */
  lemma {:induction false} BoundAfter(x: State, a: Action, drainOf: SessionId -> Drain, t: SessionId)
    requires Enabled(x, a, drainOf) && t in Step(x, a, drainOf).conns
    ensures t in x.conns || a == Binds(t)
  {}

  lemma {:induction false} StepKeepsKnown(x: State, a: Action, drainOf: SessionId -> Drain)
    requires Known(x, drainOf) && Enabled(x, a, drainOf)
    ensures Known(Step(x, a, drainOf), drainOf)
  {
    if OwnStep(x, a, drainOf).Some? {
      OwnStepReaches(x, a, drainOf);
      var (s, next) := OwnStep(x, a, drainOf).value;
      hide Known, Reached, Enabled;
      OwnStepKeepsKnown(x, s, next, drainOf);
    } else {
      match a
      case Polls(d, s, data) => HandKeepsKnown(x, Step(x, a, drainOf), d, Polled(s, data), drainOf);
      case LooksUp(d) =>
        var hand := HandOf(x, d);
        HandKeepsKnown(x, Step(x, a, drainOf), d,
                       if hand.s in x.registry then Routed(hand.s, hand.data) else Empty, drainOf);
      case Posts(d) =>
        assert HandOf(x, d).s in x.conns;
        HandKeepsKnown(x, Step(x, a, drainOf), d, Empty, drainOf);
      case RunsCallback =>
        assert x.loop[0].s in x.conns;
        SameHandsKeepKnown(x, Step(x, a, drainOf), drainOf);
      case Binds(_) | Unregisters(_) => SameHandsKeepKnown(x, Step(x, a, drainOf), drainOf);
    }
  }

  lemma {:induction false} HandKeepsKnown(x: State, y: State, d: Drain, hand: Hand, drainOf: SessionId -> Drain)
    requires Known(x, drainOf) && y.hands == x.hands[d := hand]
    requires y.conns == x.conns && y.registry == x.registry && y.polled.Keys == x.polled.Keys
    requires !hand.Empty? ==> hand.s in x.conns && drainOf(hand.s) == d
    requires forall p :: p in y.loop ==> p.s in x.conns
    ensures Known(y, drainOf)
  {
    forall e ensures HandOf(y, e) == if e == d then hand else HandOf(x, e) {}
    hide HandOf;
  }

  lemma {:induction false} SameHandsKeepKnown(x: State, y: State, drainOf: SessionId -> Drain)
    requires Known(x, drainOf) && y.hands == x.hands && x.conns.Keys <= y.conns.Keys == y.polled.Keys
    requires forall p :: p in y.loop ==> p in x.loop
    requires forall s :: s in y.conns && y.conns[s].open ==> s in y.registry
    ensures Known(y, drainOf)
  {
    forall e { SameHands(x, y, e); }
    hide HandOf;
  }

  lemma {:induction false} StepKeepsOrder(x: State, a: Action, drainOf: SessionId -> Drain, t: SessionId)
    requires Inv(x, drainOf) && Enabled(x, a, drainOf) && (t in x.conns || a == Binds(t))
    ensures var y := Step(x, a, drainOf); t in y.conns && t in y.polled && InOrder(y, t, drainOf)
  {
    assert t in x.conns ==> InOrder(x, t, drainOf);
    hide InOrder, Reached;
    if OwnStep(x, a, drainOf).Some? {
      OwnStepReaches(x, a, drainOf);
      var (s, next) := OwnStep(x, a, drainOf).value;
      hide Step, Enabled;
      OwnStepKeeps(x, s, next, drainOf, t);
    } else {
      ElsewhereKeepsOrder(x, a, drainOf, t);
    }
  }

  lemma {:induction false} ElsewhereKeepsOrder(x: State, a: Action, drainOf: SessionId -> Drain, t: SessionId)
    requires Known(x, drainOf) && Enabled(x, a, drainOf) && OwnStep(x, a, drainOf).None?
    requires if t in x.conns then InOrder(x, t, drainOf) else a == Binds(t)
    ensures var y := Step(x, a, drainOf); t in y.conns && t in y.polled && InOrder(y, t, drainOf)
  {
    hide InOrder;
    match a
    case Binds(s) => BindKeeps(x, s, drainOf, t);
    case Polls(d, s, data) => PollsKeeps(x, d, s, data, drainOf, t);
    case LooksUp(d) => LooksUpKeeps(x, d, drainOf, t);
    case Posts(d) => PostsKeeps(x, d, drainOf, t);
    case RunsCallback =>
      assert x.loop[0] in x.loop;
      CallbackKeeps(x, drainOf, t);
    case Unregisters(s) => UnregisterKeeps(x, s, drainOf, t);
  }

  lemma {:induction false} StepKeeps(x: State, a: Action, drainOf: SessionId -> Drain)
    requires Inv(x, drainOf) && Enabled(x, a, drainOf)
    ensures Inv(Step(x, a, drainOf), drainOf)
  {
    StepKeepsKnown(x, a, drainOf);
    hide InOrder, Known, Step, Enabled;
    forall t | t in Step(x, a, drainOf).conns
      ensures t in Step(x, a, drainOf).polled && InOrder(Step(x, a, drainOf), t, drainOf)
    {
      BoundAfter(x, a, drainOf, t);
      StepKeepsOrder(x, a, drainOf, t);
    }
  }

  lemma {:induction false} RunKeeps(actions: seq<Action>, drainOf: SessionId -> Drain)
    requires Execute(actions, drainOf).At?
    ensures Inv(Execute(actions, drainOf).x, drainOf)
  {
    if actions != [] {
      var n := |actions| - 1;
      RunKeeps(actions[..n], drainOf);
      StepKeeps(Execute(actions[..n], drainOf).x, actions[n], drainOf);
    }
  }

  /** What is written on a connection is always the beginning of what was polled for its session,
      in every interleaving; and while the connection is open nothing polled is lost. */
  lemma {:induction false} WrittenIsPrefixOfPolled(actions: seq<Action>, drainOf: SessionId -> Drain, s: SessionId)
    requires Execute(actions, drainOf).At? && s in Execute(actions, drainOf).x.conns
    ensures var x := Execute(actions, drainOf).x;
            && s in x.polled && Notes(x.conns[s].written) <= x.polled[s]
            && (x.conns[s].open ==>
                  x.polled[s] == Notes(x.conns[s].written) + Held(x.conns[s].hold) + Notes(x.conns[s].queue)
                                 + Posted(x.loop, s) + InHand(HandOf(x, drainOf(s)), s))
  {
    RunKeeps(actions, drainOf);
    var x := Execute(actions, drainOf).x;
    assert InOrder(x, s, drainOf);
  }

  /** A closed connection takes no more notifications, even those whose connection the drain
      thread had looked up before. */
  lemma {:induction false} ClosedTakesNothing(x: State, a: Action, drainOf: SessionId -> Drain, s: SessionId)
    requires Inv(x, drainOf) && Enabled(x, a, drainOf) && s in x.conns && !x.conns[s].open
    ensures var y := Step(x, a, drainOf);
            s in y.conns && !y.conns[s].open && Reached(y.conns[s]) == Reached(x.conns[s])
  {
    hide Reached;
    if OwnStep(x, a, drainOf).Some? {
      OwnStepReaches(x, a, drainOf);
      hide Step, Enabled;
    }
  }

  /** The steps that can open the session's gate. */
  predicate Opens(a: Action, s: SessionId) {
    a == SetsGate(s, true) || a == MarksClosed(s)
  }

  lemma {:induction false} ClosedGateStep(x: State, a: Action, drainOf: SessionId -> Drain, s: SessionId)
    requires Enabled(x, a, drainOf) && s in x.conns && !x.conns[s].gate && !Opens(a, s)
    ensures var y := Step(x, a, drainOf);
            s in y.conns && !y.conns[s].gate && Notes(y.conns[s].written) == Notes(x.conns[s].written)
  {
    if a.WritesNow? && a.s == s {
      NotesSnoc(x.conns[s].written, Reply(a.data));
    }
    hide Notes;
  }

  /** While a session's gate stays closed, as it does for a raw transfer, no step of anybody puts
      one of its notifications on the wire. */
  lemma {:induction false} GateHoldsTheWriter(
    x: State, actions: seq<Action>, drainOf: SessionId -> Drain, s: SessionId)
    requires s in x.conns && !x.conns[s].gate && From(x, actions, drainOf).At?
    requires forall a :: a in actions ==> !Opens(a, s)
    ensures var y := From(x, actions, drainOf).x;
            s in y.conns && !y.conns[s].gate && Notes(y.conns[s].written) == Notes(x.conns[s].written)
  {
    if actions != [] {
      var n := |actions| - 1;
      GateHoldsTheWriter(x, actions[..n], drainOf, s);
      assert actions[n] in actions;
      ClosedGateStep(From(x, actions[..n], drainOf).x, actions[n], drainOf, s);
    }
  }

  lemma {:induction false} FromHead(x: State, a: Action, rest: seq<Action>, drainOf: SessionId -> Drain)
    requires Enabled(x, a, drainOf)
    ensures From(x, [a] + rest, drainOf) == From(Step(x, a, drainOf), rest, drainOf)
  {
    var all := [a] + rest;
    if rest == [] {
      assert all == [a] && all[..0] == [];
    } else {
      var n := |rest| - 1;
      assert all[..|all| - 1] == [a] + rest[..n];
      FromHead(x, a, rest[..n], drainOf);
    }
  }

  lemma {:induction false} OneMoreStep(x: State, actions: seq<Action>, a: Action, drainOf: SessionId -> Drain)
    requires From(x, actions, drainOf).At? && Enabled(From(x, actions, drainOf).x, a, drainOf)
    ensures From(x, actions + [a], drainOf) == At(Step(From(x, actions, drainOf).x, a, drainOf))
  {
    assert (actions + [a])[..|actions|] == actions;
  }

  lemma {:induction false} Then(x: State, actions: seq<Action>, a: Action, drainOf: SessionId -> Drain)
    returns (more: seq<Action>)
    requires From(x, actions, drainOf).At? && Enabled(From(x, actions, drainOf).x, a, drainOf)
    ensures From(x, more, drainOf) == At(Step(From(x, actions, drainOf).x, a, drainOf))
  {
    OneMoreStep(x, actions, a, drainOf);
    more := actions + [a];
  }

  lemma {:induction false} NoteCanBeQueued(x: State, s: SessionId, data: Data, drainOf: SessionId -> Drain)
    returns (actions: seq<Action>)
    requires s !in x.conns && HandOf(x, drainOf(s)).Empty? && x.loop == []
    ensures From(x, actions, drainOf).At? && s in From(x, actions, drainOf).x.conns
    ensures From(x, actions, drainOf).x.conns[s] == Conn(true, true, [Note(data)], None, true, [])
  {
    var d := drainOf(s);
    actions := Then(x, [], Binds(s), drainOf);
    hide From;
    actions := Then(x, actions, Polls(d, s, data), drainOf);
    actions := Then(x, actions, LooksUp(d), drainOf);
    actions := Then(x, actions, Posts(d), drainOf);
    actions := Then(x, actions, RunsCallback, drainOf);
  }

  /** A session that is bound can be sent a notification, and some run writes it.  A frame of a
      transfer goes out although the gate is closed. */
  lemma {:induction false} NoteCanArrive(x: State, s: SessionId, data: Data, drainOf: SessionId -> Drain)
    returns (actions: seq<Action>)
    requires s !in x.conns && HandOf(x, drainOf(s)).Empty? && x.loop == []
    ensures From(x, actions, drainOf).At? && s in From(x, actions, drainOf).x.conns
    ensures From(x, actions, drainOf).x.conns[s].written == [Note(data), Reply(data)]
  {
    actions := NoteCanBeQueued(x, s, data, drainOf);
    hide From, HandOf;
    actions := Then(x, actions, Takes(s), drainOf);
    actions := Then(x, actions, Writes(s), drainOf);
    actions := Then(x, actions, SetsGate(s, false), drainOf);
    actions := Then(x, actions, WritesNow(s, data), drainOf);
  }
}
