/** Facts about every interleaving of the back channel's locked blocks. */
module BackChannelRuns {
  import opened Options
  import opened Filters
  import opened BackChannel

  datatype Action =
    | Begins(r: Id, session: SessionId, cancellable: bool)
    | Progresses(r: Id, data: Payload)
    | Completes(r: Id)
    | Signals(r: Id)
    | Publishes(topic: Topic, data: Payload)
    | Subscribes(topic: Topic, sub: Sub)
    | Unsubscribes(id: Id)
    | UnsubscribesAll(session: SessionId)
    | Polls

  datatype Registration = Registration(topic: Topic, sub: Sub)

  /** A state with its history: everything ever enqueued, the places in that log of what was
      delivered and of what is queued, the places purged with the request they were purged for,
      what the polls returned, and all subscriptions ever made and those dropped since. */
  datatype Run = Run(
    now: State, log: seq<Entry>, delivered: seq<nat>, queued: seq<nat>, purged: map<nat, Id>,
    out: seq<Entry>, begun: set<Id>, made: seq<Registration>, gone: set<Id>)

  function Start(): Run {
    Run(State([], map[], map[]), [], [], [], map[], [], {}, [], {})
  }

  function MadeIds(made: seq<Registration>): set<Id> {
    set i | 0 <= i < |made| :: made[i].sub.id
  }

  /** A request completes once and ids are fresh UUIDs; anything else can happen at any time. */
  predicate Enabled(run: Run, a: Action) {
    match a
    case Begins(r, _, _) => r !in run.begun
    case Completes(r) => r in run.now.inflight
    case Signals(r) => r in run.now.inflight && run.now.inflight[r].cancelled.Some?
    case Subscribes(_, sub) => sub.id !in MadeIds(run.made)
    case _ => true
  }

  function After(run: Run, a: Action): State
    requires Enabled(run, a)
  {
    match a
    case Begins(r, session, cancellable) => Begin(run.now, r, session, cancellable)
    case Progresses(r, data) => Progress(run.now, r, data)
    case Completes(r) => Complete(run.now, r)
    case Signals(r) => Signal(run.now, r)
    case Publishes(t, data) => Publish(run.now, t, data)
    case Subscribes(t, sub) => Subscribe(run.now, t, sub)
    case Unsubscribes(id) => Unsubscribe(run.now, id)
    case UnsubscribesAll(session) => UnsubscribeAll(run.now, session)
    case Polls => Poll(run.now)
  }

  function Enqueued(s: State, a: Action): seq<Entry> {
    match a
    case Progresses(r, data) =>
      if r in s.inflight then [Entry(s.inflight[r].session, Some(r), data)] else []
    case Publishes(t, data) => Fanout(OnTopic(s.subs, t), data)
    case _ => []
  }

  /** The places of the queue that a completion leaves. */
  function Left(run: Run, r: Id): seq<nat>
    requires r in run.now.inflight
  {
    if run.now.inflight[r].count == 0 then run.queued
    else Filter(run.queued, KeepAt(run.log, NotProgressOf(r)))
  }

  function OwnedIds(made: seq<Registration>, session: SessionId): set<Id> {
    set i | 0 <= i < |made| && made[i].sub.session == session :: made[i].sub.id
  }

  function Step(run: Run, a: Action): Run
    requires Enabled(run, a)
  {
    var next := run.(now := After(run, a));
    match a
    case Begins(r, _, _) => next.(begun := run.begun + {r})
    case Progresses(_, _) => Log(next, Enqueued(run.now, a))
    case Publishes(_, _) => Log(next, Enqueued(run.now, a))
    case Completes(r) =>
      var left := Left(run, r);
      next.(queued := left, purged := run.purged + map k | k in run.queued && k !in left :: r)
    case Subscribes(t, sub) => next.(made := run.made + [Registration(t, sub)])
    case Unsubscribes(id) => next.(gone := run.gone + ({id} * MadeIds(run.made)))
    case UnsubscribesAll(session) => next.(gone := run.gone + OwnedIds(run.made, session))
    case Polls =>
      if run.now.outbound == [] || run.queued == [] then next
      else next.(delivered := run.delivered + [run.queued[0]], queued := run.queued[1..],
                 out := run.out + [run.now.outbound[0]])
    case Signals(_) => next
  }

  function Log(run: Run, more: seq<Entry>): Run {
    run.(log := run.log + more, queued := run.queued + Places(|run.log|, |more|))
  }

  datatype Execution = Stuck | At(run: Run)

  function Execute(actions: seq<Action>): Execution {
    if actions == [] then At(Start())
    else
      var n := |actions| - 1;
      match Execute(actions[..n])
      case Stuck => Stuck
      case At(run) => if Enabled(run, actions[n]) then At(Step(run, actions[n])) else Stuck
  }

  // ---- the invariant -------------------------------------------------------------------------

  function ProgressOf(r: Id): Entry -> bool {
    (e: Entry) => e.request == Some(r)
  }

  /** How many messages of a request a queue holds. */
  function Tally(q: seq<Entry>, r: Id): nat {
    |Filter(q, ProgressOf(r))|
  }

  /** The queue and what was delivered are what the log has at their places, in order. */
  predicate InOrder(run: Run) {
    && Indexes(run.delivered + run.queued, |run.log|) && Increasing(run.delivered + run.queued)
    && Indexes(run.queued, |run.log|) && run.now.outbound == Pick(run.log, run.queued)
    && Indexes(run.delivered, |run.log|) && run.out == Pick(run.log, run.delivered)
  }

  /** Each of the first `n` places has exactly one of the three fates. */
  predicate Fates(n: nat, delivered: seq<nat>, queued: seq<nat>, purged: map<nat, Id>) {
    && (forall k :: 0 <= k < n ==> k in delivered || k in queued || k in purged)
    && (forall k :: k in purged ==> k < n && k !in delivered && k !in queued)
    && (forall k :: k in delivered ==> k !in queued)
  }

  predicate Conserved(run: Run) {
    Fates(|run.log|, run.delivered, run.queued, run.purged)
  }

  /** A purged message was progress of the request it was purged for, which has completed. */
  predicate PurgesOwn(log: seq<Entry>, purged: map<nat, Id>, done: set<Id>) {
    forall k :: k in purged ==> k < |log| && log[k].request == Some(purged[k]) && purged[k] in done
  }

  function Done(run: Run): set<Id> {
    run.begun - run.now.inflight.Keys
  }

  /** Queued progress belongs to a request in flight and goes to its session. */
  predicate Belongs(outbound: seq<Entry>, inflight: map<Id, Flight>) {
    forall e :: e in outbound && e.request.Some? ==>
      e.request.value in inflight && inflight[e.request.value].session == e.session
  }

  /** A request's count is the number of messages it ever emitted and bounds those queued. */
  predicate Tallied(outbound: seq<Entry>, inflight: map<Id, Flight>, log: seq<Entry>) {
    forall r :: r in inflight ==> Tally(outbound, r) <= inflight[r].count == Tally(log, r)
  }

  predicate Counted(run: Run) {
    && Belongs(run.now.outbound, run.now.inflight) && Tallied(run.now.outbound, run.now.inflight, run.log)
    && run.now.inflight.Keys <= run.begun
    && forall e :: e in run.log && e.request.Some? ==> e.request.value in run.begun
  }

  /** The subscriptions of a topic that were made and not dropped, oldest first. */
  function Live(made: seq<Registration>, gone: set<Id>, t: Topic): seq<Sub> {
    if made == [] then []
    else
      var n := |made| - 1;
      Live(made[..n], gone, t) +
      (if made[n].topic == t && made[n].sub.id !in gone then [made[n].sub] else [])
  }

  ghost predicate Subscribed(run: Run) {
    && (forall i, j :: 0 <= i < j < |run.made| ==> run.made[i].sub.id != run.made[j].sub.id)
    && run.gone <= MadeIds(run.made)
    && (forall t :: OnTopic(run.now.subs, t) == Live(run.made, run.gone, t))
  }

  ghost predicate Inv(run: Run) {
    InOrder(run) && Conserved(run) && PurgesOwn(run.log, run.purged, Done(run)) && Counted(run) && Subscribed(run)
  }
}
