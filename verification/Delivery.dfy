/** One protocol's back channel joined with the way to the wire: its drain thread polls the
    queue, and a session has messages only once its connection is bound. */
module Delivery {
  import opened Filters
  import B = BackChannel
  import R = BackChannelRuns
  import BackChannelSafety
  import W = WireOrder

  type SessionId = B.SessionId

  /** A locked block of the protocol, a step on the way to the wire, or a poll of this protocol's
      drain thread, which is both at once. */
  datatype Action = Engine(a: R.Action) | Hop(hop: W.Action) | Drains

  /** The joint state, with the steps each of the two machines has made. */
  datatype State = State(run: R.Run, x: W.State, steps: seq<R.Action>, hops: seq<W.Action>)

  /** The sessions of drain `d`'s protocol whose connection is bound. */
  function Bound(x: W.State, drainOf: SessionId -> W.Drain, d: W.Drain): set<SessionId> {
    set s | s in x.conns && drainOf(s) == d
  }

  /** Only a message dispatched on a bound connection begins a request or subscribes; between two
      polls the drain thread hands its message over. */
  predicate Enabled(st: State, a: Action, drainOf: SessionId -> W.Drain, d: W.Drain) {
    match a
    case Engine(a) =>
      && R.Enabled(st.run, a) && !a.Polls?
      && (a.Begins? ==> a.session in Bound(st.x, drainOf, d))
      && (a.Subscribes? ==> a.sub.session in Bound(st.x, drainOf, d))
    case Hop(hop) => W.Enabled(st.x, hop, drainOf) && (hop.Polls? ==> hop.d != d)
    case Drains =>
      && W.HandOf(st.x, d).Empty?
      && (st.run.now.outbound != [] ==> W.Enabled(st.x, Polled(d, st.run.now.outbound[0]), drainOf))
  }

  function Polled(d: W.Drain, e: B.Entry): W.Action {
    W.Polls(d, e.session, e.data)
  }

  function Step(st: State, a: Action, drainOf: SessionId -> W.Drain, d: W.Drain): State
    requires Enabled(st, a, drainOf, d)
  {
    match a
    case Engine(a) => st.(run := R.Step(st.run, a), steps := st.steps + [a])
    case Hop(hop) => st.(x := W.Step(st.x, hop, drainOf), hops := st.hops + [hop])
    case Drains =>
      var polled := st.(run := R.Step(st.run, R.Polls), steps := st.steps + [R.Polls]);
      if st.run.now.outbound == [] then polled
      else
        var hop := Polled(d, st.run.now.outbound[0]);
        polled.(x := W.Step(st.x, hop, drainOf), hops := st.hops + [hop])
  }

  datatype Execution = Stuck | At(st: State)

  function Execute(actions: seq<Action>, drainOf: SessionId -> W.Drain, d: W.Drain): Execution {
    if actions == [] then At(State(R.Start(), W.Start(), [], []))
    else
      var n := |actions| - 1;
      match Execute(actions[..n], drainOf, d)
      case Stuck => Stuck
      case At(st) => if Enabled(st, actions[n], drainOf, d) then At(Step(st, actions[n], drainOf, d)) else Stuck
  }

  function ForSession(s: SessionId): B.Entry -> bool {
    (e: B.Entry) => e.session == s
  }

  function Payloads(entries: seq<B.Entry>): seq<B.Payload> {
    seq(|entries|, i requires 0 <= i < |entries| => entries[i].data)
  }

  predicate EntriesOf(entries: seq<B.Entry>, bound: set<SessionId>) {
    forall e :: e in entries ==> e.session in bound
  }

  predicate SubsOf(subs: seq<B.Sub>, bound: set<SessionId>) {
    forall sub :: sub in subs ==> sub.session in bound
  }

  /** Whatever the back channel can send to is bound. */
  ghost predicate SendsTo(now: B.State, bound: set<SessionId>) {
    && EntriesOf(now.outbound, bound)
    && (forall r :: r in now.inflight ==> now.inflight[r].session in bound)
    && (forall t :: t in now.subs ==> SubsOf(now.subs[t], bound))
  }

  /** What was polled for a session is what the protocol's polls returned for it. */
  predicate PolledFrom(x: W.State, out: seq<B.Entry>, bound: set<SessionId>)
    requires bound <= x.polled.Keys
  {
    forall s :: s in bound ==> x.polled[s] == Payloads(Filter(out, ForSession(s)))
  }

  ghost predicate Inv(st: State, drainOf: SessionId -> W.Drain, d: W.Drain) {
    var bound := Bound(st.x, drainOf, d);
    && R.Execute(st.steps) == R.At(st.run) && W.Execute(st.hops, drainOf) == W.At(st.x)
    && SendsTo(st.run.now, bound) && EntriesOf(st.run.out, bound)
    && bound <= st.x.polled.Keys && PolledFrom(st.x, st.run.out, bound)
  }

  // ---- proofs ---------------------------------------------------------------------------------------

  lemma {:induction false} OneMoreStep(steps: seq<R.Action>, a: R.Action)
    requires R.Execute(steps).At? && R.Enabled(R.Execute(steps).run, a)
    ensures R.Execute(steps + [a]) == R.At(R.Step(R.Execute(steps).run, a))
  {
    assert (steps + [a])[..|steps|] == steps;
  }

  lemma {:induction false} OneMoreHop(hops: seq<W.Action>, a: W.Action, drainOf: SessionId -> W.Drain)
    requires W.Execute(hops, drainOf).At? && W.Enabled(W.Execute(hops, drainOf).x, a, drainOf)
    ensures W.Execute(hops + [a], drainOf) == W.At(W.Step(W.Execute(hops, drainOf).x, a, drainOf))
  {
    assert (hops + [a])[..|hops|] == hops;
  }

  lemma {:induction false} FilteredSubsOf(subs: B.Subs, keep: B.Sub -> bool, bound: set<SessionId>)
    requires forall t :: t in subs ==> SubsOf(subs[t], bound)
    ensures var left := B.FilterSubs(subs, keep); forall t :: t in left ==> SubsOf(left[t], bound)
  {}

  /** No locked block but a poll's changes what the polls returned, and none makes the protocol
      send to a session that is not bound. */
  lemma {:induction false} EngineKeeps(run: R.Run, a: R.Action, bound: set<SessionId>)
    requires SendsTo(run.now, bound) && R.Enabled(run, a) && !a.Polls?
    requires (a.Begins? ==> a.session in bound) && (a.Subscribes? ==> a.sub.session in bound)
    ensures SendsTo(R.Step(run, a).now, bound) && R.Step(run, a).out == run.out
  {
    match a
    case Unsubscribes(id) => FilteredSubsOf(run.now.subs, B.NotId(id), bound);
    case UnsubscribesAll(s) => FilteredSubsOf(run.now.subs, B.NotOwnedBy(s), bound);
    case Subscribes(t, sub) =>
      assert SubsOf(B.OnTopic(run.now.subs, t) + [sub], bound);
    case Publishes(t, data) =>
      assert SubsOf(B.OnTopic(run.now.subs, t), bound);
      assert EntriesOf(B.Fanout(B.OnTopic(run.now.subs, t), data), bound);
    case _ =>
  }

  lemma {:induction false} EngineStepKeeps(st: State, a: R.Action, drainOf: SessionId -> W.Drain, d: W.Drain)
    requires Inv(st, drainOf, d) && Enabled(st, Engine(a), drainOf, d)
    ensures Inv(Step(st, Engine(a), drainOf, d), drainOf, d)
  {
    EngineKeeps(st.run, a, Bound(st.x, drainOf, d));
    OneMoreStep(st.steps, a);
    hide SendsTo, R.Step, R.Enabled, R.Execute, W.Execute;
  }

  /** A hop polls for no session of this drain, and a session that is bound anew has had nothing. */
  lemma {:induction false} HopKeepsPolled(
    x: W.State, hop: W.Action, drainOf: SessionId -> W.Drain, d: W.Drain, s: SessionId)
    requires W.Known(x, drainOf) && W.Enabled(x, hop, drainOf) && (hop.Polls? ==> hop.d != d)
    requires s in Bound(W.Step(x, hop, drainOf), drainOf, d)
    ensures var y := W.Step(x, hop, drainOf);
            && s in y.polled
            && if s in Bound(x, drainOf, d) then s in x.polled && y.polled[s] == x.polled[s] else y.polled[s] == []
  {}

  lemma {:induction false} HopBindsMore(x: W.State, hop: W.Action, drainOf: SessionId -> W.Drain, d: W.Drain)
    requires W.Enabled(x, hop, drainOf)
    ensures Bound(x, drainOf, d) <= Bound(W.Step(x, hop, drainOf), drainOf, d)
  {}

  lemma {:induction false} MoreBound(now: B.State, out: seq<B.Entry>, bound: set<SessionId>, more: set<SessionId>)
    requires SendsTo(now, bound) && EntriesOf(out, bound) && bound <= more
    ensures SendsTo(now, more) && EntriesOf(out, more)
  {
    forall t | t in now.subs ensures SubsOf(now.subs[t], more) {
      assert SubsOf(now.subs[t], bound);
    }
  }

  lemma {:induction false} HopKeepsPolledFrom(
    x: W.State, hop: W.Action, out: seq<B.Entry>, drainOf: SessionId -> W.Drain, d: W.Drain)
    requires W.Known(x, drainOf) && W.Enabled(x, hop, drainOf) && (hop.Polls? ==> hop.d != d)
    requires EntriesOf(out, Bound(x, drainOf, d))
    requires Bound(x, drainOf, d) <= x.polled.Keys && PolledFrom(x, out, Bound(x, drainOf, d))
    ensures var y := W.Step(x, hop, drainOf);
            Bound(y, drainOf, d) <= y.polled.Keys && PolledFrom(y, out, Bound(y, drainOf, d))
  {
    var y := W.Step(x, hop, drainOf);
    hide W.Step, W.Enabled, W.Known;
    forall s | s in Bound(y, drainOf, d) ensures s in y.polled && y.polled[s] == Payloads(Filter(out, ForSession(s))) {
      HopKeepsPolled(x, hop, drainOf, d, s);
      if s !in Bound(x, drainOf, d) {
        FilterNone(out, ForSession(s));
      }
    }
  }

  lemma {:induction false} HopStepKeeps(st: State, hop: W.Action, drainOf: SessionId -> W.Drain, d: W.Drain)
    requires Inv(st, drainOf, d) && Enabled(st, Hop(hop), drainOf, d)
    ensures Inv(Step(st, Hop(hop), drainOf, d), drainOf, d)
  {
    W.RunKeeps(st.hops, drainOf);
    hide SendsTo, EntriesOf, PolledFrom, W.Step, W.Enabled, R.Execute, W.Execute;
    OneMoreHop(st.hops, hop, drainOf);
    HopBindsMore(st.x, hop, drainOf, d);
    MoreBound(st.run.now, st.run.out, Bound(st.x, drainOf, d), Bound(W.Step(st.x, hop, drainOf), drainOf, d));
    HopKeepsPolledFrom(st.x, hop, st.run.out, drainOf, d);
  }

  /** A poll takes the oldest message of the queue, for a session that is bound. */
  lemma {:induction false} PollTakesHead(run: R.Run, bound: set<SessionId>)
    requires R.Inv(run) && SendsTo(run.now, bound) && EntriesOf(run.out, bound)
    ensures var next := R.Step(run, R.Polls);
            && SendsTo(next.now, bound) && EntriesOf(next.out, bound)
            && (run.now.outbound == [] ==> next == run)
            && (run.now.outbound != [] ==>
                  next.out == run.out + [run.now.outbound[0]] && run.now.outbound[0].session in bound)
  {}

  lemma {:induction false} DrainIsNeverStuck(st: State, drainOf: SessionId -> W.Drain, d: W.Drain)
    requires Inv(st, drainOf, d) && W.HandOf(st.x, d).Empty?
    ensures Enabled(st, Drains, drainOf, d)
  {
    if st.run.now.outbound != [] {
      assert st.run.now.outbound[0].session in Bound(st.x, drainOf, d);
    }
  }

  lemma {:induction false} PolledOneMore(
    x: W.State, out: seq<B.Entry>, e: B.Entry, drainOf: SessionId -> W.Drain, d: W.Drain)
    requires W.Enabled(x, Polled(d, e), drainOf)
    requires Bound(x, drainOf, d) <= x.polled.Keys && PolledFrom(x, out, Bound(x, drainOf, d))
    ensures var y := W.Step(x, Polled(d, e), drainOf);
            && Bound(y, drainOf, d) == Bound(x, drainOf, d) <= y.polled.Keys
            && PolledFrom(y, out + [e], Bound(y, drainOf, d))
  {
    var y := W.Step(x, Polled(d, e), drainOf);
    forall s | s in Bound(y, drainOf, d) ensures y.polled[s] == Payloads(Filter(out + [e], ForSession(s))) {
      FilterSnoc(out, e, ForSession(s));
      if s == e.session {
        assert Payloads(Filter(out, ForSession(s)) + [e]) == Payloads(Filter(out, ForSession(s))) + [e.data];
      } else {
        assert Filter(out, ForSession(s)) + [] == Filter(out, ForSession(s));
      }
    }
  }

  lemma {:induction false} DrainStepKeeps(st: State, drainOf: SessionId -> W.Drain, d: W.Drain)
    requires Inv(st, drainOf, d) && Enabled(st, Drains, drainOf, d)
    ensures Inv(Step(st, Drains, drainOf, d), drainOf, d)
  {
    BackChannelSafety.RunKeepsInvariant(st.steps);
    PollTakesHead(st.run, Bound(st.x, drainOf, d));
    OneMoreStep(st.steps, R.Polls);
    if st.run.now.outbound != [] {
      var e := st.run.now.outbound[0];
      OneMoreHop(st.hops, Polled(d, e), drainOf);
      PolledOneMore(st.x, st.run.out, e, drainOf, d);
    }
    hide SendsTo, EntriesOf, PolledFrom, R.Step, R.Inv, W.Step, W.Enabled, R.Execute, W.Execute;
  }

  lemma {:induction false} RunKeeps(actions: seq<Action>, drainOf: SessionId -> W.Drain, d: W.Drain)
    requires Execute(actions, drainOf, d).At?
    ensures Inv(Execute(actions, drainOf, d).st, drainOf, d)
  {
    if actions != [] {
      var n := |actions| - 1;
      RunKeeps(actions[..n], drainOf, d);
      var st := Execute(actions[..n], drainOf, d).st;
      hide Inv, Enabled, Step;
      match actions[n]
      case Engine(a) => EngineStepKeeps(st, a, drainOf, d);
      case Hop(hop) => HopStepKeeps(st, hop, drainOf, d);
      case Drains => DrainStepKeeps(st, drainOf, d);
    }
  }
}
