/** The joint machine gets things done: what a session subscribed to reaches its connection. */
module DeliveryRuns {
  import opened Options
  import opened Filters
  import opened Delivery

  lemma {:induction false} Then(
    before: seq<Action>, a: Action, drainOf: SessionId -> W.Drain, d: W.Drain)
    returns (actions: seq<Action>)
    requires Execute(before, drainOf, d).At? && Enabled(Execute(before, drainOf, d).st, a, drainOf, d)
    ensures Execute(actions, drainOf, d) == At(Step(Execute(before, drainOf, d).st, a, drainOf, d))
  {
    actions := before + [a];
    assert actions[..|before|] == before;
  }

  /** A bound session subscribes, and a message is published on its topic. */
  lemma {:induction false} Published(
    s: SessionId, t: B.Topic, id: B.Id, data: B.Payload, drainOf: SessionId -> W.Drain, d: W.Drain)
    returns (actions: seq<Action>)
    requires drainOf(s) == d
    ensures Execute(actions, drainOf, d).At?
    ensures var st := Execute(actions, drainOf, d).st;
            && st.run.now.outbound == [B.Entry(s, None, data)] && st.run.queued == [0]
            && st.x == W.Step(W.Start(), W.Binds(s), drainOf)
  {
    actions := Then([], Hop(W.Binds(s)), drainOf, d);
    hide Execute;
    assert R.MadeIds([]) == {};
    actions := Then(actions, Engine(R.Subscribes(t, B.Sub(id, s))), drainOf, d);
    actions := Then(actions, Engine(R.Publishes(t, data)), drainOf, d);
    assert B.Fanout([B.Sub(id, s)], data) == [B.Entry(s, None, data)] && Places(0, 1) == [0];
  }

  /** From the queue through the drain thread and the loop to the connection's own queue. */
  lemma {:induction false} Routed(
    s: SessionId, t: B.Topic, id: B.Id, data: B.Payload, drainOf: SessionId -> W.Drain, d: W.Drain)
    returns (actions: seq<Action>)
    requires drainOf(s) == d
    ensures Execute(actions, drainOf, d).At?
    ensures var x := Execute(actions, drainOf, d).st.x;
            s in x.conns && x.conns[s] == W.Conn(true, true, [W.Note(data)], None, true, [])
  {
    actions := Published(s, t, id, data, drainOf, d);
    hide Execute, R.Step;
    actions := Then(actions, Drains, drainOf, d);
    actions := Then(actions, Hop(W.LooksUp(d)), drainOf, d);
    actions := Then(actions, Hop(W.Posts(d)), drainOf, d);
    actions := Then(actions, Hop(W.RunsCallback), drainOf, d);
  }

  /** Some joint run writes what was published to the session that subscribed. */
  lemma {:induction false} PublishedIsWritten(
    s: SessionId, t: B.Topic, id: B.Id, data: B.Payload, drainOf: SessionId -> W.Drain, d: W.Drain)
    returns (actions: seq<Action>)
    requires drainOf(s) == d
    ensures Execute(actions, drainOf, d).At?
    ensures var x := Execute(actions, drainOf, d).st.x;
            s in x.conns && x.conns[s] == W.Conn(true, true, [], None, true, [W.Note(data)])
  {
    actions := Routed(s, t, id, data, drainOf, d);
    hide Execute, W.HandOf;
    actions := Then(actions, Hop(W.Takes(s)), drainOf, d);
    actions := Then(actions, Hop(W.Writes(s)), drainOf, d);
  }
}
