/** The client's subscription index: callbacks registered by topic, before the server has said
    which id the subscription got. */
module ClientSubs {
  import opened Options

  type Topic(==, !new)
  type Callback(==, !new)
  type SubId(==, !new)
  type Ticket(==, !new)

  /** A callback on a topic. */
  datatype Wish = Wish(topic: Topic, callback: Callback)

  type Topics = map<Topic, seq<Callback>>

  /** `waiting` are the subscribes sent with a callback and not yet answered. */
  datatype State = State(topics: Topics, ids: map<SubId, Wish>, waiting: map<Ticket, Wish>)

  function OnTopic(topics: Topics, t: Topic): seq<Callback> {
    if t in topics then topics[t] else []
  }

  function WithoutFirst(list: seq<Callback>, callback: Callback): seq<Callback> {
    if list == [] then [] else if list[0] == callback then list[1..] else [list[0]] + WithoutFirst(list[1..], callback)
  }

  function AddCallback(topics: Topics, w: Wish): Topics {
    topics[w.topic := OnTopic(topics, w.topic) + [w.callback]]
  }

  /** `_drop_cb`: a list that becomes empty goes with its topic. */
  function DropCallback(topics: Topics, w: Wish): Topics {
    if w.topic in topics && w.callback in topics[w.topic] then
      var left := WithoutFirst(topics[w.topic], w.callback);
      if left == [] then topics - {w.topic} else topics[w.topic := left]
    else topics
  }

  /** A subscribe registers its callback before it is sent. */
  function Ask(s: State, k: Ticket, w: Wish): State {
    State(AddCallback(s.topics, w), s.ids, s.waiting[k := w])
  }

  function Fail(s: State, k: Ticket): State
    requires k in s.waiting
  {
    State(DropCallback(s.topics, s.waiting[k]), s.ids, s.waiting - {k})
  }

  /** The server's answer; a result that is no string gives no id. */
  function Ack(s: State, k: Ticket, id: Option<SubId>): State
    requires k in s.waiting
  {
    State(s.topics, if id.Some? then s.ids[id.value := s.waiting[k]] else s.ids, s.waiting - {k})
  }

  /** `_remove_sub`. */
  function Forget(s: State, id: SubId): State {
    if id in s.ids then State(DropCallback(s.topics, s.ids[id]), s.ids - {id}, s.waiting) else s
  }

  // ---- the index is exact ---------------------------------------------------------------------------

  function Waiters(s: State, w: Wish): set<Ticket> {
    set k | k in s.waiting && s.waiting[k] == w
  }

  function Holders(s: State, w: Wish): set<SubId> {
    set id | id in s.ids && s.ids[id] == w
  }

  function Registered(topics: Topics, w: Wish): nat {
    multiset(OnTopic(topics, w.topic))[w.callback]
  }

  /** No empty list is kept, and every callback is registered once for each subscribe that waits
      with it and each subscription that holds it. */
  ghost predicate Exact(s: State) {
    && (forall t :: t in s.topics ==> s.topics[t] != [])
    && (forall w :: Registered(s.topics, w) == |Waiters(s, w)| + |Holders(s, w)|)
  }

  lemma {:induction false} WithoutFirstCounts(list: seq<Callback>, callback: Callback, other: Callback)
    ensures multiset(WithoutFirst(list, callback))[other] ==
            multiset(list)[other] - (if other == callback && callback in list then 1 else 0)
  {
    if list != [] {
      assert list == [list[0]] + list[1..];
      if list[0] != callback {
        WithoutFirstCounts(list[1..], callback, other);
      }
    }
  }

  lemma {:induction false} AddCounts(topics: Topics, w: Wish, other: Wish)
    ensures Registered(AddCallback(topics, w), other) == Registered(topics, other) + (if other == w then 1 else 0)
  {}

  lemma {:induction false} DropCounts(topics: Topics, w: Wish, other: Wish)
    requires Registered(topics, w) > 0
    ensures Registered(DropCallback(topics, w), other) == Registered(topics, other) - (if other == w then 1 else 0)
  {
    assert w.callback in OnTopic(topics, w.topic);
    WithoutFirstCounts(OnTopic(topics, w.topic), w.callback, other.callback);
  }

  lemma {:induction false} OneMore<T>(s: set<T>, x: T)
    requires x !in s
    ensures |s + {x}| == |s| + 1
  {}

  lemma {:induction false} OneLess<T>(s: set<T>, x: T)
    requires x in s
    ensures |s - {x}| == |s| - 1
  {}

  lemma {:induction false} OneMoreWaiter(s: State, next: State, k: Ticket, w: Wish, other: Wish)
    requires k !in s.waiting && next.waiting == s.waiting[k := w] && next.ids == s.ids
    ensures |Waiters(next, other)| == |Waiters(s, other)| + (if other == w then 1 else 0)
    ensures Holders(next, other) == Holders(s, other)
  {
    assert k !in Waiters(s, other);
    assert Holders(next, other) == Holders(s, other);
    if other == w {
      OneMore(Waiters(s, other), k);
      assert Waiters(next, other) == Waiters(s, other) + {k};
    } else {
      assert Waiters(next, other) == Waiters(s, other);
    }
  }

  lemma {:induction false} AskKeeps(s: State, k: Ticket, w: Wish)
    requires Exact(s) && k !in s.waiting
    ensures Exact(Ask(s, k, w))
  {
    var next := Ask(s, k, w);
    assert forall t :: t in next.topics ==> next.topics[t] != [];
    hide Waiters, Holders, Registered, AddCallback;
    forall other ensures Registered(next.topics, other) == |Waiters(next, other)| + |Holders(next, other)| {
      AddCounts(s.topics, w, other);
      OneMoreWaiter(s, next, k, w, other);
    }
  }

  lemma {:induction false} FailKeeps(s: State, k: Ticket)
    requires Exact(s) && k in s.waiting
    ensures Exact(Fail(s, k))
  {
    var w, next := s.waiting[k], Fail(s, k);
    assert k in Waiters(s, w);
    OneLess(Waiters(s, w), k);
    forall other ensures Registered(next.topics, other) == |Waiters(next, other)| + |Holders(next, other)| {
      DropCounts(s.topics, w, other);
      assert Holders(next, other) == Holders(s, other);
      assert Waiters(next, other) == if other == w then Waiters(s, other) - {k} else Waiters(s, other);
    }
  }

  lemma {:induction false} ForgetKeeps(s: State, id: SubId)
    requires Exact(s)
    ensures Exact(Forget(s, id))
  {
    if id in s.ids {
      var w, next := s.ids[id], Forget(s, id);
      assert id in Holders(s, w);
      OneLess(Holders(s, w), id);
      forall other ensures Registered(next.topics, other) == |Waiters(next, other)| + |Holders(next, other)| {
        DropCounts(s.topics, w, other);
        assert Waiters(next, other) == Waiters(s, other);
        assert Holders(next, other) == if other == w then Holders(s, other) - {id} else Holders(s, other);
      }
    }
  }

  lemma {:induction false} FreshAckKeeps(s: State, k: Ticket, id: SubId)
    requires Exact(s) && k in s.waiting && id !in s.ids
    ensures Exact(Ack(s, k, Some(id)))
  {
    var w, next := s.waiting[k], Ack(s, k, Some(id));
    assert k in Waiters(s, w) && id !in Holders(s, w);
    OneLess(Waiters(s, w), k);
    OneMore(Holders(s, w), id);
    hide Registered;
    forall other ensures Registered(next.topics, other) == |Waiters(next, other)| + |Holders(next, other)| {
      assert Holders(next, other) == if other == w then Holders(s, other) + {id} else Holders(s, other);
      assert Waiters(next, other) == if other == w then Waiters(s, other) - {k} else Waiters(s, other);
      assert next.topics == s.topics;
    }
  }

  /** An answer without an id leaves a callback that nobody can remove. */
  lemma {:induction false} NoIdBreaks(s: State, k: Ticket)
    requires Exact(s) && k in s.waiting
    ensures !Exact(Ack(s, k, None))
  {
    var w, next := s.waiting[k], Ack(s, k, None);
    assert k in Waiters(s, w);
    OneLess(Waiters(s, w), k);
    assert Waiters(next, w) == Waiters(s, w) - {k} && Holders(next, w) == Holders(s, w);
    hide Registered;
    assert Registered(next.topics, w) != |Waiters(next, w)| + |Holders(next, w)|;
  }

  /** The index stays exact exactly when the server's answer is a string it has not sent before
      for a subscription still held: any other answer leaves a callback nobody can remove. */
  lemma {:induction false} AckKeepsIffFresh(s: State, k: Ticket, id: Option<SubId>)
    requires Exact(s) && k in s.waiting
    ensures Exact(Ack(s, k, id)) <==> id.Some? && id.value !in s.ids
  {
    if id.None? {
      NoIdBreaks(s, k);
    } else if id.value !in s.ids {
      FreshAckKeeps(s, k, id.value);
    } else {
      Overwritten(s, Ack(s, k, id), k, id.value, s.waiting[k]);
    }
    hide Exact;
  }

  /** A reused id takes the place of the subscription that held it. */
  lemma {:induction false} Overwritten(s: State, next: State, k: Ticket, id: SubId, w: Wish)
    requires Exact(s) && k in s.waiting && s.waiting[k] == w && id in s.ids && next == Ack(s, k, Some(id))
    ensures !Exact(next)
  {
    var v := s.ids[id];
    assert k in Waiters(s, w) && id in Holders(s, v);
    OneLess(Waiters(s, w), k);
    OneLess(Holders(s, v), id);
    if v == w {
      assert Waiters(next, w) == Waiters(s, w) - {k} && Holders(next, w) == Holders(s, w);
      assert Registered(next.topics, w) != |Waiters(next, w)| + |Holders(next, w)|;
    } else {
      assert Waiters(next, v) == Waiters(s, v) && Holders(next, v) == Holders(s, v) - {id};
      assert Registered(next.topics, v) != |Waiters(next, v)| + |Holders(next, v)|;
    }
  }

  // ---- runs ----------------------------------------------------------------------------------------

  datatype Action =
    | Asks(k: Ticket, w: Wish)
    | Fails(k: Ticket)
    | Acks(k: Ticket, id: SubId)
    | Forgets(id: SubId)

  /** Tickets are one per subscribe, and the server's ids are fresh. */
  predicate Enabled(s: State, a: Action) {
    match a
    case Asks(k, _) => k !in s.waiting
    case Fails(k) => k in s.waiting
    case Acks(k, id) => k in s.waiting && id !in s.ids
    case Forgets(_) => true
  }

  function Step(s: State, a: Action): State
    requires Enabled(s, a)
  {
    match a
    case Asks(k, w) => Ask(s, k, w)
    case Fails(k) => Fail(s, k)
    case Acks(k, id) => Ack(s, k, Some(id))
    case Forgets(id) => Forget(s, id)
  }

  datatype Execution = Stuck | At(s: State)

  function Execute(actions: seq<Action>): Execution {
    if actions == [] then At(State(map[], map[], map[]))
    else
      var n := |actions| - 1;
      match Execute(actions[..n])
      case Stuck => Stuck
      case At(s) => if Enabled(s, actions[n]) then At(Step(s, actions[n])) else Stuck
  }

  /** Over every interleaving of subscribes, failures, answers and unsubscribes the registered
      callbacks are those of subscribes still waiting and of subscriptions held. */
  lemma {:induction false} IndexIsExact(actions: seq<Action>)
    requires Execute(actions).At?
    ensures Exact(Execute(actions).s)
  {
    if actions == [] {
      forall w ensures Waiters(Execute(actions).s, w) == {} && Holders(Execute(actions).s, w) == {} {}
    } else {
      var n := |actions| - 1;
      var s := Execute(actions[..n]).s;
      IndexIsExact(actions[..n]);
      match actions[n]
      case Asks(k, w) => AskKeeps(s, k, w);
      case Fails(k) => FailKeeps(s, k);
      case Acks(k, id) => AckKeepsIffFresh(s, k, Some(id));
      case Forgets(id) => ForgetKeeps(s, id);
    }
  }

  lemma {:induction false} OneMoreAction(actions: seq<Action>, a: Action)
    requires Execute(actions).At? && Enabled(Execute(actions).s, a)
    ensures Execute(actions + [a]) == At(Step(Execute(actions).s, a))
  {
    assert (actions + [a])[..|actions|] == actions;
  }

  /** A subscribe that is answered is held under its id until that id is unsubscribed, and then the
      index is as it was before. */
  lemma {:induction false} SubscribeThenForget(actions: seq<Action>, k: Ticket, w: Wish, id: SubId)
    requires Execute(actions).At?
    requires var s := Execute(actions).s; k !in s.waiting && id !in s.ids
    ensures var held := Execute(actions + [Asks(k, w)] + [Acks(k, id)]);
            && held.At? && held.s.waiting == Execute(actions).s.waiting
            && held.s.ids == Execute(actions).s.ids[id := w] && w.callback in OnTopic(held.s.topics, w.topic)
    ensures var s, left := Execute(actions).s, Execute(actions + [Asks(k, w)] + [Acks(k, id)] + [Forgets(id)]);
            && left.At? && left.s.waiting == s.waiting && left.s.ids == s.ids
            && forall other :: Registered(left.s.topics, other) == Registered(s.topics, other)
  {
    var s := Execute(actions).s;
    OneMoreAction(actions, Asks(k, w));
    var asked := actions + [Asks(k, w)];
    OneMoreAction(asked, Acks(k, id));
    var acked := asked + [Acks(k, id)];
    OneMoreAction(acked, Forgets(id));
    hide Execute, DropCallback;
    assert s.waiting[k := w] - {k} == s.waiting && s.ids[id := w] - {id} == s.ids;
    IndexIsExact(actions);
    IndexIsExact(acked + [Forgets(id)]);
    SameCounts(s, Execute(acked + [Forgets(id)]).s);
  }

  lemma {:induction false} SameCounts(s: State, t: State)
    requires Exact(s) && Exact(t) && s.ids == t.ids && s.waiting == t.waiting
    ensures forall other :: Registered(s.topics, other) == Registered(t.topics, other)
  {
    forall other ensures Registered(s.topics, other) == Registered(t.topics, other) {
      assert Waiters(s, other) == Waiters(t, other) && Holders(s, other) == Holders(t, other);
    }
  }

  /** A subscribe that fails leaves nothing behind. */
  lemma {:induction false} FailedSubscribe(actions: seq<Action>, k: Ticket, w: Wish)
    requires Execute(actions).At? && k !in Execute(actions).s.waiting
    ensures var s, left := Execute(actions).s, Execute(actions + [Asks(k, w)] + [Fails(k)]);
            && left.At? && left.s.waiting == s.waiting && left.s.ids == s.ids
            && forall other :: Registered(left.s.topics, other) == Registered(s.topics, other)
  {
    var s := Execute(actions).s;
    OneMoreAction(actions, Asks(k, w));
    var asked := actions + [Asks(k, w)];
    OneMoreAction(asked, Fails(k));
    hide Execute, DropCallback;
    assert s.waiting[k := w] - {k} == s.waiting;
    IndexIsExact(actions);
    IndexIsExact(asked + [Fails(k)]);
    SameCounts(s, Execute(asked + [Fails(k)]).s);
  }
}
