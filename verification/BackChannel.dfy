/** The back channel of `protocol.py`: one outbound queue, the in-flight registry and the
    subscriptions, all behind one condition variable.  The functions say what each locked block
    does to that state; the classes below do it in place. */
module BackChannel {
  import opened Options
  import opened Filters

  /** The ids of requests and subscriptions are drawn from one pool of UUIDs. */
  type Id(==, !new)
  type SessionId(==, !new)
  type Topic(==, !new)
  type Payload(==, !new)

  /** `_Pending`: a queued message; `request` is the request whose progress it is. */
  datatype Entry = Entry(session: SessionId, request: Option<Id>, data: Payload)

  datatype Sub = Sub(id: Id, session: SessionId)

  /** A request in flight: `cancelled` is its event, absent when it is not cancellable. */
  datatype Flight = Flight(session: SessionId, count: nat, cancelled: Option<bool>)

  type Subs = map<Topic, seq<Sub>>

  datatype State = State(outbound: seq<Entry>, inflight: map<Id, Flight>, subs: Subs)

  // ---- what each locked block does ----------------------------------------------------------

  function NotProgressOf(r: Id): Entry -> bool {
    (e: Entry) => e.request != Some(r)
  }

  function Begin(s: State, r: Id, session: SessionId, cancellable: bool): State {
    s.(inflight := s.inflight[r := Flight(session, 0, if cancellable then Some(false) else None)])
  }

  function Progress(s: State, r: Id, data: Payload): State {
    if r !in s.inflight then s
    else
      var f := s.inflight[r];
      s.(outbound := s.outbound + [Entry(f.session, Some(r), data)],
         inflight := s.inflight[r := f.(count := f.count + 1)])
  }

  /** The queue is scanned only when the request has emitted something. */
  function Complete(s: State, r: Id): State
    requires r in s.inflight
  {
    s.(inflight := s.inflight - {r},
       outbound := if s.inflight[r].count == 0 then s.outbound else Filter(s.outbound, NotProgressOf(r)))
  }

  function Signal(s: State, r: Id): State
    requires r in s.inflight && s.inflight[r].cancelled.Some?
  {
    s.(inflight := s.inflight[r := s.inflight[r].(cancelled := Some(true))])
  }

  function OnTopic(subs: Subs, t: Topic): seq<Sub> {
    if t in subs then subs[t] else []
  }

  function Fanout(subs: seq<Sub>, data: Payload): seq<Entry> {
    seq(|subs|, i requires 0 <= i < |subs| => Entry(subs[i].session, None, data))
  }

  function Publish(s: State, t: Topic, data: Payload): State {
    s.(outbound := s.outbound + Fanout(OnTopic(s.subs, t), data))
  }

  function Subscribe(s: State, t: Topic, sub: Sub): State {
    s.(subs := s.subs[t := OnTopic(s.subs, t) + [sub]])
  }

  function NotId(id: Id): Sub -> bool {
    (sub: Sub) => sub.id != id
  }

  function NotOwnedBy(session: SessionId): Sub -> bool {
    (sub: Sub) => sub.session != session
  }

  function FilterSubs(subs: Subs, keep: Sub -> bool): Subs {
    map t | t in subs :: Filter(subs[t], keep)
  }

  function Unsubscribe(s: State, id: Id): State {
    s.(subs := FilterSubs(s.subs, NotId(id)))
  }

  function UnsubscribeAll(s: State, session: SessionId): State {
    s.(subs := FilterSubs(s.subs, NotOwnedBy(session)))
  }

  function Poll(s: State): State {
    if s.outbound == [] then s else s.(outbound := s.outbound[1..])
  }

  predicate Registered(subs: Subs, sub: Sub) {
    exists t :: t in subs && sub in subs[t]
  }

  /** No two subscriptions share an id, whether on one topic or on two. */
  ghost predicate UniqueIds(subs: Subs) {
    forall t, u, i, j ::
      t in subs && u in subs && 0 <= i < |subs[t]| && 0 <= j < |subs[u]| && subs[t][i].id == subs[u][j].id ==>
        t == u && i == j
  }

  lemma {:induction false} FilterKeepsUnique(subs: seq<Sub>, keep: Sub -> bool)
    requires forall i, j :: 0 <= i < j < |subs| ==> subs[i].id != subs[j].id
    ensures forall i, j :: 0 <= i < j < |Filter(subs, keep)| ==> Filter(subs, keep)[i].id != Filter(subs, keep)[j].id
  {
    if subs != [] {
      var n := |subs| - 1;
      FilterKeepsUnique(subs[..n], keep);
      var front := Filter(subs[..n], keep);
      forall i | 0 <= i < |front| ensures front[i].id != subs[n].id {
        assert front[i] in subs[..n];
      }
    }
  }

  lemma {:induction false} FilterSubsUnique(subs: Subs, keep: Sub -> bool)
    requires UniqueIds(subs)
    ensures UniqueIds(FilterSubs(subs, keep))
  {
    var left: Subs := FilterSubs(subs, keep);
    forall t: Topic, u: Topic, i: int, j: int
      | t in left && u in left && 0 <= i < |left[t]| && 0 <= j < |left[u]| && left[t][i].id == left[u][j].id
      ensures t == u && i == j
    {
      assert left[t][i] in subs[t] && left[u][j] in subs[u];
      FilterKeepsUnique(subs[t], keep);
    }
  }

  // ---- the objects ---------------------------------------------------------------------------

  class RequestState {
    const id: Option<Id>
    const session: SessionId
    const cancellable: bool
    var count: nat
    var cancelled: bool

    constructor (id: Option<Id>, session: SessionId, cancellable: bool)
      ensures this.id == id && this.session == session && this.cancellable == cancellable
      ensures count == 0 && !cancelled
    {
      this.id, this.session, this.cancellable := id, session, cancellable;
      count, cancelled := 0, false;
    }

    ghost function AsFlight(): Flight
      reads this
    {
      Flight(session, count, if cancellable then Some(cancelled) else None)
    }
  }

  datatype Target = NoTarget | Request(request: RequestState) | Subscription(sub: Sub)

  class Protocol {
    var outbound: seq<Entry>
    var inflight: map<Id, RequestState>
    var subscriptions: Subs

    ghost predicate Valid()
      reads this
    {
      UniqueIds(subscriptions) && forall r :: r in inflight ==> inflight[r].id == Some(r)
    }

    ghost function Now(): State
      reads this, inflight.Values
    {
      State(outbound, map r | r in inflight :: inflight[r].AsFlight(), subscriptions)
    }

    /** The request's id is in flight only as this very request: ids are not reused. */
    ghost predicate Own(request: RequestState)
      reads this
    {
      request.id.Some? && request.id.value in inflight ==> inflight[request.id.value] == request
    }

    constructor ()
      ensures Valid() && Now() == State([], map[], map[])
    {
      outbound, inflight, subscriptions := [], map[], map[];
    }

    method Enter(request: RequestState)
      requires Valid() && request.count == 0 && !request.cancelled
      requires request.id.Some? ==> request.id.value !in inflight
      modifies this`inflight
      ensures Valid() && Own(request)
      ensures Now() == if request.id.None? then old(Now())
                       else Begin(old(Now()), request.id.value, request.session, request.cancellable)
    {
      if request.id.Some? {
        inflight := inflight[request.id.value := request];
        assert Now().inflight == Begin(old(Now()), request.id.value, request.session, request.cancellable).inflight;
      }
    }

    method UpdateProgress(request: RequestState, data: Payload)
      requires Valid() && Own(request)
      modifies this`outbound, request`count
      ensures Valid()
      ensures Now() == if request.id.None? then old(Now()) else Progress(old(Now()), request.id.value, data)
      ensures request.id.None? || request.id.value !in inflight ==> request.count == old(request.count)
    {
      if request.id.None? {
        return;
      }
      if request.id.value !in inflight {
        return;
      }
      request.count := request.count + 1;
      outbound := outbound + [Entry(request.session, request.id, data)];
      assert Now().inflight == Progress(old(Now()), request.id.value, data).inflight;
    }

    method Leave(request: RequestState)
      requires Valid() && Own(request) && (request.id.Some? ==> request.id.value in inflight)
      modifies this`inflight, this`outbound
      ensures Valid()
      ensures Now() == if request.id.None? then old(Now()) else Complete(old(Now()), request.id.value)
    {
      if request.id.None? {
        return;
      }
      var r := request.id.value;
      inflight := inflight - {r};
      if request.count != 0 {
        outbound := Filter(outbound, NotProgressOf(r));
      }
      assert Now().inflight == Complete(old(Now()), r).inflight;
    }

    method SendNotification(topic: Topic, data: Payload)
      requires Valid()
      modifies this`outbound
      ensures Valid() && Now() == Publish(old(Now()), topic, data)
    {
      if topic !in subscriptions {
        assert outbound + [] == outbound;
        return;
      }
      var subs, i := subscriptions[topic], 0;
      while i < |subs|
        invariant 0 <= i <= |subs| && outbound == old(outbound) + Fanout(subs, data)[..i]
      {
        outbound := outbound + [Entry(subs[i].session, None, data)];
        i := i + 1;
      }
    }

    method AddSubscription(topic: Topic, sub: Sub)
      requires Valid() && forall s :: Registered(subscriptions, s) ==> s.id != sub.id
      modifies this`subscriptions
      ensures Valid() && Now() == Subscribe(old(Now()), topic, sub)
    {
      ghost var before: Subs := subscriptions;
      forall t, i | t in before && 0 <= i < |before[t]| ensures before[t][i].id != sub.id {
        assert Registered(before, before[t][i]);
      }
      var subs := if topic in subscriptions then subscriptions[topic] else [];
      subscriptions := subscriptions[topic := subs + [sub]];
    }

    /** Stops at the first topic that has the id; ids are unique, so no other has it. */
    method RemoveSubscription(id: Id) returns (existed: bool)
      requires Valid()
      modifies this`subscriptions
      ensures Valid() && Now() == Unsubscribe(old(Now()), id)
      ensures existed <==> exists s :: Registered(old(subscriptions), s) && s.id == id
    {
      var todo := subscriptions.Keys;
      FilterSubsUnique(subscriptions, NotId(id));
      hide UniqueIds, FilterSubs, Without, Registered;
      NoTopicsWithout(subscriptions, id);
      while todo != {}
        invariant todo <= subscriptions.Keys && subscriptions == old(subscriptions)
        invariant Without(subscriptions, subscriptions.Keys - todo, id)
        decreases todo
      {
        var t :| t in todo;
        var left := Filter(subscriptions[t], NotId(id));
        OneMoreWithout(subscriptions, todo, t, id);
        if left != subscriptions[t] {
          OnlyThere(subscriptions, t, id);
          subscriptions := subscriptions[t := left];
          return true;
        }
        todo := todo - {t};
      }
      Nowhere(subscriptions, id);
      existed := false;
    }

    method RemoveAllOf(session: SessionId) returns (removed: nat)
      requires Valid()
      modifies this`subscriptions
      ensures Valid() && Now() == UnsubscribeAll(old(Now()), session)
      ensures removed == |IdsOf(old(subscriptions), old(subscriptions.Keys), session)|
    {
      FilterSubsUnique(subscriptions, NotOwnedBy(session));
      removed := RemoveOwned(session);
    }

    method RemoveOwned(session: SessionId) returns (removed: nat)
      requires UniqueIds(subscriptions)
      modifies this`subscriptions
      ensures subscriptions == FilterSubs(old(subscriptions), NotOwnedBy(session))
      ensures removed == |IdsOf(old(subscriptions), old(subscriptions.Keys), session)|
    {
      ghost var all: Subs := subscriptions;
      ghost var done: set<Topic> := {};
      var todo := subscriptions.Keys;
      removed := 0;
      NoneRemoved(all, session);
      hide UniqueIds, IdsOf, PartlyRemoved, FilterSubs;
      while todo != {}
        invariant todo <= all.Keys && done == all.Keys - todo
        invariant PartlyRemoved(all, subscriptions, done, session)
        invariant removed == |IdsOf(all, done, session)|
        decreases todo
      {
        var t :| t in todo;
        var n := RemoveOwnedOn(t, session, all, done);
        MoveOne(all.Keys, todo, t);
        removed, todo, done := removed + n, todo - {t}, done + {t};
      }
      assert done == all.Keys;
      AllRemoved(all, subscriptions, session);
    }

    method RemoveOwnedOn(t: Topic, session: SessionId, ghost all: Subs, ghost done: set<Topic>) returns (n: nat)
      requires UniqueIds(all) && t in all && t !in done && PartlyRemoved(all, subscriptions, done, session)
      modifies this`subscriptions
      ensures PartlyRemoved(all, subscriptions, done + {t}, session)
      ensures |IdsOf(all, done + {t}, session)| == |IdsOf(all, done, session)| + n
    {
      OneMoreRemoved(all, subscriptions, done, t, session);
      CountIds(all, done, t, session);
      hide UniqueIds, IdsOf, PartlyRemoved;
      var left := Filter(subscriptions[t], NotOwnedBy(session));
      n := |subscriptions[t]| - |left|;
      subscriptions := subscriptions[t := left];
    }

    method PollNotification() returns (out: Option<(SessionId, Payload)>)
      requires Valid()
      modifies this`outbound
      ensures Valid() && Now() == Poll(old(Now()))
      ensures out == if old(outbound) == [] then None
                     else Some((old(outbound[0].session), old(outbound[0].data)))
    {
      if outbound == [] {
        return None;
      }
      out := Some((outbound[0].session, outbound[0].data));
      outbound := outbound[1..];
    }

    /** What a cancel's id names: a request in flight, else a subscription, else nothing. */
    method FindTarget(id: Id) returns (target: Target)
      requires Valid()
      ensures target.Request? <==> id in inflight
      ensures target.Request? ==> target.request == inflight[id]
      ensures target.Subscription? ==> Registered(subscriptions, target.sub) && target.sub.id == id
      ensures target.NoTarget? ==> forall s :: Registered(subscriptions, s) ==> s.id != id
    {
      if id in inflight {
        return Request(inflight[id]);
      }
      var todo := subscriptions.Keys;
      while todo != {}
        invariant todo <= subscriptions.Keys
        invariant forall t: Topic, s: Sub :: t in subscriptions && t !in todo && s in subscriptions[t] ==> s.id != id
        decreases todo
      {
        var t :| t in todo;
        for i := 0 to |subscriptions[t]|
          invariant forall j :: 0 <= j < i ==> subscriptions[t][j].id != id
        {
          if subscriptions[t][i].id == id {
            assert subscriptions[t][i] in subscriptions[t];
            return Subscription(subscriptions[t][i]);
          }
        }
        todo := todo - {t};
      }
      target := NoTarget;
    }

    /** Setting the event of a request that has completed since leaves the registry alone. */
    method SetCancelled(request: RequestState)
      requires Valid() && Own(request) && request.id.Some? && request.cancellable
      modifies request`cancelled
      ensures Valid() && request.cancelled
      ensures Now() == if request.id.value in inflight then Signal(old(Now()), request.id.value) else old(Now())
    {
      request.cancelled := true;
      if request.id.value in inflight {
        assert Now().inflight == Signal(old(Now()), request.id.value).inflight;
      } else {
        assert Now().inflight == old(Now()).inflight;
      }
    }
  }

  /** No subscription on these topics has the id. */
  predicate Without(subs: Subs, topics: set<Topic>, id: Id) {
    forall t :: t in subs && t in topics ==> forall s :: s in subs[t] ==> s.id != id
  }

  lemma {:induction false} NoTopicsWithout(subs: Subs, id: Id)
    ensures Without(subs, subs.Keys - subs.Keys, id)
  {}

  lemma {:induction false} OneMoreWithout(subs: Subs, todo: set<Topic>, t: Topic, id: Id)
    requires Without(subs, subs.Keys - todo, id) && t in todo && t in subs
    ensures Filter(subs[t], NotId(id)) == subs[t] ==> Without(subs, subs.Keys - (todo - {t}), id)
  {
    FilterAll(subs[t], NotId(id));
  }

  lemma {:induction false} Nowhere(subs: Subs, id: Id)
    requires Without(subs, subs.Keys - {}, id)
    ensures FilterSubs(subs, NotId(id)) == subs && !exists s :: Registered(subs, s) && s.id == id
  {
    forall t | t in subs ensures Filter(subs[t], NotId(id)) == subs[t] {
      FilterAll(subs[t], NotId(id));
    }
  }

  lemma {:induction false} OnlyThere(subs: Subs, t: Topic, id: Id)
    requires UniqueIds(subs) && t in subs && Filter(subs[t], NotId(id)) != subs[t]
    ensures exists s :: Registered(subs, s) && s.id == id
    ensures FilterSubs(subs, NotId(id)) == subs[t := Filter(subs[t], NotId(id))]
  {
    FilterAll(subs[t], NotId(id));
    var i :| 0 <= i < |subs[t]| && !NotId(id)(subs[t][i]);
    assert Registered(subs, subs[t][i]);
    forall u | u in subs && u != t ensures Filter(subs[u], NotId(id)) == subs[u] {
      NotElsewhere(subs, t, i, u);
      FilterAll(subs[u], NotId(id));
    }
    hide UniqueIds;
  }

  lemma {:induction false} NotElsewhere(subs: Subs, t: Topic, i: nat, u: Topic)
    requires UniqueIds(subs) && t in subs && i < |subs[t]| && u in subs && u != t
    ensures forall s :: s in subs[u] ==> s.id != subs[t][i].id
  {}

  predicate PartlyRemoved(all: Subs, left: Subs, done: set<Topic>, session: SessionId) {
    && left.Keys == all.Keys
    && forall t :: t in all ==> left[t] == if t in done then Filter(all[t], NotOwnedBy(session)) else all[t]
  }

  lemma {:induction false} MoveOne<T>(all: set<T>, todo: set<T>, t: T)
    requires t in todo && todo <= all
    ensures t in all && t !in all - todo && todo - {t} <= all && all - (todo - {t}) == (all - todo) + {t}
  {}

  lemma {:induction false} NoneRemoved(all: Subs, session: SessionId)
    ensures PartlyRemoved(all, all, {}, session) && IdsOf(all, {}, session) == {}
  {}

  lemma {:induction false} OneMoreRemoved(all: Subs, left: Subs, done: set<Topic>, t: Topic, session: SessionId)
    requires PartlyRemoved(all, left, done, session) && t in all && t !in done
    ensures t in left && left[t] == all[t] && |Filter(all[t], NotOwnedBy(session))| <= |all[t]|
    ensures PartlyRemoved(all, left[t := Filter(all[t], NotOwnedBy(session))], done + {t}, session)
  {
    FilterAll(all[t], NotOwnedBy(session));
  }

  lemma {:induction false} AllRemoved(all: Subs, left: Subs, session: SessionId)
    requires PartlyRemoved(all, left, all.Keys, session)
    ensures left == FilterSubs(all, NotOwnedBy(session))
  {}

  function Owned(subs: seq<Sub>, session: SessionId): set<Id> {
    set i | 0 <= i < |subs| && subs[i].session == session :: subs[i].id
  }

  /** The ids a session owns on some topics. */
  ghost function IdsOf(subs: Subs, topics: set<Topic>, session: SessionId): set<Id> {
    set t, id | t in topics && t in subs && id in Owned(subs[t], session) :: id
  }

  lemma {:induction false} OwnedSnoc(subs: seq<Sub>, sub: Sub, session: SessionId)
    ensures Owned(subs + [sub], session) ==
            Owned(subs, session) + (if sub.session == session then {sub.id} else {})
  {
    var all := subs + [sub];
    assert all[|subs|] == sub && forall i :: 0 <= i < |subs| ==> all[i] == subs[i];
  }

  lemma {:induction false} CountOwned(subs: seq<Sub>, session: SessionId)
    requires forall i, j :: 0 <= i < j < |subs| ==> subs[i].id != subs[j].id
    ensures |Owned(subs, session)| == |subs| - |Filter(subs, NotOwnedBy(session))|
  {
    if subs != [] {
      var n := |subs| - 1;
      CountOwned(subs[..n], session);
      OwnedSnoc(subs[..n], subs[n], session);
      FilterSnoc(subs[..n], subs[n], NotOwnedBy(session));
      assert subs[..n] + [subs[n]] == subs;
      assert subs[n].id !in Owned(subs[..n], session);
    }
  }

  lemma {:induction false} CountIds(subs: Subs, topics: set<Topic>, t: Topic, session: SessionId)
    requires UniqueIds(subs) && t in subs && t !in topics
    ensures |IdsOf(subs, topics + {t}, session)| ==
            |IdsOf(subs, topics, session)| + (|subs[t]| - |Filter(subs[t], NotOwnedBy(session))|)
  {
    CountOwned(subs[t], session);
    assert IdsOf(subs, topics + {t}, session) == IdsOf(subs, topics, session) + Owned(subs[t], session);
    assert IdsOf(subs, topics, session) !! Owned(subs[t], session);
  }
}
