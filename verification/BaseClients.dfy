/** The client's registries in place, as the loop thread updates them. */
module BaseClients {
  import opened Options
  import opened Clients
  import Subs = ClientSubs

  class AsyncFuture {
    const id: Rid
    var state: Future

    constructor (id: Rid)
      ensures this.id == id && state == Open
    {
      this.id, state := id, Open;
    }
  }

  /** What waits for `$/transferReady`. */
  class ReadyFuture {
    const id: Rid
    var params: Option<Data>

    constructor (id: Rid)
      ensures this.id == id && params == None
    {
      this.id, params := id, None;
    }
  }

  /** What a message that answers no call is to the router: nothing without a method, the ready of
      a transfer, progress, or any other method; an id is absent when it is no string. */
  datatype Notice =
    | Nothing
    | Ready(id: Option<Rid>)
    | Progress(topic: Subs.Topic, id: Option<Rid>)
    | Plain(topic: Subs.Topic)

  function About(notice: Notice): Option<Rid> {
    if notice.Progress? then notice.id else None
  }

  /** A job for the back-channel thread. */
  datatype Delivery =
    | ToCall(job: Job)
    | ToTopic(callback: Subs.Callback, params: Data)
    | ToHandler(topic: Subs.Topic, params: Data)

  /** The jobs that are a call's own progress. */
  function CallJobs(deliveries: seq<Delivery>): seq<Job> {
    if deliveries == [] then []
    else
      var n := |deliveries| - 1;
      CallJobs(deliveries[..n]) + if deliveries[n].ToCall? then [deliveries[n].job] else []
  }

  lemma {:induction false} CallJobsAppend(before: seq<Delivery>, more: seq<Delivery>)
    ensures CallJobs(before + more) == CallJobs(before) + CallJobs(more)
  {
    if more == [] {
      assert before + more == before;
    } else {
      var n := |more| - 1;
      assert (before + more)[..|before| + n] == before + more[..n];
      CallJobsAppend(before, more[..n]);
    }
  }

  /** The topic's callbacks in the order they were registered, else the client's own handler. */
  function Broadcast(topic: Subs.Topic, params: Data, topics: Subs.Topics, handled: bool): (ds: seq<Delivery>)
    ensures CallJobs(ds) == []
  {
    var callbacks := Subs.OnTopic(topics, topic);
    var ds := if callbacks != [] then
                seq(|callbacks|, i requires 0 <= i < |callbacks| => ToTopic(callbacks[i], params))
              else if handled then [ToHandler(topic, params)] else [];
    NoCallJobs(ds);
    ds
  }

  lemma {:induction false} NoCallJobs(deliveries: seq<Delivery>)
    requires forall d :: d in deliveries ==> !d.ToCall?
    ensures CallJobs(deliveries) == []
  {
    if deliveries != [] {
      NoCallJobs(deliveries[..|deliveries| - 1]);
    }
  }

  /** Whom a message that answers no call goes to: progress that no call takes is like any other. */
  function Deliveries(notice: Notice, params: Data, progress: map<Rid, Callback>, topics: Subs.Topics, handled: bool)
    : seq<Delivery>
  {
    match notice
    case Nothing | Ready(_) => []
    case Progress(topic, id) =>
      if id.Some? && id.value in progress then [ToCall(Job(id.value, progress[id.value], params))]
      else Broadcast(topic, params, topics, handled)
    case Plain(topic) => Broadcast(topic, params, topics, handled)
  }

  lemma {:induction false} CallJobsOfRoute(
    notice: Notice, params: Data, progress: map<Rid, Callback>, topics: Subs.Topics, handled: bool)
    ensures CallJobs(Deliveries(notice, params, progress, topics, handled)) ==
            if About(notice).Some? && About(notice).value in progress then
              [Job(About(notice).value, progress[About(notice).value], params)]
            else []
  {
    hide Broadcast;
    if About(notice).Some? && About(notice).value in progress {
      var d := ToCall(Job(About(notice).value, progress[About(notice).value], params));
      assert [d][..0] == [];
    }
  }

  /** What stays in the notifications queue, because nobody takes it. */
  function Unclaimed(notice: Notice, params: Data, progress: map<Rid, Callback>, topics: Subs.Topics, handled: bool)
    : seq<(Subs.Topic, Data)>
  {
    if (notice.Progress? || notice.Plain?) && Deliveries(notice, params, progress, topics, handled) == [] then
      [(notice.topic, params)]
    else []
  }

  /** Where a message that answers no call ends up: its call's own callback, or every callback of its
      topic in the order of registration, or the client's handler, or the queue; in one of these
      places and no other. */
  lemma {:induction false} EveryNoticeHasOnePlace(
    notice: Notice, params: Data, progress: map<Rid, Callback>, topics: Subs.Topics, handled: bool)
    ensures var ds := Deliveries(notice, params, progress, topics, handled);
            var left := Unclaimed(notice, params, progress, topics, handled);
            if notice.Nothing? || notice.Ready? then ds == [] && left == []
            else if notice.Progress? && notice.id.Some? && notice.id.value in progress then
              ds == [ToCall(Job(notice.id.value, progress[notice.id.value], params))] && left == []
            else if notice.topic in topics && |topics[notice.topic]| > 0 then
              && |ds| == |topics[notice.topic]| && left == []
              && forall i :: 0 <= i < |ds| ==> ds[i] == ToTopic(topics[notice.topic][i], params)
            else if handled then ds == [ToHandler(notice.topic, params)] && left == []
            else ds == [] && left == [(notice.topic, params)]
  {
    hide CallJobs;
  }

  class BaseClient {
    /** Is a handler registered for notifications that no topic callback takes? */
    const handled: bool
    var connected: bool
    var pending: map<Rid, AsyncFuture>
    var progress: map<Rid, Callback>
    var transferReady: map<Rid, ReadyFuture>
    var backchannel: seq<Delivery>
    var notifications: seq<(Subs.Topic, Data)>
    var subCallbacks: Subs.Topics
    var subIds: map<Subs.SubId, Subs.Wish>
    /** Every future ever made, where each call stands, and the subscribes not yet answered. */
    ghost var made: map<Rid, AsyncFuture>
    ghost var calls: map<Rid, Call>
    ghost var waiting: map<Subs.Ticket, Subs.Wish>

    ghost predicate Valid()
      reads this, made.Values
    {
      && (forall r :: r in made ==> made[r].id == r)
      && (forall r :: r in pending ==> r in made && pending[r] == made[r])
      && (forall r :: r in transferReady ==> transferReady[r].id == r)
    }

    ghost function Futures(): map<Rid, Future>
      reads this`made, made.Values
    {
      map r | r in made :: made[r].state
    }

    ghost function Now(): State
      reads this, made.Values
    {
      State(pending.Keys, progress, Futures(), calls, CallJobs(backchannel), connected)
    }

    ghost function Index(): Subs.State
      reads this
    {
      Subs.State(subCallbacks, subIds, waiting)
    }

    constructor (handled: bool)
      ensures Valid() && Now() == State({}, map[], map[], map[], [], true) && Index() == Subs.State(map[], map[], map[])
      ensures backchannel == [] && notifications == [] && transferReady == map[] && this.handled == handled
    {
      this.handled, connected, transferReady, notifications := handled, true, map[], [];
      pending, progress, backchannel, made, calls := map[], map[], [], map[], map[];
      subCallbacks, subIds, waiting := map[], map[], map[];
    }

    // ---- calls -------------------------------------------------------------------------------------

    method Register(r: Rid, callback: Option<Callback>) returns (f: AsyncFuture)
      requires Valid() && r !in made
      modifies this`pending, this`progress, this`made, this`calls
      ensures Valid() && r in made && f == made[r] && Now() == Clients.Register(old(Now()), r, callback)
    {
      f := MakeFuture(r);
      hide BaseClient.Futures, CallJobs;
      assert Futures() == old(Futures())[r := Open];
      pending := pending[r := f];
      assert pending.Keys == old(pending.Keys) + {r};
      assert forall q :: q in pending && q != r ==> q in old(pending) && pending[q] == old(made)[q];
      if callback.Some? {
        progress := progress[r := callback.value];
      }
      calls := calls[r := Sending];
    }

    method MakeFuture(r: Rid) returns (f: AsyncFuture)
      requires r !in made
      modifies this`made
      ensures fresh(f) && f.id == r && made == old(made)[r := f] && Futures() == old(Futures())[r := Open]
    {
      f := new AsyncFuture(r);
      made := made[r := f];
      assert forall q :: q in made && q != r ==> made[q].state == old(made[q].state);
    }

    method Release(r: Rid, ghost call: Call)
      requires Valid()
      modifies this`pending, this`progress, this`calls
      ensures Valid() && Now() == Clients.Release(old(Now()), r, call)
    {
      pending := pending - {r};
      progress := progress - {r};
      calls := calls[r := call];
    }

    method Receive(m: Inbound, notice: Notice, params: Data)
      requires Valid() && m.about == About(notice)
      modifies this`backchannel, this`notifications, pending.Values, transferReady.Values
      ensures Valid() && Now() == OnMessage(old(Now()), m, params)
      // `m` answers a call when its id is pending
      ensures backchannel == old(backchannel) +
                if m.id.Some? && m.id.value in pending then []
                else Deliveries(notice, params, progress, subCallbacks, handled)
      ensures notifications == old(notifications) +
                if m.id.Some? && m.id.value in pending then []
                else Unclaimed(notice, params, progress, subCallbacks, handled)
      ensures forall r :: r in transferReady ==>
                transferReady[r].params ==
                if (m.id.Some? ==> m.id.value !in pending) && notice == Ready(Some(r))
                   && old(transferReady[r].params).None?
                then Some(params) else old(transferReady[r].params)
    {
      CallJobsAppend(backchannel, Deliveries(notice, params, progress, subCallbacks, handled));
      CallJobsOfRoute(notice, params, progress, subCallbacks, handled);
      hide CallJobs, Deliveries, Unclaimed, Settle;
      if m.id.Some? && m.id.value in pending {
        SettleFuture(m.id.value, m);
        assert backchannel + [] == backchannel && notifications + [] == notifications;
        return;
      }
      Route(notice, params);
      assert Futures() == old(Futures());
    }

    /** A message that answers no call. */
    method Route(notice: Notice, params: Data)
      requires Valid()
      modifies this`backchannel, this`notifications, transferReady.Values
      ensures Valid() && backchannel == old(backchannel) + Deliveries(notice, params, progress, subCallbacks, handled)
      ensures notifications == old(notifications) + Unclaimed(notice, params, progress, subCallbacks, handled)
      ensures forall r :: r in transferReady ==>
                transferReady[r].params ==
                if notice == Ready(Some(r)) && old(transferReady[r].params).None? then Some(params)
                else old(transferReady[r].params)
    {
      match notice
      case Nothing =>
      case Ready(id) =>
        if id.Some? && id.value in transferReady && transferReady[id.value].params.None? {
          transferReady[id.value].params := Some(params);
        }
      case Progress(topic, id) =>
        if id.Some? && id.value in progress {
          backchannel := backchannel + [ToCall(Job(id.value, progress[id.value], params))];
        } else {
          Publish(topic, params);
        }
      case Plain(topic) => Publish(topic, params);
    }

    method SettleFuture(r: Rid, m: Inbound)
      requires Valid() && r in pending
      modifies pending.Values
      ensures Valid() && Now() == Settle(old(Now()), r, Reply(m))
    {
      var f := pending[r];
      if f.state.Open? {
        f.state := if m.error.Some? then Refused(m.error.value) else Resolved(m.result);
      }
      assert Futures() == Settle(old(Now()), r, Reply(m)).futures;
    }

    /** The topic's callbacks one by one, else the handler, else the queue. */
    method Publish(topic: Subs.Topic, params: Data)
      requires Valid()
      modifies this`backchannel, this`notifications
      ensures Valid()
      ensures var ds := Broadcast(topic, params, subCallbacks, handled);
              && backchannel == old(backchannel) + ds
              && notifications == old(notifications) + if ds == [] then [(topic, params)] else []
    {
      ghost var before, ds := backchannel, Broadcast(topic, params, subCallbacks, handled);
      if topic in subCallbacks && subCallbacks[topic] != [] {
        var callbacks := subCallbacks[topic];
        for i := 0 to |callbacks|
          invariant backchannel == before + ds[..i] && notifications == old(notifications)
        {
          assert ds[..i + 1] == ds[..i] + [ToTopic(callbacks[i], params)];
          backchannel := backchannel + [ToTopic(callbacks[i], params)];
        }
        assert ds[..|callbacks|] == ds;
      } else if handled {
        backchannel := backchannel + [ToHandler(topic, params)];
      } else {
        notifications := notifications + [(topic, params)];
      }
    }

    /** The read loop has ended: nobody will answer what is still open. */
    method Disconnect()
      requires Valid()
      modifies this`pending, this`connected, pending.Values
      ensures Valid() && Now() == FailPending(old(Now()))
    {
      LoseAll();
      pending, connected := map[], false;
      hide CallJobs;
    }

    /** Fails what is pending and open, one by one. */
    method LoseAll()
      requires Valid()
      modifies pending.Values
      ensures Valid()
      ensures Futures() == FailPending(old(Now())).futures
    {
      var todo := pending.Keys;
      while todo != {}
        invariant todo <= pending.Keys && Valid()
        invariant forall r :: r in made ==>
                    made[r].state == if r in pending && r !in todo && old(made[r].state).Open? then Lost
                                     else old(made[r].state)
        modifies pending.Values
        decreases todo
      {
        var r :| r in todo;
        if pending[r].state.Open? {
          pending[r].state := Lost;
        }
        todo := todo - {r};
      }
    }

    // ---- subscriptions -------------------------------------------------------------------------------

    /** A subscribe without a callback leaves the index alone. */
    method StartSubscribe(topic: Subs.Topic, callback: Option<Subs.Callback>, ghost k: Subs.Ticket)
      modifies this`subCallbacks, this`waiting
      ensures Index() == if callback.None? then old(Index())
                         else Subs.Ask(old(Index()), k, Subs.Wish(topic, callback.value))
    {
      if callback.Some? {
        var list := if topic in subCallbacks then subCallbacks[topic] else [];
        subCallbacks := subCallbacks[topic := list + [callback.value]];
        waiting := waiting[k := Subs.Wish(topic, callback.value)];
      }
    }

    method EndSubscribe(topic: Subs.Topic, callback: Option<Subs.Callback>, answer: Option<Option<Subs.SubId>>,
                        ghost k: Subs.Ticket)
      requires callback.Some? ==> k in waiting && waiting[k] == Subs.Wish(topic, callback.value)
      modifies this`subCallbacks, this`subIds, this`waiting
      ensures Index() == if callback.None? then old(Index())
                         else if answer.None? then Subs.Fail(old(Index()), k)
                         else Subs.Ack(old(Index()), k, answer.value)
    {
      if callback.None? {
        return;
      }
      if answer.None? {
        DropCallback(topic, callback.value);
      } else if answer.value.Some? {
        subIds := subIds[answer.value.value := Subs.Wish(topic, callback.value)];
      }
      waiting := waiting - {k};
    }

    method DropCallback(topic: Subs.Topic, callback: Subs.Callback)
      modifies this`subCallbacks
      ensures subCallbacks == Subs.DropCallback(old(subCallbacks), Subs.Wish(topic, callback))
    {
      if topic in subCallbacks && callback in subCallbacks[topic] {
        var left := Subs.WithoutFirst(subCallbacks[topic], callback);
        subCallbacks := if left == [] then subCallbacks - {topic} else subCallbacks[topic := left];
      }
    }

    method RemoveSub(id: Subs.SubId)
      modifies this`subCallbacks, this`subIds
      ensures Index() == Subs.Forget(old(Index()), id)
    {
      if id in subIds {
        var wish := subIds[id];
        subIds := subIds - {id};
        DropCallback(wish.topic, wish.callback);
      }
    }
  }
}
