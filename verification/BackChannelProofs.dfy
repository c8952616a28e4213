/** Every locked block keeps the back channel's invariant, and what that gives over whole runs. */
module BackChannelProofs {
  import opened Options
  import opened Filters
  import opened BackChannel
  import opened BackChannelRuns

  // ---- the queue and its history ---------------------------------------------------------------

  lemma {:induction false} LogKeepsOrder(run: Run, now: State, more: seq<Entry>)
    requires InOrder(run) && now.outbound == run.now.outbound + more
    ensures InOrder(Log(run.(now := now), more))
  {
    PickAppended(run.log, run.queued, more);
    PickAppended(run.log, run.delivered, more);
    IncreasingAppended(run.delivered, run.queued, |run.log|, |more|);
    hide Pick, Places;
  }

  lemma {:induction false} LogConserves(run: Run, now: State, more: seq<Entry>)
    requires InOrder(run) && Conserved(run)
    ensures Conserved(Log(run.(now := now), more))
  {
    var n, places := |run.log|, Places(|run.log|, |more|);
    forall k | n <= k < n + |more| ensures k in places {
      assert places[k - n] == k;
    }
    assert forall k :: k in places ==> n <= k;
    assert forall k :: k in run.delivered ==> k < n by {
      IncreasingApart(run.delivered, run.queued);
    }
    hide Places, Increasing;
  }

  lemma {:induction false} PollKeepsOrder(run: Run)
    requires InOrder(run)
    ensures InOrder(Step(run, Polls))
  {
    if run.queued != [] {
      assert (run.delivered + [run.queued[0]]) + run.queued[1..] == run.delivered + run.queued;
      hide Increasing;
    }
  }

  lemma {:induction false} PollConserves(run: Run)
    requires InOrder(run) && Conserved(run)
    ensures Conserved(Step(run, Polls))
  {
    if run.queued != [] {
      var head, rest := run.queued[..1], run.queued[1..];
      assert head + rest == run.queued;
      IncreasingApart(run.delivered, run.queued);
      IncreasingApart(head, rest);
      DeliverOne(|run.log|, run.delivered, head[0], rest, run.purged);
    }
  }

  lemma {:induction false} DeliverOne(n: nat, delivered: seq<nat>, head: nat, rest: seq<nat>, purged: map<nat, Id>)
    requires Fates(n, delivered, [head] + rest, purged) && head !in rest
    ensures Fates(n, delivered + [head], rest, purged)
  {
    assert forall k :: k in [head] + rest <==> k == head || k in rest;
  }

  lemma {:induction false} PurgeSome(
    n: nat, delivered: seq<nat>, queued: seq<nat>, left: seq<nat>, purged: map<nat, Id>, r: Id)
    requires Fates(n, delivered, queued, purged) && Indexes(queued, n) && forall k :: k in left ==> k in queued
    ensures Fates(n, delivered, left, purged + map k | k in queued && k !in left :: r)
  {}

  /** Skipping the scan at count zero removes what the scan would: nothing. */
  lemma {:induction false} CountZeroMeansNoneQueued(run: Run, r: Id)
    requires Counted(run) && r in run.now.inflight && run.now.inflight[r].count == 0
    ensures Filter(run.now.outbound, NotProgressOf(r)) == run.now.outbound
  {
    var q := run.now.outbound;
    FilterAll(q, NotProgressOf(r));
    forall e | e in q ensures NotProgressOf(r)(e) {
      assert e !in Filter(q, ProgressOf(r));
    }
  }

  lemma {:induction false} LeftIsFiltered(run: Run, r: Id)
    requires InOrder(run) && Counted(run) && r in run.now.inflight
    ensures var left := Left(run, r);
            && Indexes(left, |run.log|) && Complete(run.now, r).outbound == Pick(run.log, left)
            && Increasing(left)
            && forall k :: k in left <==> k in run.queued && run.log[k].request != Some(r)
  {
    var ks := run.queued;
    IncreasingApart(run.delivered, ks);
    if run.now.inflight[r].count == 0 {
      CountZeroMeansNoneQueued(run, r);
      FilterAll(run.now.outbound, NotProgressOf(r));
      forall k | k in ks ensures run.log[k].request != Some(r) {
        assert run.log[k] in run.now.outbound;
        assert NotProgressOf(r)(run.log[k]);
      }
    } else {
      FilterPicked(run.log, ks, NotProgressOf(r));
      FilterIncreasing(ks, KeepAt(run.log, NotProgressOf(r)));
    }
  }

  lemma {:induction false} CompleteKeepsOrder(run: Run, r: Id)
    requires InOrder(run) && Counted(run) && r in run.now.inflight
    ensures InOrder(Step(run, Completes(r)))
  {
    LeftIsFiltered(run, r);
    IncreasingLeft(run.delivered, run.queued, Left(run, r));
    hide Left, Pick;
  }

  lemma {:induction false} CompleteConserves(run: Run, r: Id)
    requires InOrder(run) && Conserved(run) && Counted(run) && r in run.now.inflight
    ensures Conserved(Step(run, Completes(r)))
  {
    LeftIsFiltered(run, r);
    hide Left, Fates;
    PurgeSome(|run.log|, run.delivered, run.queued, Left(run, r), run.purged, r);
  }

  lemma {:induction false} CompletePurgesOwn(run: Run, r: Id)
    requires InOrder(run) && Counted(run) && r in run.now.inflight && PurgesOwn(run.log, run.purged, Done(run))
    ensures var next := Step(run, Completes(r)); PurgesOwn(next.log, next.purged, Done(next))
  {
    LeftIsFiltered(run, r);
    PurgeOwn(run.log, run.queued, Left(run, r), run.purged, r, Done(run));
    assert Done(Step(run, Completes(r))) == Done(run) + {r};
  }

  lemma {:induction false} PurgeOwn(
    log: seq<Entry>, queued: seq<nat>, left: seq<nat>, purged: map<nat, Id>, r: Id, done: set<Id>)
    requires PurgesOwn(log, purged, done) && Indexes(queued, |log|)
    requires forall k :: k in left <==> k in queued && log[k].request != Some(r)
    ensures PurgesOwn(log, purged + map k | k in queued && k !in left :: r, done + {r})
  {}

  lemma {:induction false} LogPurgesOwn(run: Run, more: seq<Entry>)
    requires PurgesOwn(run.log, run.purged, Done(run))
    ensures PurgesOwn(run.log + more, run.purged, Done(run))
  {}

  // ---- counts ------------------------------------------------------------------------------------

  lemma {:induction false} TallyConcat(p: seq<Entry>, q: seq<Entry>, r: Id)
    ensures Tally(p + q, r) == Tally(p, r) + Tally(q, r)
  {
    FilterConcat(p, q, ProgressOf(r));
  }

  lemma {:induction false} TallyNone(q: seq<Entry>, r: Id)
    requires forall e :: e in q ==> e.request != Some(r)
    ensures Tally(q, r) == 0
  {
    FilterNone(q, ProgressOf(r));
  }

  lemma {:induction false} TallyOne(e: Entry, r: Id)
    ensures Tally([e], r) == if e.request == Some(r) then 1 else 0
  {
    assert [] + [e] == [e];
    FilterSnoc([], e, ProgressOf(r));
  }

  lemma {:induction false} TallyFiltered(q: seq<Entry>, r: Id, done: Id)
    requires r != done
    ensures Tally(Filter(q, NotProgressOf(done)), r) == Tally(q, r)
  {
    FilterBoth(q, NotProgressOf(done), ProgressOf(r), ProgressOf(r));
  }

  lemma {:induction false} BeginKeepsCounts(run: Run, r: Id, session: SessionId, cancellable: bool)
    requires Counted(run) && r !in run.begun
    ensures Counted(Step(run, Begins(r, session, cancellable)))
  {
    TallyNone(run.log, r);
    TallyNone(run.now.outbound, r);
  }

  lemma {:induction false} ProgressKeepsCounts(run: Run, r: Id, data: Payload)
    requires Counted(run)
    ensures Counted(Step(run, Progresses(r, data)))
  {
    hide Tally;
    if r in run.now.inflight {
      var e := Entry(run.now.inflight[r].session, Some(r), data);
      forall other | other in run.now.inflight
        ensures Tally(run.now.outbound + [e], other) == Tally(run.now.outbound, other) + (if other == r then 1 else 0)
        ensures Tally(run.log + [e], other) == Tally(run.log, other) + (if other == r then 1 else 0)
      {
        TallyConcat(run.now.outbound, [e], other);
        TallyConcat(run.log, [e], other);
        TallyOne(e, other);
      }
    } else {
      assert run.log + [] == run.log;
    }
  }

  lemma {:induction false} SignalKeepsCounts(run: Run, r: Id)
    requires Counted(run) && Enabled(run, Signals(r))
    ensures Counted(Step(run, Signals(r)))
  {
    hide Tally;
  }

  lemma {:induction false} PublishKeepsCounts(run: Run, t: Topic, data: Payload)
    requires Counted(run)
    ensures Counted(Step(run, Publishes(t, data)))
  {
    var more := Fanout(OnTopic(run.now.subs, t), data);
    forall r | r in run.now.inflight
      ensures Tally(run.now.outbound + more, r) == Tally(run.now.outbound, r)
      ensures Tally(run.log + more, r) == Tally(run.log, r)
    {
      TallyConcat(run.now.outbound, more, r);
      TallyConcat(run.log, more, r);
      TallyNone(more, r);
    }
  }

  lemma {:induction false} CompleteKeepsCounts(run: Run, r: Id)
    requires Counted(run) && r in run.now.inflight
    ensures Counted(Step(run, Completes(r)))
  {
    if run.now.inflight[r].count == 0 {
      CountZeroMeansNoneQueued(run, r);
    }
    assert Complete(run.now, r).outbound == Filter(run.now.outbound, NotProgressOf(r));
    hide Tallied, Belongs;
    FilterKeepsTallies(run.now.outbound, run.now.inflight, run.log, r);
  }

  lemma {:induction false} FilterKeepsTallies(q: seq<Entry>, inflight: map<Id, Flight>, log: seq<Entry>, r: Id)
    requires Belongs(q, inflight) && Tallied(q, inflight, log)
    ensures Belongs(Filter(q, NotProgressOf(r)), inflight - {r})
    ensures Tallied(Filter(q, NotProgressOf(r)), inflight - {r}, log)
  {
    hide Tally;
    forall other | other in inflight && other != r
      ensures Tally(Filter(q, NotProgressOf(r)), other) == Tally(q, other)
    {
      TallyFiltered(q, other, r);
    }
  }

  lemma {:induction false} PollKeepsCounts(run: Run)
    requires Counted(run)
    ensures Counted(Step(run, Polls))
  {
    if run.now.outbound != [] {
      var head, rest := run.now.outbound[..1], run.now.outbound[1..];
      assert head + rest == run.now.outbound;
      forall r | r in run.now.inflight ensures Tally(rest, r) <= Tally(run.now.outbound, r) {
        TallyConcat(head, rest, r);
      }
    }
  }

  // ---- subscriptions -------------------------------------------------------------------------------

  /** Dropping more ids filters every topic's list. */
  lemma {:induction false} DropFilters(
    made: seq<Registration>, gone: set<Id>, more: set<Id>, keep: Sub -> bool, t: Topic)
    requires forall i :: 0 <= i < |made| ==> (made[i].sub.id in more <==> !keep(made[i].sub))
    ensures Live(made, gone + more, t) == Filter(Live(made, gone, t), keep)
  {
    if made != [] {
      var n := |made| - 1;
      DropFilters(made[..n], gone, more, keep, t);
      var before := Live(made[..n], gone, t);
      FilterSnoc(before, made[n].sub, keep);
      assert before + [] == before && Filter(before, keep) + [] == Filter(before, keep);
    }
  }

  lemma {:induction false} MakeAppends(made: seq<Registration>, gone: set<Id>, reg: Registration, t: Topic)
    requires reg.sub.id !in gone
    ensures Live(made + [reg], gone, t) == Live(made, gone, t) + (if reg.topic == t then [reg.sub] else [])
  {
    assert (made + [reg])[..|made|] == made;
  }

  lemma {:induction false} OnFilteredTopic(subs: Subs, keep: Sub -> bool, t: Topic)
    ensures OnTopic(FilterSubs(subs, keep), t) == Filter(OnTopic(subs, t), keep)
  {}

  lemma {:induction false} SubscribeKeepsSubs(run: Run, t: Topic, sub: Sub)
    requires Subscribed(run) && sub.id !in MadeIds(run.made)
    ensures Subscribed(Step(run, Subscribes(t, sub)))
  {
    var next := Step(run, Subscribes(t, sub));
    forall u ensures OnTopic(next.now.subs, u) == Live(next.made, next.gone, u) {
      MakeAppends(run.made, run.gone, Registration(t, sub), u);
    }
    forall id | id in MadeIds(run.made) ensures id in MadeIds(next.made) {
      var i :| 0 <= i < |run.made| && run.made[i].sub.id == id;
      assert next.made[i].sub.id == id;
    }
  }

  lemma {:induction false} DropKeepsSubs(run: Run, next: Run, more: set<Id>, keep: Sub -> bool)
    requires Subscribed(run) && more <= MadeIds(run.made)
    requires forall i :: 0 <= i < |run.made| ==> (run.made[i].sub.id in more <==> !keep(run.made[i].sub))
    requires next.made == run.made && next.gone == run.gone + more
    requires next.now.subs == FilterSubs(run.now.subs, keep)
    ensures Subscribed(next)
  {
    forall u ensures OnTopic(next.now.subs, u) == Live(next.made, next.gone, u) {
      DropFilters(run.made, run.gone, more, keep, u);
      OnFilteredTopic(run.now.subs, keep, u);
    }
  }

  lemma {:induction false} UnsubscribeKeepsSubs(run: Run, id: Id)
    requires Subscribed(run)
    ensures Subscribed(Step(run, Unsubscribes(id)))
  {
    var more := {id} * MadeIds(run.made);
    forall i | 0 <= i < |run.made|
      ensures run.made[i].sub.id in more <==> !NotId(id)(run.made[i].sub)
    {
      assert run.made[i].sub.id in MadeIds(run.made);
    }
    DropKeepsSubs(run, Step(run, Unsubscribes(id)), more, NotId(id));
  }

  lemma {:induction false} UnsubscribeAllKeepsSubs(run: Run, session: SessionId)
    requires Subscribed(run)
    ensures Subscribed(Step(run, UnsubscribesAll(session)))
  {
    var more := OwnedIds(run.made, session);
    forall i | 0 <= i < |run.made|
      ensures run.made[i].sub.id in more <==> !NotOwnedBy(session)(run.made[i].sub)
    {
      if run.made[i].sub.id in more {
        var j :| 0 <= j < |run.made| && run.made[j].sub.session == session && run.made[j].sub.id == run.made[i].sub.id;
        assert i == j;
      }
    }
    DropKeepsSubs(run, Step(run, UnsubscribesAll(session)), more, NotOwnedBy(session));
  }

  // ---- every block keeps the invariant ----------------------------------------------------------------

  lemma {:induction false} StepKeeps(run: Run, a: Action)
    requires Inv(run) && Enabled(run, a)
    ensures Inv(Step(run, a))
  {
    hide Fates, PurgesOwn, Belongs, Tallied, Increasing, Indexes, Live;
    match a
    case Begins(r, session, cancellable) =>
      BeginKeepsCounts(run, r, session, cancellable);
      assert Done(Step(run, a)) == Done(run);
    case Progresses(r, data) =>
      var more := Enqueued(run.now, a);
      ProgressKeepsCounts(run, r, data);
      assert run.now.outbound + [] == run.now.outbound;
      LogKeepsOrder(run, Progress(run.now, r, data), more);
      LogConserves(run, Progress(run.now, r, data), more);
      LogPurgesOwn(run, more);
      assert Done(Step(run, a)) == Done(run);
    case Publishes(t, data) =>
      var more := Enqueued(run.now, a);
      PublishKeepsCounts(run, t, data);
      LogKeepsOrder(run, Publish(run.now, t, data), more);
      LogConserves(run, Publish(run.now, t, data), more);
      LogPurgesOwn(run, more);
    case Completes(r) =>
      CompleteKeepsCounts(run, r);
      CompleteKeepsOrder(run, r);
      CompleteConserves(run, r);
      CompletePurgesOwn(run, r);
    case Signals(r) =>
      SignalKeepsCounts(run, r);
      assert Done(Step(run, a)) == Done(run);
    case Subscribes(t, sub) => SubscribeKeepsSubs(run, t, sub);
    case Unsubscribes(id) => UnsubscribeKeepsSubs(run, id);
    case UnsubscribesAll(session) => UnsubscribeAllKeepsSubs(run, session);
    case Polls =>
      PollKeepsOrder(run);
      PollConserves(run);
      PollKeepsCounts(run);
  }
}
