/** What the invariant says about whole runs: conservation, order and silence after completion. */
module BackChannelSafety {
  import opened Options
  import opened Filters
  import opened BackChannel
  import opened BackChannelRuns
  import opened BackChannelProofs

  lemma {:induction false} RunKeepsInvariant(actions: seq<Action>)
    requires Execute(actions).At?
    ensures Inv(Execute(actions).run)
  {
    if actions == [] {
      assert Start().delivered + Start().queued == [];
    } else {
      var n := |actions| - 1;
      RunKeepsInvariant(actions[..n]);
      StepKeeps(Execute(actions[..n]).run, actions[n]);
    }
  }

  /** Everything enqueued was delivered, is queued or was purged, and only one of them; what was
      delivered and then what is queued keep the order of enqueuing; only progress of a completed
      request is ever purged, so a published message never is. */
  lemma {:induction false} OutboundIsConserved(actions: seq<Action>)
    requires Execute(actions).At?
    ensures var run := Execute(actions).run;
            && Indexes(run.delivered, |run.log|) && run.out == Pick(run.log, run.delivered)
            && Indexes(run.queued, |run.log|) && run.now.outbound == Pick(run.log, run.queued)
            && Increasing(run.delivered + run.queued)
            && Fates(|run.log|, run.delivered, run.queued, run.purged)
            && (forall k :: k in run.purged ==>
                  k < |run.log| && run.log[k].request == Some(run.purged[k]) && run.purged[k] in Done(run))
  {
    RunKeepsInvariant(actions);
  }

  /** In every reachable state the completion of any request in flight leaves the queue that a
      full scan would leave, although it scans only when the request's count is not zero. */
  lemma {:induction false} ScanIsSkippable(actions: seq<Action>, r: Id)
    requires Execute(actions).At? && r in Execute(actions).run.now.inflight
    ensures var now := Execute(actions).run.now;
            Complete(now, r).outbound == Filter(now.outbound, NotProgressOf(r))
  {
    RunKeepsInvariant(actions);
    var run := Execute(actions).run;
    if run.now.inflight[r].count == 0 {
      CountZeroMeansNoneQueued(run, r);
    }
  }

  /** A request's count is exactly the number of its messages ever enqueued, and every queued
      message of a request finds that request in flight, on the session it goes to. */
  lemma {:induction false} CountsAreExact(actions: seq<Action>)
    requires Execute(actions).At?
    ensures var run := Execute(actions).run;
            && (forall r :: r in run.now.inflight ==>
                  Tally(run.now.outbound, r) <= run.now.inflight[r].count == Tally(run.log, r))
            && (forall e :: e in run.now.outbound && e.request.Some? ==>
                  e.request.value in run.now.inflight && run.now.inflight[e.request.value].session == e.session)
  {
    RunKeepsInvariant(actions);
  }

  lemma {:induction false} PrefixRuns(before: seq<Action>, after: seq<Action>)
    requires Execute(before + after).At?
    ensures Execute(before).At?
  {
    if after == [] {
      assert before + after == before;
    } else {
      var n := |after| - 1;
      assert (before + after)[..|before| + n] == before + after[..n];
      PrefixRuns(before, after[..n]);
    }
  }

  /** From one state of a run to a later one, request `r` is done and no poll returned its progress. */
  ghost predicate Silent(soon: Run, later: Run, r: Id) {
    r in Done(later) && soon.out <= later.out && forall e :: e in later.out[|soon.out|..] ==> e.request != Some(r)
  }

  /** A request that is done stays done, and no block enqueues or delivers its progress. */
  lemma {:induction false} DoneStaysSilent(run: Run, a: Action, r: Id)
    requires Inv(run) && Enabled(run, a) && r in Done(run)
    ensures Silent(run, Step(run, a), r)
  {
    if a.Polls? && run.now.outbound != [] && run.queued != [] {
      assert run.now.outbound[0] in run.now.outbound;
      assert (run.out + [run.now.outbound[0]])[|run.out|..] == [run.now.outbound[0]];
    } else {
      assert Step(run, a).out == run.out;
    }
  }

  lemma {:induction false} SilentLonger(soon: Run, later: Run, last: Run, r: Id)
    requires Silent(soon, later, r) && Silent(later, last, r)
    ensures Silent(soon, last, r)
  {
    SplitOuts(soon.out, later.out, last.out);
  }

  lemma {:induction false} CompletedIsDone(run: Run, r: Id)
    requires Inv(run) && Enabled(run, Completes(r))
    ensures var next := Step(run, Completes(r)); Silent(next, next, r)
  {}

  /** Once a request has completed, no later poll returns its progress, whatever else happens. */
  lemma {:induction false} CompletionSilences(before: seq<Action>, r: Id, after: seq<Action>)
    requires Execute(before + [Completes(r)] + after).At?
    ensures Execute(before + [Completes(r)]).At?
    ensures Silent(Execute(before + [Completes(r)]).run, Execute(before + [Completes(r)] + after).run, r)
  {
    hide Inv, Step, Enabled, Silent;
    var start := before + [Completes(r)];
    PrefixRuns(start, after);
    if after == [] {
      assert start + after == start && start[..|before|] == before;
      RunKeepsInvariant(before);
      CompletedIsDone(Execute(before).run, r);
    } else {
      var n := |after| - 1;
      var mid := start + after[..n];
      assert (start + after)[..|start| + n] == mid;
      CompletionSilences(before, r, after[..n]);
      RunKeepsInvariant(mid);
      assert r in Done(Execute(mid).run) by {
        SilentMeansDone(Execute(start).run, Execute(mid).run, r);
      }
      DoneStaysSilent(Execute(mid).run, after[n], r);
      SilentLonger(Execute(start).run, Execute(mid).run, Execute(start + after).run, r);
    }
  }

  lemma {:induction false} SilentMeansDone(soon: Run, later: Run, r: Id)
    requires Silent(soon, later, r)
    ensures r in Done(later)
  {}

  lemma {:induction false} SplitOuts(a: seq<Entry>, b: seq<Entry>, c: seq<Entry>)
    requires a <= b <= c
    ensures c[|a|..] == b[|a|..] + c[|b|..]
  {}

  // ---- subscriptions -----------------------------------------------------------------------------

  /** Where the live subscriptions of a topic were made. */
  ghost function LivePlaces(made: seq<Registration>, gone: set<Id>, t: Topic): (ks: seq<nat>)
    ensures Increasing(ks) && Indexes(ks, |made|)
  {
    if made == [] then []
    else
      var n := |made| - 1;
      LivePlaces(made[..n], gone, t) + (if made[n].topic == t && made[n].sub.id !in gone then [n] else [])
  }

  lemma {:induction false} LiveAtPlaces(made: seq<Registration>, gone: set<Id>, t: Topic)
    ensures var ks, live := LivePlaces(made, gone, t), Live(made, gone, t);
            |ks| == |live| && forall i :: 0 <= i < |ks| ==> made[ks[i]] == Registration(t, live[i])
  {
    if made != [] {
      LiveAtPlaces(made[..|made| - 1], gone, t);
    }
  }

  lemma {:induction false} PlacesAreLive(made: seq<Registration>, gone: set<Id>, t: Topic, k: nat)
    ensures k in LivePlaces(made, gone, t) <==> k < |made| && made[k].topic == t && made[k].sub.id !in gone
  {
    hide Increasing, Indexes, Live;
    if made != [] {
      var n := |made| - 1;
      PlacesAreLive(made[..n], gone, t, k);
      assert k < n ==> made[..n][k] == made[k];
      assert forall a: seq<nat> :: k in a + [n] <==> k in a || k == n;
    }
  }

  /** Subscription ids are unique, also across topics. */
  lemma {:induction false} SubIdsAreUnique(actions: seq<Action>)
    requires Execute(actions).At?
    ensures UniqueIds(Execute(actions).run.now.subs)
  {
    RunKeepsInvariant(actions);
    var run := Execute(actions).run;
    var subs: Subs := run.now.subs;
    forall t: Topic, u: Topic, i: int, j: int
      | t in subs && u in subs && 0 <= i < |subs[t]| && 0 <= j < |subs[u]| && subs[t][i].id == subs[u][j].id
      ensures t == u && i == j
    {
      assert OnTopic(subs, t) == Live(run.made, run.gone, t) && OnTopic(subs, u) == Live(run.made, run.gone, u);
      SameId(run, t, u, i, j);
    }
  }

  lemma {:induction false} SameId(run: Run, t: Topic, u: Topic, i: nat, j: nat)
    requires Subscribed(run) && i < |Live(run.made, run.gone, t)| && j < |Live(run.made, run.gone, u)|
    requires Live(run.made, run.gone, t)[i].id == Live(run.made, run.gone, u)[j].id
    ensures t == u && i == j
  {
    LiveAtPlaces(run.made, run.gone, t);
    LiveAtPlaces(run.made, run.gone, u);
    var ts, us := LivePlaces(run.made, run.gone, t), LivePlaces(run.made, run.gone, u);
    assert run.made[ts[i]].sub.id == run.made[us[j]].sub.id;
  }

  /** A publish appends one message for each subscription made on its topic and not dropped
      since, to that subscription's session, in the order they were made. */
  lemma {:induction false} PublishReachesTheLive(actions: seq<Action>, t: Topic, data: Payload)
    requires Execute(actions).At?
    ensures var run := Execute(actions).run; var ks := LivePlaces(run.made, run.gone, t);
            && Increasing(ks) && Indexes(ks, |run.made|)
            && (forall k: nat :: k in ks <==>
                  k < |run.made| && run.made[k].topic == t && run.made[k].sub.id !in run.gone)
            && Publish(run.now, t, data).outbound == run.now.outbound +
                 seq(|ks|, i requires 0 <= i < |ks| => Entry(run.made[ks[i]].sub.session, None, data))
  {
    RunKeepsInvariant(actions);
    var run := Execute(actions).run;
    var ks := LivePlaces(run.made, run.gone, t);
    LiveAtPlaces(run.made, run.gone, t);
    forall k: nat
      ensures k in ks <==> k < |run.made| && run.made[k].topic == t && run.made[k].sub.id !in run.gone
    {
      PlacesAreLive(run.made, run.gone, t, k);
    }
    assert OnTopic(run.now.subs, t) == Live(run.made, run.gone, t);
    assert Fanout(OnTopic(run.now.subs, t), data) ==
           seq(|ks|, i requires 0 <= i < |ks| => Entry(run.made[ks[i]].sub.session, None, data));
  }

  /** What is in flight under an id was begun with its session, can be cancelled exactly when it was
      begun so, and its event is set exactly when it has been signalled. */
  predicate AsBegun(actions: seq<Action>, r: Id, f: Flight) {
    exists session, cancellable ::
      && Begins(r, session, cancellable) in actions
      && f.session == session && f.cancelled == if cancellable then Some(Signals(r) in actions) else None
  }

  lemma {:induction false} OneMoreBegun(actions: seq<Action>, a: Action, r: Id, f: Flight)
    requires AsBegun(actions, r, f) && a != Signals(r)
    ensures AsBegun(actions + [a], r, f)
  {
    var session, cancellable :|
      && Begins(r, session, cancellable) in actions
      && f.session == session && f.cancelled == if cancellable then Some(Signals(r) in actions) else None;
    assert Begins(r, session, cancellable) in actions + [a];
    assert Signals(r) in actions + [a] <==> Signals(r) in actions;
  }

  lemma {:induction false} UnbegunIsUnsignalled(actions: seq<Action>, r: Id)
    requires Execute(actions).At? && r !in Execute(actions).run.begun
    ensures r !in Execute(actions).run.now.inflight && Signals(r) !in actions
  {
    if actions != [] {
      var n := |actions| - 1;
      UnbegunIsUnsignalled(actions[..n], r);
      assert Signals(r) in actions <==> Signals(r) in actions[..n] || actions[n] == Signals(r);
      hide Filter, Enqueued;
    }
  }

  /** The cancellation event of a request in flight tells the truth, over every run. */
  lemma {:induction false} FlightsAreAsBegun(actions: seq<Action>, r: Id)
    requires Execute(actions).At? && r in Execute(actions).run.now.inflight
    ensures AsBegun(actions, r, Execute(actions).run.now.inflight[r])
  {
    var n := |actions| - 1;
    var run, a := Execute(actions[..n]).run, actions[n];
    var f := Execute(actions).run.now.inflight[r];
    assert actions == actions[..n] + [a];
    hide Filter, Enqueued;
    if a.Begins? && a.r == r {
      UnbegunIsUnsignalled(actions[..n], r);
      assert a in actions && Signals(r) !in actions;
      assert AsBegun(actions, r, f);
    } else if a == Signals(r) {
      FlightsAreAsBegun(actions[..n], r);
      var session, cancellable :|
        && Begins(r, session, cancellable) in actions[..n]
        && run.now.inflight[r].session == session
        && run.now.inflight[r].cancelled == if cancellable then Some(Signals(r) in actions[..n]) else None;
      assert Begins(r, session, cancellable) in actions && Signals(r) in actions;
    } else {
      FlightsAreAsBegun(actions[..n], r);
      assert f.session == run.now.inflight[r].session && f.cancelled == run.now.inflight[r].cancelled;
      OneMoreBegun(actions[..n], a, r, run.now.inflight[r]);
    }
  }
}
