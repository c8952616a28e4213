/** How `client.py` matches responses to calls: one loop thread, many calls, and timeouts and the
    loss of the connection at any point between two awaits. */
module Clients {
  import opened Options

  type Rid(==, !new)
  type Data(==, !new)
  type Callback(==, !new)

  /** The state of a call's future. */
  datatype Future = Open | Resolved(result: Data) | Refused(error: Data) | Lost | Cancelled

  /** Where a call's coroutine stands, and how it ended. */
  datatype Call = Sending | Awaiting | Unwinding | Returned(result: Data) | Raised(error: Data) | Broken | Aborted
  {
    predicate Finished() { Returned? || Raised? || Broken? || Aborted? }
  }

  /** What the router looks at in a decoded message: a string id, an error or a result, and the
      call that a progress message is about. */
  datatype Inbound = Inbound(id: Option<Rid>, error: Option<Data>, result: Data, about: Option<Rid>)

  /** A job for the back-channel thread: a call's own progress callback and its argument. */
  datatype Job = Job(id: Rid, callback: Callback, params: Data)

  /** `connected` says that the read loop still runs. */
  datatype State = State(
    pending: set<Rid>, progress: map<Rid, Callback>, futures: map<Rid, Future>, calls: map<Rid, Call>, jobs: seq<Job>,
    connected: bool)

  // ---- what each step between two awaits does ---------------------------------------------------

  function Register(s: State, r: Rid, progress: Option<Callback>): State {
    s.(pending := s.pending + {r},
       progress := if progress.Some? then s.progress[r := progress.value] else s.progress,
       futures := s.futures[r := Open], calls := s.calls[r := Sending])
  }

  /** The `finally` of `_invoke`. */
  function Release(s: State, r: Rid, call: Call): State {
    s.(pending := s.pending - {r}, progress := s.progress - {r}, calls := s.calls[r := call])
  }

  function Settle(s: State, r: Rid, f: Future): State {
    if r in s.pending && r in s.futures && s.futures[r].Open? then s.(futures := s.futures[r := f]) else s
  }

  function Reply(m: Inbound): Future {
    if m.error.Some? then Refused(m.error.value) else Resolved(m.result)
  }

  /** `_on_message`: a pending id makes a message a response, whatever else it holds; a response
      to a settled future is ignored. */
  function OnMessage(s: State, m: Inbound, params: Data): State {
    if m.id.Some? && m.id.value in s.pending then Settle(s, m.id.value, Reply(m))
    else if m.about.Some? && m.about.value in s.progress then
      s.(jobs := s.jobs + [Job(m.about.value, s.progress[m.about.value], params)])
    else s
  }

  /** The end of the read loop. */
  function FailPending(s: State): State {
    s.(pending := {}, connected := false,
       futures := map r | r in s.futures ::
                    if r in s.pending && s.futures[r].Open? then Lost else s.futures[r])
  }

  /** A wait that timed out cancels the task, and that the future it awaits. */
  function Cancel(s: State, r: Rid): State
    requires r in s.calls && r in s.futures
  {
    s.(calls := s.calls[r := Unwinding],
       futures := if s.calls[r].Awaiting? && s.futures[r].Open? then s.futures[r := Cancelled] else s.futures)
  }

  function Ended(f: Future): Call
    requires !f.Open?
  {
    match f
    case Resolved(result) => Returned(result)
    case Refused(error) => Raised(error)
    case Lost => Broken
    case Cancelled => Aborted
  }

  // ---- runs ----------------------------------------------------------------------------------------

  datatype Action =
    | Invokes(r: Rid, progress: Option<Callback>)
    | Sends(r: Rid)
    | SendFails(r: Rid)
    | Receives(m: Inbound, params: Data)
    | Disconnects
    | TimesOut(r: Rid)
    | Wakes(r: Rid)

  predicate Enabled(s: State, a: Action) {
    match a
    case Invokes(r, _) => r !in s.calls
    case Sends(r) => r in s.calls && s.calls[r].Sending?
    case SendFails(r) => r in s.calls && s.calls[r].Sending?
    case TimesOut(r) => r in s.calls && r in s.futures && (s.calls[r].Sending? || s.calls[r].Awaiting?)
    case Wakes(r) =>
      && r in s.calls && r in s.futures
      && ((s.calls[r].Awaiting? && !s.futures[r].Open?) || s.calls[r].Unwinding?)
    case Receives(_, _) | Disconnects => s.connected
  }

  function Step(s: State, a: Action): State
    requires Enabled(s, a)
  {
    match a
    case Invokes(r, progress) => Register(s, r, progress)
    case Sends(r) => s.(calls := s.calls[r := Awaiting])
    case SendFails(r) => Release(s, r, Broken)
    case Receives(m, params) => OnMessage(s, m, params)
    case Disconnects => FailPending(s)
    case TimesOut(r) => Cancel(s, r)
    case Wakes(r) => Release(s, r, if s.calls[r].Unwinding? then Aborted else Ended(s.futures[r]))
  }

  datatype Execution = Stuck | At(s: State)

  function Execute(actions: seq<Action>): Execution {
    if actions == [] then At(State({}, map[], map[], map[], [], true))
    else
      var n := |actions| - 1;
      match Execute(actions[..n])
      case Stuck => Stuck
      case At(s) => if Enabled(s, actions[n]) then At(Step(s, actions[n])) else Stuck
  }

  /** Only unfinished calls have entries, and whoever still waits for an open future can still be
      found by a response or by the loss of the connection. */
  predicate Tidy(s: State) {
    && s.futures.Keys == s.calls.Keys
    && s.pending <= s.calls.Keys && s.progress.Keys <= s.calls.Keys
    && (forall r :: r in s.calls && s.calls[r].Finished() ==> r !in s.pending && r !in s.progress)
    && (forall r :: r in s.calls && !s.calls[r].Finished() && s.futures[r].Open? ==> r in s.pending)
  }

  /** Some message with this id brought what the future holds. */
  ghost predicate Brought(actions: seq<Action>, r: Rid, f: Future) {
    exists i :: 0 <= i < |actions| && actions[i].Receives? && actions[i].m.id == Some(r) && Reply(actions[i].m) == f
  }

  /** A future's response was received under its own id. */
  ghost predicate FuturesAnswered(s: State, actions: seq<Action>) {
    forall r :: r in s.futures && (s.futures[r].Resolved? || s.futures[r].Refused?) ==>
      Brought(actions, r, s.futures[r])
  }

  /** A call that returned or raised did so with its future's response. */
  predicate CallsEnded(s: State) {
    forall r :: r in s.calls ==>
      && (s.calls[r].Returned? ==> r in s.futures && s.futures[r] == Resolved(s.calls[r].result))
      && (s.calls[r].Raised? ==> r in s.futures && s.futures[r] == Refused(s.calls[r].error))
  }

  /** The call was made with this progress callback. */
  predicate Invoked(actions: seq<Action>, r: Rid, callback: Callback) {
    Invokes(r, Some(callback)) in actions
  }

  predicate CallbacksInvoked(s: State, actions: seq<Action>) {
    forall r :: r in s.progress ==> Invoked(actions, r, s.progress[r])
  }

  predicate Unfinished(actions: seq<Action>, r: Rid) {
    Execute(actions).At? && r in Execute(actions).s.calls && !Execute(actions).s.calls[r].Finished()
  }

  /** Message `i` brought the job's progress, for a call that was made with the job's callback
      before and had not finished when the message came. */
  predicate BroughtJob(actions: seq<Action>, i: nat, j: Job) {
    && i < |actions| && actions[i].Receives? && actions[i].params == j.params && actions[i].m.about == Some(j.id)
    && Invoked(actions[..i], j.id, j.callback) && Unfinished(actions[..i], j.id)
  }

  ghost predicate JobsOwn(s: State, actions: seq<Action>) {
    forall j :: j in s.jobs ==> exists i: nat :: BroughtJob(actions, i, j)
  }

  lemma {:induction false} StepKeepsTidy(s: State, a: Action)
    requires Tidy(s) && Enabled(s, a)
    ensures Tidy(Step(s, a))
  {}

  lemma {:induction false} StillBrought(actions: seq<Action>, a: Action, r: Rid, f: Future)
    ensures Brought(actions, r, f) ==> Brought(actions + [a], r, f)
    ensures a.Receives? && a.m.id == Some(r) && Reply(a.m) == f ==> Brought(actions + [a], r, f)
  {
    var all := actions + [a];
    assert all[|actions|] == a && forall i :: 0 <= i < |actions| ==> all[i] == actions[i];
  }

  lemma {:induction false} StepKeepsFutures(s: State, a: Action, actions: seq<Action>)
    requires FuturesAnswered(s, actions) && Enabled(s, a)
    ensures FuturesAnswered(Step(s, a), actions + [a])
  {
    hide Brought;
    forall r | r in Step(s, a).futures { StillBrought(actions, a, r, Step(s, a).futures[r]); }
  }

  /** A settled future never changes again. */
  lemma {:induction false} SettledOnce(s: State, a: Action, r: Rid)
    requires Tidy(s) && Enabled(s, a) && r in s.futures && !s.futures[r].Open?
    ensures r in Step(s, a).futures && Step(s, a).futures[r] == s.futures[r]
  {}

  lemma {:induction false} FinishedStays(s: State, a: Action, r: Rid)
    requires Enabled(s, a) && r in s.calls && s.calls[r].Finished()
    ensures r in Step(s, a).calls && Step(s, a).calls[r] == s.calls[r]
  {}

  lemma {:induction false} StepKeepsEnds(s: State, a: Action)
    requires Tidy(s) && CallsEnded(s) && Enabled(s, a)
    ensures CallsEnded(Step(s, a))
  {
    forall r | r in s.futures && !s.futures[r].Open?
      ensures r in Step(s, a).futures && Step(s, a).futures[r] == s.futures[r]
    {
      SettledOnce(s, a, r);
    }
  }

  lemma {:induction false} StepKeepsCallbacks(s: State, a: Action, actions: seq<Action>)
    requires CallbacksInvoked(s, actions) && Enabled(s, a)
    ensures CallbacksInvoked(Step(s, a), actions + [a])
  {
    assert forall b :: b in actions + [a] <==> b in actions || b == a;
  }

  lemma {:induction false} StillBroughtJob(actions: seq<Action>, a: Action, i: nat, j: Job)
    requires BroughtJob(actions, i, j)
    ensures BroughtJob(actions + [a], i, j)
  {
    assert (actions + [a])[..i] == actions[..i] && (actions + [a])[i] == actions[i];
  }

  lemma {:induction false} StepKeepsJobs(s: State, a: Action, actions: seq<Action>)
    requires Execute(actions) == At(s) && Enabled(s, a)
    requires Tidy(s) && CallbacksInvoked(s, actions) && JobsOwn(s, actions)
    ensures JobsOwn(Step(s, a), actions + [a])
  {
    var all := actions + [a];
    assert all[..|actions|] == actions && all[|actions|] == a;
    hide Execute;
    forall j | j in Step(s, a).jobs ensures exists i: nat :: BroughtJob(all, i, j) {
      if j in s.jobs {
        var i: nat :| BroughtJob(actions, i, j);
        StillBroughtJob(actions, a, i, j);
      } else {
        assert BroughtJob(all, |actions|, j);
      }
    }
  }

  ghost predicate Inv(s: State, actions: seq<Action>) {
    Tidy(s) && FuturesAnswered(s, actions) && CallsEnded(s) && CallbacksInvoked(s, actions) && JobsOwn(s, actions)
  }

  lemma {:induction false} RunKeepsInv(actions: seq<Action>)
    requires Execute(actions).At?
    ensures Inv(Execute(actions).s, actions)
  {
    if actions != [] {
      var n := |actions| - 1;
      var s, a := Execute(actions[..n]).s, actions[n];
      RunKeepsInv(actions[..n]);
      hide Tidy, FuturesAnswered, CallsEnded, CallbacksInvoked, JobsOwn;
      StepKeepsTidy(s, a);
      StepKeepsFutures(s, a, actions[..n]);
      StepKeepsEnds(s, a);
      StepKeepsCallbacks(s, a, actions[..n]);
      StepKeepsJobs(s, a, actions[..n]);
      assert actions[..n] + [a] == actions;
    }
  }

  /** A call returns, or raises, only what a response with its own id brought. */
  lemma {:induction false} ResultIsOwn(actions: seq<Action>, r: Rid)
    requires Execute(actions).At? && r in Execute(actions).s.calls
    ensures var call := Execute(actions).s.calls[r];
            && (call.Returned? ==>
                  exists i :: 0 <= i < |actions| && actions[i].Receives? && actions[i].m.id == Some(r)
                              && actions[i].m.error.None? && actions[i].m.result == call.result)
            && (call.Raised? ==>
                  exists i :: 0 <= i < |actions| && actions[i].Receives? && actions[i].m.id == Some(r)
                              && actions[i].m.error == Some(call.error))
  {
    RunKeepsInv(actions);
  }

  /** A call that waits ends with what comes first: it returns the result of a response, raises its
      error, breaks with the connection, and is aborted when it times out. */
  lemma {:induction false} FirstEventEndsTheCall(actions: seq<Action>, r: Rid, event: Action)
    requires Execute(actions).At? && r in Execute(actions).s.calls && r in Execute(actions).s.futures
    requires Execute(actions).s.calls[r].Awaiting? && Execute(actions).s.futures[r].Open?
    requires Enabled(Execute(actions).s, event)
    requires (event.Receives? && event.m.id == Some(r)) || event.Disconnects? || event == TimesOut(r)
    ensures var after := Execute(actions + [event] + [Wakes(r)]);
            && after.At? && r in after.s.calls && r in after.s.futures && !after.s.futures[r].Open?
            && (event.Disconnects? ==> !after.s.connected && after.s.pending == {})
            && after.s.calls[r] == match event
                                   case Receives(m, _) =>
                                     if m.error.Some? then Raised(m.error.value) else Returned(m.result)
                                   case Disconnects => Broken
                                   case _ => Aborted
  {
    RunKeepsInv(actions);
    var more := actions + [event];
    assert more[..|actions|] == actions && (more + [Wakes(r)])[..|more|] == more;
    hide FuturesAnswered, CallsEnded, CallbacksInvoked, JobsOwn;
  }

  /** A finished call has left no entry behind, and an unfinished one with an open future is
      registered, so that the next response with its id, or the loss of the connection, settles it. */
  lemma {:induction false} EntriesFollowCalls(actions: seq<Action>, r: Rid)
    requires Execute(actions).At? && r in Execute(actions).s.calls
    ensures var s := Execute(actions).s;
            && (s.calls[r].Finished() ==> r !in s.pending && r !in s.progress)
            && (!s.calls[r].Finished() && r in s.futures && s.futures[r].Open? ==>
                  && (forall m: Inbound, params :: m.id == Some(r) ==>
                       OnMessage(s, m, params).futures[r] ==
                       if m.error.Some? then Refused(m.error.value) else Resolved(m.result))
                  && FailPending(s).futures[r].Lost?)
  {
    RunKeepsInv(actions);
  }

  lemma {:induction false} OneMoreAction(actions: seq<Action>, a: Action)
    requires Execute(actions).At? && Enabled(Execute(actions).s, a)
    ensures Execute(actions + [a]) == At(Step(Execute(actions).s, a))
  {
    assert (actions + [a])[..|actions|] == actions;
  }

  /** A connection starts alive, and while it is, any call can be made, sent, answered and returned. */
  lemma {:induction false} CallsCanReturn(
    actions: seq<Action>, r: Rid, progress: Option<Callback>, m: Inbound, params: Data)
    requires Execute(actions).At? && r !in Execute(actions).s.calls && Execute(actions).s.connected
    requires m.id == Some(r) && m.error.None?
    ensures Execute([]).At? && Execute([]).s.connected
    ensures var after := Execute(actions + [Invokes(r, progress)] + [Sends(r)] + [Receives(m, params)] + [Wakes(r)]);
            after.At? && r in after.s.calls && after.s.calls[r] == Returned(m.result)
  {
    OneMoreAction(actions, Invokes(r, progress));
    OneMoreAction(actions + [Invokes(r, progress)], Sends(r));
    var sent := actions + [Invokes(r, progress)] + [Sends(r)];
    var s := Execute(sent).s;
    assert s.calls[r].Awaiting? && s.futures[r].Open? && s.connected;
    hide Execute;
    FirstEventEndsTheCall(sent, r, Receives(m, params));
  }

  /** A call that could not be sent breaks at once and leaves no entry. */
  lemma {:induction false} FailedSend(actions: seq<Action>, r: Rid)
    requires Execute(actions).At? && r in Execute(actions).s.calls && Execute(actions).s.calls[r].Sending?
    ensures var after := Execute(actions + [SendFails(r)]);
            && after.At? && r in after.s.calls && after.s.calls[r].Broken?
            && r !in after.s.pending && r !in after.s.progress
  {
    OneMoreAction(actions, SendFails(r));
  }

  /** An unfinished call that was made with a callback still has it. */
  lemma {:induction false} CallbackIsKept(actions: seq<Action>, r: Rid, callback: Callback)
    requires Execute(actions).At? && Invokes(r, Some(callback)) in actions
    ensures var s := Execute(actions).s;
            r in s.calls && (!s.calls[r].Finished() ==> r in s.progress && s.progress[r] == callback)
  {
    var n := |actions| - 1;
    var s, a := Execute(actions[..n]).s, actions[n];
    if Invokes(r, Some(callback)) in actions[..n] {
      CallbackIsKept(actions[..n], r, callback);
      if s.calls[r].Finished() {
        FinishedStays(s, a, r);
      }
    } else {
      assert a == Invokes(r, Some(callback));
    }
  }

  /** Progress of an unfinished call reaches the callback that it was made with, once. */
  lemma {:induction false} ProgressArrives(actions: seq<Action>, r: Rid, callback: Callback, m: Inbound, params: Data)
    requires Execute(actions).At? && Execute(actions).s.connected && Unfinished(actions, r)
    requires Invokes(r, Some(callback)) in actions && m.about == Some(r)
    requires m.id.Some? ==> m.id.value !in Execute(actions).s.pending
    ensures var after := Execute(actions + [Receives(m, params)]);
            after.At? && after.s.jobs == Execute(actions).s.jobs + [Job(r, callback, params)]
  {
    CallbackIsKept(actions, r, callback);
    OneMoreAction(actions, Receives(m, params));
  }

  predicate Waits(f: Future) {
    f.Open? || f.Cancelled?
  }

  /** Some continuation brings the call's future a response, or the loss of the connection. */
  ghost predicate CanSettle(actions: seq<Action>, r: Rid) {
    exists more: seq<Action> ::
      && Execute(actions + more).At? && r in Execute(actions + more).s.futures
      && !Waits(Execute(actions + more).s.futures[r])
  }

  lemma {:induction false} StaysWaiting(actions: seq<Action>, more: seq<Action>, r: Rid)
    requires Execute(actions).At? && Execute(actions + more).At?
    requires var s := Execute(actions).s; !s.connected && r in s.calls && r in s.futures && Waits(s.futures[r])
    ensures var t := Execute(actions + more).s; !t.connected && r in t.calls && r in t.futures && Waits(t.futures[r])
  {
    if more == [] {
      assert actions + more == actions;
    } else {
      var n := |more| - 1;
      assert (actions + more)[..|actions| + n] == actions + more[..n];
      StaysWaiting(actions, more[..n], r);
    }
  }

  /** A call that waits can be answered or failed if and only if the read loop still runs: one that
      is made after it has ended waits until it times out. */
  lemma {:induction false} SettlesIffConnected(actions: seq<Action>, r: Rid)
    requires Execute(actions).At? && r in Execute(actions).s.calls && !Execute(actions).s.calls[r].Finished()
    requires r in Execute(actions).s.futures && Execute(actions).s.futures[r].Open?
    ensures CanSettle(actions, r) <==> Execute(actions).s.connected
  {
    var s := Execute(actions).s;
    if s.connected {
      RunKeepsInv(actions);
      assert (actions + [Disconnects])[..|actions|] == actions;
      assert Execute(actions + [Disconnects]) == At(FailPending(s));
    } else {
      forall more: seq<Action> | Execute(actions + more).At? && r in Execute(actions + more).s.futures
        ensures Waits(Execute(actions + more).s.futures[r])
      {
        StaysWaiting(actions, more, r);
      }
    }
  }

  /** The back-channel thread gets a progress callback only for a call that was made with it, and
      that had not finished when the progress came. */
  lemma {:induction false} ProgressIsOwn(actions: seq<Action>, k: nat) returns (i: nat)
    requires Execute(actions).At? && k < |Execute(actions).s.jobs|
    ensures var j := Execute(actions).s.jobs[k];
            && i < |actions| && actions[i].Receives? && actions[i].params == j.params
            && actions[i].m.about == Some(j.id) && Invokes(j.id, Some(j.callback)) in actions[..i]
            && Unfinished(actions[..i], j.id)
  {
    RunKeepsInv(actions);
    var s := Execute(actions).s;
    assert s.jobs[k] in s.jobs && JobsOwn(s, actions);
    i :| BroughtJob(actions, i, s.jobs[k]);
  }

  /** Over whole runs a settled future keeps its value, and a finished call stays as it ended. */
  lemma {:induction false} SettledForGood(actions: seq<Action>, more: seq<Action>, r: Rid)
    requires Execute(actions + more).At?
    ensures Execute(actions).At?
    ensures var s, t := Execute(actions).s, Execute(actions + more).s;
            && (r in s.futures && !s.futures[r].Open? ==> r in t.futures && t.futures[r] == s.futures[r])
            && (r in s.calls && s.calls[r].Finished() ==> r in t.calls && t.calls[r] == s.calls[r])
  {
    if more == [] {
      assert actions + more == actions;
    } else {
      var n := |more| - 1;
      assert (actions + more)[..|actions| + n] == actions + more[..n];
      SettledForGood(actions, more[..n], r);
      RunKeepsInv(actions + more[..n]);
      var s, t := Execute(actions).s, Execute(actions + more[..n]).s;
      if r in s.futures && !s.futures[r].Open? {
        SettledOnce(t, more[n], r);
      }
      if r in s.calls && s.calls[r].Finished() {
        FinishedStays(t, more[n], r);
      }
      hide Tidy, FuturesAnswered, CallsEnded, CallbacksInvoked, JobsOwn, Step, Enabled;
    }
  }
}
