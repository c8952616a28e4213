/** Who may own a subscription: messages, closes and unsubscribes of all sessions interleaved.
    A message passes the closed-session check some time before it subscribes, and a close marks
    the session some time before it drops its subscriptions. */
module Sessions {
  import opened Filters
  import opened BackChannel

  import opened Lifecycles

  /** `inside` counts the session's messages past the check, `closing` its closes at work. */
  datatype Session = Session(lifecycle: Lifecycle, inside: nat, closing: nat)

  datatype World = World(back: State, sessions: map<SessionId, Session>)

  datatype Event =
    | Opens(s: SessionId)
    | Enters(s: SessionId)
    | SetsUp(s: SessionId, lifecycle: Lifecycle)
    | Adds(s: SessionId, topic: Topic, id: Id)
    | Exits(s: SessionId)
    | Drops(id: Id)
    | StartsClosing(s: SessionId)
    | EndsClosing(s: SessionId)

  predicate Quiet(x: Session) {
    x.inside == 0 && x.closing == 0
  }

  /** `inTurn` says that a session's messages and closes run one after another. */
  predicate Allowed(w: World, e: Event, inTurn: bool) {
    match e
    case Opens(s) => s !in w.sessions
    case Drops(_) => true
    case Enters(s) => s in w.sessions && !w.sessions[s].lifecycle.CLOSED? && (inTurn ==> Quiet(w.sessions[s]))
    case SetsUp(s, l) => s in w.sessions && w.sessions[s].inside > 0 && !l.CLOSED?
    case Adds(s, _, id) => s in w.sessions && w.sessions[s].inside > 0
    case Exits(s) => s in w.sessions && w.sessions[s].inside > 0
    case StartsClosing(s) => s in w.sessions && (inTurn ==> Quiet(w.sessions[s]))
    case EndsClosing(s) => s in w.sessions && w.sessions[s].closing > 0
  }

  function Happen(w: World, e: Event): World
    requires Allowed(w, e, false)
  {
    match e
    case Opens(s) => w.(sessions := w.sessions[s := Session(NONE, 0, 0)])
    case Drops(id) => w.(back := Unsubscribe(w.back, id))
    case Enters(s) =>
      var x := w.sessions[s];
      w.(sessions := w.sessions[s := x.(inside := x.inside + 1)])
    case SetsUp(s, l) => w.(sessions := w.sessions[s := w.sessions[s].(lifecycle := l)])
    case Adds(s, t, id) => w.(back := BackChannel.Subscribe(w.back, t, Sub(id, s)))
    case Exits(s) =>
      var x := w.sessions[s];
      w.(sessions := w.sessions[s := x.(inside := x.inside - 1)])
    case StartsClosing(s) =>
      var x := w.sessions[s];
      w.(sessions := w.sessions[s := x.(lifecycle := CLOSED, closing := x.closing + 1)])
    case EndsClosing(s) =>
      var x := w.sessions[s];
      World(UnsubscribeAll(w.back, s), w.sessions[s := x.(closing := x.closing - 1)])
  }

  datatype Execution = Stuck | At(w: World)

  function Outcome(events: seq<Event>, inTurn: bool): Execution {
    if events == [] then At(World(State([], map[], map[]), map[]))
    else
      var n := |events| - 1;
      match Outcome(events[..n], inTurn)
      case Stuck => Stuck
      case At(w) => if Allowed(w, events[n], inTurn) then At(Happen(w, events[n])) else Stuck
  }

  predicate Owns(w: World, s: SessionId) {
    exists t: Topic, i: int :: t in w.back.subs && 0 <= i < |w.back.subs[t]| && w.back.subs[t][i].session == s
  }

  /** With closes in turn, a session is marked closed only while it has nothing inside. */
  ghost predicate Orderly(w: World) {
    && (forall s :: Owns(w, s) ==> s in w.sessions && (w.sessions[s].lifecycle.CLOSED? ==> w.sessions[s].closing > 0))
    && (forall s :: s in w.sessions ==> w.sessions[s].inside + w.sessions[s].closing <= 1)
    && (forall s :: s in w.sessions && w.sessions[s].lifecycle.CLOSED? ==> w.sessions[s].inside == 0)
    && (forall s :: s in w.sessions && w.sessions[s].closing > 0 ==> w.sessions[s].lifecycle.CLOSED?)
  }

  lemma {:induction false} OwnersOfFiltered(w: World, v: World, keep: Sub -> bool, s: SessionId)
    requires v.back.subs == FilterSubs(w.back.subs, keep) && Owns(v, s)
    ensures Owns(w, s) && exists sub: Sub :: sub.session == s && keep(sub)
  {
    var t: Topic, i: int :| t in v.back.subs && 0 <= i < |v.back.subs[t]| && v.back.subs[t][i].session == s;
    var sub: Sub := v.back.subs[t][i];
    assert sub in Filter(w.back.subs[t], keep) && sub in w.back.subs[t] && keep(sub);
  }

  lemma {:induction false} OwnersAfterAdd(w: World, v: World, t: Topic, sub: Sub, s: SessionId)
    requires v.back == BackChannel.Subscribe(w.back, t, sub) && Owns(v, s)
    ensures s == sub.session || Owns(w, s)
  {
    var u: Topic, i: int :| u in v.back.subs && 0 <= i < |v.back.subs[u]| && v.back.subs[u][i].session == s;
    if v.back.subs[u][i] != sub {
      assert u in w.back.subs && w.back.subs[u][i].session == s;
    }
  }

  lemma {:induction false} HappenKeepsOrder(w: World, e: Event)
    requires Orderly(w) && Allowed(w, e, true)
    ensures Orderly(Happen(w, e))
  {
    hide Owns;
    var v := Happen(w, e);
    forall s | Owns(v, s)
      ensures Owns(w, s) || (e.Adds? && s == e.s)
      ensures e.EndsClosing? ==> s != e.s
    {
      match e
      case Drops(id) => OwnersOfFiltered(w, v, NotId(id), s);
      case EndsClosing(x) => OwnersOfFiltered(w, v, NotOwnedBy(x), s);
      case Adds(x, t, id) => OwnersAfterAdd(w, v, t, Sub(id, x), s);
      case _ => SameOwners(w, v, s);
    }
  }

  lemma {:induction false} SameOwners(w: World, v: World, s: SessionId)
    requires v.back == w.back
    ensures Owns(w, s) <==> Owns(v, s)
  {}

  lemma {:induction false} StaysOrderly(events: seq<Event>)
    requires Outcome(events, true).At?
    ensures Orderly(Outcome(events, true).w)
  {
    if events != [] {
      var n := |events| - 1;
      StaysOrderly(events[..n]);
      HappenKeepsOrder(Outcome(events[..n], true).w, events[n]);
    }
  }

  /** When each session's messages and closes run in turn, no session whose close has finished
      owns a subscription, in any reachable state. */
  lemma {:induction false} ClosedOwnsNothing(events: seq<Event>, s: SessionId)
    requires Outcome(events, true).At?
    ensures var w := Outcome(events, true).w;
            s in w.sessions && w.sessions[s].lifecycle.CLOSED? && w.sessions[s].closing == 0 ==> !Owns(w, s)
  {
    StaysOrderly(events);
  }

  // ---- without that order ------------------------------------------------------------------------

  /** Any continuation of a world: messages and closes of a session may overlap. */
  function RunFrom(w: World, events: seq<Event>): Execution {
    if events == [] then At(w)
    else
      var n := |events| - 1;
      match RunFrom(w, events[..n])
      case Stuck => Stuck
      case At(v) => if Allowed(v, events[n], false) then At(Happen(v, events[n])) else Stuck
  }

  /** Nothing of the session is past the check any more, and it owns nothing. */
  predicate Over(w: World, s: SessionId) {
    s in w.sessions && w.sessions[s].lifecycle.CLOSED? && w.sessions[s].inside == 0 && !Owns(w, s)
  }

  lemma {:induction false} HappenStaysOver(w: World, e: Event, s: SessionId)
    requires Over(w, s) && Allowed(w, e, false)
    ensures Over(Happen(w, e), s)
  {
    hide Owns;
    var v := Happen(w, e);
    if Owns(v, s) {
      match e
      case Drops(id) => OwnersOfFiltered(w, v, NotId(id), s);
      case EndsClosing(x) => OwnersOfFiltered(w, v, NotOwnedBy(x), s);
      case Adds(x, t, id) => OwnersAfterAdd(w, v, t, Sub(id, x), s);
      case _ => SameOwners(w, v, s);
    }
  }

  lemma {:induction false} StaysOver(w: World, events: seq<Event>, s: SessionId)
    requires Over(w, s) && RunFrom(w, events).At?
    ensures Over(RunFrom(w, events).w, s)
  {
    if events != [] {
      var n := |events| - 1;
      StaysOver(w, events[..n], s);
      HappenStaysOver(RunFrom(w, events[..n]).w, events[n], s);
    }
  }

  ghost predicate NeverOwns(w: World, s: SessionId) {
    forall events: seq<Event> :: RunFrom(w, events).At? ==> !Owns(RunFrom(w, events).w, s)
  }

  function Close(w: World, s: SessionId): World
    requires s in w.sessions
  {
    Happen(Happen(w, StartsClosing(s)), EndsClosing(s))
  }

  lemma {:induction false} CloseDrops(w: World, s: SessionId)
    requires s in w.sessions
    ensures var v := Close(w, s); v.sessions[s] == w.sessions[s].(lifecycle := CLOSED) && !Owns(v, s)
  {
    var u, v := Happen(w, StartsClosing(s)), Close(w, s);
    if Owns(v, s) {
      OwnersOfFiltered(u, v, NotOwnedBy(s), s);
      assert false;
    }
  }

  /** A close keeps its promise, that the session never again owns a subscription, in every
      interleaving if and only if no message of the session is past the check when it closes. */
  lemma {:induction false} CloseHoldsIffNothingInside(w: World, s: SessionId, t: Topic, id: Id)
    requires s in w.sessions
    ensures NeverOwns(Close(w, s), s) <==> w.sessions[s].inside == 0
  {
    CloseDrops(w, s);
    var v := Close(w, s);
    if w.sessions[s].inside == 0 {
      forall events: seq<Event> | RunFrom(v, events).At? ensures !Owns(RunFrom(v, events).w, s) {
        StaysOver(v, events, s);
      }
    } else {
      LateAddOwns(v, s, t, id);
    }
  }

  lemma {:induction false} LateAddOwns(w: World, s: SessionId, t: Topic, id: Id)
    requires s in w.sessions && w.sessions[s].inside > 0
    ensures !NeverOwns(w, s)
  {
    var e := Adds(s, t, id);
    assert [e][..0] == [] && RunFrom(w, []) == At(w) && Allowed(w, e, false);
    assert RunFrom(w, [e]) == At(Happen(w, e));
    var v := RunFrom(w, [e]).w;
    assert v.back.subs[t][|OnTopic(w.back.subs, t)|].session == s;
  }

  /** A message past the check that subscribes after its session's close has finished leaves a
      subscription behind: without the order of a session's own messages the result fails. */
  lemma {:induction false} PipelinedCloseLeaks(s: SessionId, t: Topic, id: Id) returns (events: seq<Event>)
    ensures Outcome(events, false).At?
    ensures var w := Outcome(events, false).w;
            s in w.sessions && w.sessions[s] == Session(CLOSED, 0, 0) && Owns(w, s)
  {
    events := [];
    events := Extend(events, Opens(s));
    events := Extend(events, Enters(s));
    events := Extend(events, StartsClosing(s));
    events := Extend(events, EndsClosing(s));
    events := Extend(events, Adds(s, t, id));
    events := Extend(events, Exits(s));
    var w := Outcome(events, false).w;
    assert w.back.subs[t] == [Sub(id, s)];
    assert w.back.subs[t][0].session == s;
  }

  lemma {:induction false} Extend(events: seq<Event>, e: Event) returns (more: seq<Event>)
    requires Outcome(events, false).At? && Allowed(Outcome(events, false).w, e, false)
    ensures Outcome(more, false) == At(Happen(Outcome(events, false).w, e))
  {
    more := events + [e];
    assert more[..|events|] == events;
  }

  /** From the start of a protocol both kinds of run are the same. */
  lemma {:induction false} RunFromTheStart(events: seq<Event>)
    ensures RunFrom(World(State([], map[], map[]), map[]), events) == Outcome(events, false)
  {
    if events != [] {
      RunFromTheStart(events[..|events| - 1]);
    }
  }

  predicate Shut(w: World, s: SessionId) {
    s in w.sessions && w.sessions[s].lifecycle.CLOSED?
  }

  ghost predicate StaysShut(w: World, s: SessionId) {
    forall events: seq<Event> :: RunFrom(w, events).At? ==> Shut(RunFrom(w, events).w, s)
  }

  lemma {:induction false} NothingInsideStays(w: World, events: seq<Event>, s: SessionId)
    requires Shut(w, s) && w.sessions[s].inside == 0 && RunFrom(w, events).At?
    ensures var v := RunFrom(w, events).w; Shut(v, s) && v.sessions[s].inside == 0
  {
    if events != [] {
      NothingInsideStays(w, events[..|events| - 1], s);
    }
  }

  /** A closed session stays closed in every continuation if and only if none of its messages is past
      the check: a setup that is, and whose handler returns later, opens the session again. */
  lemma {:induction false} ClosedStaysIffNothingInside(w: World, s: SessionId)
    requires Shut(w, s)
    ensures StaysShut(w, s) <==> w.sessions[s].inside == 0
  {
    if w.sessions[s].inside == 0 {
      forall events: seq<Event> | RunFrom(w, events).At? ensures Shut(RunFrom(w, events).w, s) {
        NothingInsideStays(w, events, s);
      }
    } else {
      var e := SetsUp(s, ESTABLISHED);
      assert [e][..0] == [] && RunFrom(w, []) == At(w) && Allowed(w, e, false);
      assert RunFrom(w, [e]) == At(Happen(w, e));
    }
  }
}
