/** Facts about every sequence of setup, continue and close messages on one session. */
module AuthProofs {
  import opened Options
  import opened Lifecycles
  import opened Auth

  type Requirements = map<MechanismClass, set<Capability>>

  /** `attempt` holds the verifier calls since the last setup that ran, and `start` the peer that
      setup found in the session. */
  datatype History = History(session: Session, attempt: seq<Visit>, start: Internal)

  predicate StartsAttempt(s: Session, m: Message) {
    m.hasId && m.body.SessionSetup? && m.body.request.Some? && s.lifecycle.NONE?
  }

  function Advance(requirements: Requirements, h: History, m: Message): History
    requires Decodable(m)
  {
    var r := Handle(requirements, h.session, m);
    if StartsAttempt(h.session, m) then History(r.session, r.visits, h.session.internal)
    else History(r.session, h.attempt + r.visits, h.start)
  }

  /** The history after a sequence of messages on a session seeded with `peer`. */
  function After(requirements: Requirements, peer: Option<Peer>, messages: seq<Message>): History
    requires forall m :: m in messages ==> Decodable(m)
  {
    if messages == [] then
      var seeded := if peer.Some? then Connected(peer.value) else NoPeer;
      History(Session(NONE, seeded), [], seeded)
    else
      var n := |messages| - 1;
      Advance(requirements, After(requirements, peer, messages[..n]), messages[n])
  }

  // ---- what a visit stores --------------------------------------------------------------------------

  datatype Stored = Nothing | Otp(pending: Token) | ScramChallenge(pending: Token) | GssapiContext(pending: Token)

  function StoredBy(visit: Visit): Stored {
    if visit.Verdict().Some? && visit.Verdict().value.NeedsOtp? then Otp(visit.Verdict().value.pending)
    else if visit.call.CallScramBegin? && visit.answer.Challenged? then ScramChallenge(visit.answer.pending)
    else if visit.call.CallGssapi? && visit.answer.Challenged? then GssapiContext(visit.answer.pending)
    else Nothing
  }

  /** What the verifiers of an attempt stored last. */
  function LastStored(visits: seq<Visit>): Stored {
    if visits == [] then Nothing
    else
      var n := |visits| - 1;
      if StoredBy(visits[n]).Nothing? then LastStored(visits[..n]) else StoredBy(visits[n])
  }

  function HeldBy(i: Internal): Stored {
    match i
    case OtpPending(_, pending) => Otp(pending)
    case ScramPending(_, pending) => ScramChallenge(pending)
    case GssapiPending(_, pending) => GssapiContext(pending)
    case _ => Nothing
  }

  /** Does the call get `stored` as its pending value, if it takes one? */
  predicate Gets(call: Call, stored: Stored) {
    match call
    case CallScramFinish(pending, _, _) => stored == ScramChallenge(pending)
    case CallOtp(pending, _, _) => stored == Otp(pending)
    case CallGssapi(Some(state), _, _) => stored == GssapiContext(state)
    case _ => true
  }

  /** Every verifier of the attempt got the attempt's peer and, if it takes a pending value, the
      one stored last in this attempt, by its own mechanism. */
  predicate Chained(visits: seq<Visit>, start: Internal) {
    forall i :: 0 <= i < |visits| ==>
      visits[i].call.peer == start && Gets(visits[i].call, LastStored(visits[..i]))
  }

  predicate Accepts(visit: Visit) {
    visit.Verdict().Some? && visit.Verdict().value.Authenticated?
  }

  predicate WantedOtp(visits: seq<Visit>) {
    exists i :: 0 <= i < |visits| && visits[i].Verdict().Some? && visits[i].Verdict().value.NeedsOtp?
  }

  /** Of two calls of `scram_finish` in one attempt, the earlier one raised. */
  predicate FinishedOnce(visits: seq<Visit>) {
    forall i, j :: 0 <= i < j < |visits| && visits[i].call.CallScramFinish? && visits[j].call.CallScramFinish? ==>
      visits[i].answer.Raised?
  }

  /** No call of `scram_finish` has returned. */
  predicate Unfinished(visits: seq<Visit>) {
    forall i :: 0 <= i < |visits| && visits[i].call.CallScramFinish? ==> visits[i].answer.Raised?
  }

  /** The attempt's last call accepted, its identity is the session's, and after a demand for a
      second factor that call was `otp`. */
  predicate EarnedIdentity(visits: seq<Visit>, start: Internal, i: Internal) {
    && visits != [] && Accepts(visits[|visits| - 1])
    && i.Known? && Recorded(visits[|visits| - 1].Verdict().value.authd.identity, i.identity, start)
    && (WantedOtp(visits) ==> visits[|visits| - 1].call.CallOtp?)
  }

  predicate Inv(h: History) {
    && Chained(h.attempt, h.start) && FinishedOnce(h.attempt)
    && match h.session.lifecycle
       case NONE => !h.session.internal.Known?
       case INIT =>
         && h.session.internal.Holder() && h.session.internal.from == h.start
         && HeldBy(h.session.internal) == LastStored(h.attempt)
         && (WantedOtp(h.attempt) ==> h.session.internal.OtpPending?)
         && (h.session.internal.ScramPending? ==> Unfinished(h.attempt))
       case ESTABLISHED => EarnedIdentity(h.attempt, h.start, h.session.internal)
       case CLOSED => true
  }

  // ---- one more call --------------------------------------------------------------------------------

  lemma {:induction false} OneMoreCall(visits: seq<Visit>, x: Visit, start: Internal)
    ensures Chained(visits + [x], start) <==>
            Chained(visits, start) && x.call.peer == start && Gets(x.call, LastStored(visits))
  {
    hide LastStored, Gets;
    var all := visits + [x];
    assert all[..|visits|] == visits && all[|visits|] == x;
    assert forall i :: 0 <= i < |visits| ==> all[i] == visits[i] && all[..i] == visits[..i];
  }

  lemma {:induction false} OneMoreStored(visits: seq<Visit>, x: Visit)
    ensures LastStored(visits + [x]) == if StoredBy(x).Nothing? then LastStored(visits) else StoredBy(x)
    ensures WantedOtp(visits + [x]) <==>
            WantedOtp(visits) || (x.Verdict().Some? && x.Verdict().value.NeedsOtp?)
  {
    var all := visits + [x];
    assert all[..|visits|] == visits && all[|visits|] == x;
    if WantedOtp(visits) {
      var i :| 0 <= i < |visits| && visits[i].Verdict().Some? && visits[i].Verdict().value.NeedsOtp?;
      assert all[i].Verdict().value.NeedsOtp?;
    }
  }

  lemma {:induction false} OneMoreFinish(visits: seq<Visit>, x: Visit)
    ensures FinishedOnce(visits + [x]) <==>
            FinishedOnce(visits) && (x.call.CallScramFinish? ==> Unfinished(visits))
    ensures Unfinished(visits + [x]) <==>
            Unfinished(visits) && (x.call.CallScramFinish? ==> x.answer.Raised?)
  {
    var all := visits + [x];
    assert forall i :: 0 <= i < |visits| ==> all[i] == visits[i];
    assert all[|visits|] == x;
  }

  /** What the history must know for one more call to keep it sound. */
  predicate Ready(visits: seq<Visit>, start: Internal, x: Visit) {
    && Chained(visits, start) && FinishedOnce(visits)
    && x.call.peer == start && Gets(x.call, LastStored(visits))
    && (x.call.CallScramFinish? ==> Unfinished(visits))
  }

  lemma {:induction false} CallKeeps(visits: seq<Visit>, start: Internal, x: Visit)
    requires Ready(visits, start, x)
    ensures Chained(visits + [x], start) && FinishedOnce(visits + [x])
  {
    OneMoreCall(visits, x, start);
    OneMoreFinish(visits, x);
  }

  /** A session after one more call: refused, still pending, or established. */
  lemma {:induction false} CallDecides(visits: seq<Visit>, start: Internal, x: Visit, s: Session)
    requires Ready(visits, start, x)
    requires match s.lifecycle
             case NONE => !s.internal.Known?
             case INIT =>
               && s.internal.Holder() && s.internal.from == start
               && HeldBy(s.internal) == (if StoredBy(x).Nothing? then LastStored(visits) else StoredBy(x))
               && (WantedOtp(visits) || StoredBy(x).Otp? ==> s.internal.OtpPending?)
               && (s.internal.ScramPending? ==> Unfinished(visits) && (x.call.CallScramFinish? ==> x.answer.Raised?))
             case ESTABLISHED =>
               && Accepts(x) && s.internal == Known(AttachOrigin(x.Verdict().value.authd.identity, start))
               && (WantedOtp(visits) ==> x.call.CallOtp?)
             case CLOSED => true
    ensures Inv(History(s, visits + [x], start))
  {
    CallKeeps(visits, start, x);
    OneMoreStored(visits, x);
    OneMoreFinish(visits, x);
    if Accepts(x) {
      AttachOriginRecords(x.Verdict().value.authd.identity, start);
    }
    hide Chained, FinishedOnce, WantedOtp, Unfinished, LastStored, AttachOrigin, Recorded;
    assert (visits + [x])[|visits + [x]| - 1] == x;
  }

  // ---- one message ------------------------------------------------------------------------------------

  /** What a handler finds: no attempt under way, or the holder of this one. */
  predicate Waiting(visits: seq<Visit>, start: Internal, s: Session) {
    && Chained(visits, start) && FinishedOnce(visits)
    && match s.lifecycle
       case NONE => s.internal == start && !start.Known? && !WantedOtp(visits) && Unfinished(visits)
       case INIT => Inv(History(s, visits, start))
       case _ => false
  }

  lemma {:induction false} GssapiKeeps(
    visits: seq<Visit>, start: Internal, s: Session, x: Visit, request: Request, v: Verifiers)
    requires Waiting(visits, start, s) && Ready(visits, start, x) && Typed(v)
    requires x.call.CallGssapi? && x.answer == v.gssapi && (s.lifecycle.INIT? ==> s.internal.GssapiPending?)
    ensures var t := GssapiApply(s.internal, start, [x], request, v);
            Inv(History(Commit(s, t).session, visits + [x], start))
  {
    hide Chained, FinishedOnce, WantedOtp, Unfinished, LastStored, AttachOrigin, Recorded;
    CallDecides(visits, start, x, Commit(s, GssapiApply(s.internal, start, [x], request, v)).session);
  }

  lemma {:induction false} ScramSetupKeeps(before: seq<Visit>, s: Session, mech: Mechanism, v: Verifiers)
    requires Waiting(before, s.internal, s) && s.lifecycle.NONE? && Typed(v)
    ensures var t := ScramSetup(s.internal, before, mech, v);
            Inv(History(Commit(s, t).session, t.visits, s.internal))
  {
    hide Chained, FinishedOnce, WantedOtp, Unfinished, LastStored, AttachOrigin, Recorded;
    if mech.ScramFirst? {
      var x := Visit(CallScramBegin(mech.rfc, s.internal), v.scramBegin);
      CallDecides(before, s.internal, x, Commit(s, ScramSetup(s.internal, before, mech, v)).session);
    }
  }

  lemma {:induction false} CertificateKeeps(before: seq<Visit>, s: Session, request: Request, v: Verifiers)
    requires Waiting(before, s.internal, s) && s.lifecycle.NONE? && Typed(v)
    ensures var x := Visit(CallCertificate(s.internal), v.certificate);
            var t := if v.certificate.Judged? then Settle(s.internal, before + [x], v.certificate.outcome, request)
                     else Turn(s.internal, before + [x], Thrown(v.certificate));
            Inv(History(Commit(s, t).session, t.visits, s.internal))
  {
    hide Chained, FinishedOnce, WantedOtp, Unfinished, LastStored, AttachOrigin, Recorded;
    var x := Visit(CallCertificate(s.internal), v.certificate);
    var t := if v.certificate.Judged? then Settle(s.internal, before + [x], v.certificate.outcome, request)
             else Turn(s.internal, before + [x], Thrown(v.certificate));
    CallDecides(before, s.internal, x, Commit(s, t).session);
  }

  lemma {:induction false} LoginKeeps(
    requirements: Requirements, i: Internal, before: seq<Visit>, request: Request, v: Verifiers)
    requires request.mechanism.Some? ==> !request.mechanism.value.OtpToken?
    requires Typed(v) && Waiting(before, i, Session(NONE, i))
    ensures var t := Login(requirements, i, before, request, v);
            Inv(History(Commit(Session(NONE, i), t).session, t.visits, i))
  {
    hide Chained, FinishedOnce, WantedOtp, Unfinished, LastStored, AttachOrigin, Recorded, ChannelCapabilities;
    var s := Session(NONE, i);
    if request.mechanism.Some? {
      var mech := request.mechanism.value;
      match mech
      case ScramFirst(_) | ScramLast(_) => ScramSetupKeeps(before, s, mech, v);
      case Gssapi(token) =>
        var x := Visit(CallGssapi(None, token, i), v.gssapi);
        GssapiKeeps(before, i, s, x, request, v);
        SameSession(s, GssapiApply(i, i, [x], request, v), GssapiApply(i, i, before + [x], request, v));
      case ClientCertificate => CertificateKeeps(before, s, request, v);
      case OtpToken(_) =>
    }
  }

  lemma {:induction false} SameSession(s: Session, t: Turn, u: Turn)
    requires t.internal == u.internal && t.ending == u.ending
    ensures Commit(s, t).session == Commit(s, u).session
  {}

  lemma {:induction false} PeercredKeeps(i: Internal, before: seq<Visit>)
    requires before == [] || before == [Visit(CallPeercred(i), Declined)]
    requires !i.Known?
    ensures Waiting(before, i, Session(NONE, i))
    ensures LastStored(before).Nothing?
  {}

  lemma {:induction false} SetupKeeps(requirements: Requirements, i: Internal, request: Request, v: Verifiers)
    requires request.mechanism.Some? ==> !request.mechanism.value.OtpToken?
    requires Typed(v) && !i.Known?
    ensures var t := Setup(requirements, i, request, v);
            Inv(History(Commit(Session(NONE, i), t).session, t.visits, i))
  {
    hide Login;
    PeercredKeeps(i, []);
    if i.Connected? && i.peer.transport.Unix? {
      var x := Visit(CallPeercred(i), v.peercred);
      if v.peercred.Declined? {
        PeercredKeeps(i, [x]);
        LoginKeeps(requirements, i, [x], request, v);
      } else {
        assert [] + [x] == [x];
        CallDecides([], i, x, Commit(Session(NONE, i), Setup(requirements, i, request, v)).session);
      }
    } else {
      LoginKeeps(requirements, i, [], request, v);
    }
  }

  lemma {:induction false} ScramFinalKeeps(h: History, mech: Mechanism, request: Request, v: Verifiers)
    requires Inv(h) && h.session.lifecycle.INIT? && h.session.internal.ScramPending? && mech.ScramLast? && Typed(v)
    ensures var t := ScramFinal(h.session.internal, mech, request, v);
            Inv(History(Commit(h.session, t).session, h.attempt + t.visits, h.start))
  {
    hide Chained, FinishedOnce, WantedOtp, Unfinished, LastStored, AttachOrigin, Recorded;
    var t := ScramFinal(h.session.internal, mech, request, v);
    var x := Visit(CallScramFinish(h.session.internal.pending, mech.rfc, h.start), v.scramFinish);
    assert t.visits == [x];
    CallDecides(h.attempt, h.start, x, Commit(h.session, t).session);
  }

  lemma {:induction false} OtpKeeps(h: History, request: Request, v: Verifiers)
    requires Inv(h) && h.session.lifecycle.INIT? && h.session.internal.OtpPending? && Typed(v)
    requires request.mechanism.Some? && request.mechanism.value.OtpToken?
    ensures var t := Continue(h.session.internal, request, v);
            Inv(History(Commit(h.session, t).session, h.attempt + t.visits, h.start))
  {
    hide Chained, FinishedOnce, WantedOtp, Unfinished, LastStored, AttachOrigin, Recorded;
    var t := Continue(h.session.internal, request, v);
    var x := Visit(CallOtp(h.session.internal.pending, request.mechanism.value.otp, h.start), v.otp);
    assert t.visits == [x];
    CallDecides(h.attempt, h.start, x, Commit(h.session, t).session);
  }

  lemma {:induction false} ContinueKeeps(h: History, request: Request, v: Verifiers)
    requires Inv(h) && h.session.lifecycle.INIT? && Typed(v)
    requires request.mechanism.Some? && !request.mechanism.value.ClientCertificate?
    ensures var t := Continue(h.session.internal, request, v);
            Inv(History(Commit(h.session, t).session, h.attempt + t.visits, h.start))
  {
    hide Chained, FinishedOnce, WantedOtp, Unfinished, LastStored, AttachOrigin, Recorded;
    var i, mech := h.session.internal, request.mechanism.value;
    assert h.attempt + [] == h.attempt;
    match mech
    case ScramFirst(_) =>
    case ScramLast(_) =>
      if i.ScramPending? {
        ScramFinalKeeps(h, mech, request, v);
      }
    case Gssapi(token) =>
      if i.GssapiPending? {
        var x := Visit(CallGssapi(Some(i.pending), token, h.start), v.gssapi);
        GssapiKeeps(h.attempt, h.start, h.session, x, request, v);
      }
    case OtpToken(_) =>
      if i.OtpPending? {
        OtpKeeps(h, request, v);
      }
  }
}
