/** What a message to the authentication stack comes to, read off the call it makes last: whom a
    setup or a continue asks, and what each answer does to the session and is told the client. */
module AuthAnswers {
  import opened Options
  import opened Lifecycles
  import opened Auth

  /** Each capability by what the peer of the channel must have for it. */
  lemma {:induction false} CapabilitiesAre(i: Internal, c: Capability)
    ensures c in ChannelCapabilities(i) <==>
              && i.Connected?
              && match c
                 case LOCAL => i.peer.transport.Unix?
                 case PEERCRED => i.peer.transport.Unix? && i.peer.uid.Some?
                 case CLIENT_CERT => i.peer.peercert.Some?
                 case ENCRYPTED =>
                   i.peer.transport.Unix? || i.peer.tls || (i.peer.address.Some? && i.peer.address.value.loopback)
  {}

  /** The session and the ending after a handler whose last call was `x`: `before` is what the
      session held, `peer` the peer that a pending step keeps and whose origin is recorded. */
  predicate Follows(before: Internal, peer: Internal, userInfo: bool, x: Visit, t: Turn) {
    match x.answer
    case Raised(code) => t.internal == before && t.ending == Threw(code)
    case Declined => false
    case Challenged(message, pending) =>
      t.ending.Returned? && t.ending.lifecycle.INIT? &&
      (if x.call.CallGssapi? then
         t.internal == GssapiPending(peer, pending) && t.ending.response == GssapiReply(message, None, false)
       else t.internal == ScramPending(peer, pending) && t.ending.response == ServerFirst(message))
    case Judged(Reject(denial)) =>
      && t.internal == before
      // a wrong token may be tried again
      && t.ending == Returned(if x.call.CallOtp? && denial.AUTH_ERR? then INIT else NONE, Failure(denial))
    case Judged(NeedsOtp(pending, username)) =>
      t.internal == OtpPending(peer, pending) && t.ending == Returned(INIT, OtpRequired(username))
    case Finished(message, NeedsOtp(pending, _)) =>
      t.internal == OtpPending(peer, pending) && t.ending == Returned(INIT, ServerFinal(message, None, true))
    case Finished(_, Reject(_)) => false
    case Judged(Authenticated(authd)) =>
      && t.internal.Known? && Recorded(authd.identity, t.internal.identity, peer)
      && t.ending == Returned(ESTABLISHED, Success(if userInfo then authd.info else None))
    case Finished(message, Authenticated(authd)) =>
      && t.internal.Known? && Recorded(authd.identity, t.internal.identity, peer)
      && var info := if userInfo then authd.info else None;
         t.ending == Returned(ESTABLISHED, if x.call.CallGssapi? then GssapiReply(message, info, true)
                                           else ServerFinal(message, info, false))
  }

  /** The call that a login mechanism makes at setup: SCRAM only with a client-first message. */
  function LoginCall(mech: Mechanism, i: Internal, v: Verifiers): seq<Visit> {
    match mech
    case ClientCertificate => [Visit(CallCertificate(i), v.certificate)]
    case ScramFirst(rfc) => [Visit(CallScramBegin(rfc, i), v.scramBegin)]
    case Gssapi(token) => [Visit(CallGssapi(None, token, i), v.gssapi)]
    case ScramLast(_) | OtpToken(_) => []
  }

  /** Does the channel have all that the mechanism requires? */
  predicate Provides(requirements: map<MechanismClass, set<Capability>>, mech: Mechanism, i: Internal) {
    && (mech.ClientCertificate? ==> ProvidesAll(requirements, CERTIFICATE, i))
    && (mech.ScramFirst? || mech.ScramLast? ==> ProvidesAll(requirements, SCRAM, i))
    && (mech.Gssapi? ==> ProvidesAll(requirements, GSSAPI, i))
    && (mech.OtpToken? ==> ProvidesAll(requirements, OTP, i))
  }

  predicate ProvidesAll(requirements: map<MechanismClass, set<Capability>>, m: MechanismClass, i: Internal) {
    m in requirements ==> forall c :: c in requirements[m] ==> c in ChannelCapabilities(i)
  }

  predicate OverUnix(i: Internal) {
    i.Connected? && i.peer.transport.Unix?
  }

  lemma {:induction false} LoginAnswers(
    requirements: map<MechanismClass, set<Capability>>, i: Internal, before: seq<Visit>, request: Request, v: Verifiers)
    requires Typed(v)
    ensures var t := Login(requirements, i, before, request, v);
            var able := request.mechanism.Some? && Provides(requirements, request.mechanism.value, i);
            var asked := if able then LoginCall(request.mechanism.value, i, v) else [];
            && t.visits == before + asked
            && if asked != [] then Follows(i, i, request.userInfo, asked[0], t)
               else
                 && t.internal == i
                 && t.ending == Returned(NONE, Failure(if request.mechanism.Some? && !able then DENIED else AUTH_ERR))
  {
    hide ChannelCapabilities, AttachOrigin, Recorded;
    RecordsAll(v, i);
    assert before + [] == before;
  }

  /** Whoever accepts, what is recorded is what that verifier gave. */
  lemma {:induction false} RecordsAll(v: Verifiers, peer: Internal)
    ensures forall a | a == v.peercred || a == v.certificate || a == v.scramFinish || a == v.gssapi || a == v.otp ::
              (a.Judged? || a.Finished?) && a.outcome.Authenticated? ==>
                Recorded(a.outcome.authd.identity, AttachOrigin(a.outcome.authd.identity, peer), peer)
  {
    forall a: Answer | (a.Judged? || a.Finished?) && a.outcome.Authenticated?
      ensures Recorded(a.outcome.authd.identity, AttachOrigin(a.outcome.authd.identity, peer), peer)
    {
      AttachOriginRecords(a.outcome.authd.identity, peer);
    }
  }

  /** A setup asks peer credentials exactly over AF_UNIX, and the mechanism's own verifier exactly
      when they decline or are not asked, and the channel has what the mechanism requires.  The
      last answer decides; without one the setup fails and changes nothing. */
  lemma {:induction false} SetupAnswers(
    requirements: map<MechanismClass, set<Capability>>, i: Internal, request: Request, v: Verifiers)
    requires Typed(v)
    ensures var t := Setup(requirements, i, request, v);
            var first := if OverUnix(i) then [Visit(CallPeercred(i), v.peercred)] else [];
            var able := request.mechanism.Some? && Provides(requirements, request.mechanism.value, i);
            var asked := if able then LoginCall(request.mechanism.value, i, v) else [];
            if OverUnix(i) && !v.peercred.Declined? then
              t.visits == first && Follows(i, i, request.userInfo, first[0], t)
            else
              && t.visits == first + asked
              && if asked != [] then Follows(i, i, request.userInfo, asked[0], t)
                 else
                   && t.internal == i
                   && t.ending == Returned(NONE, Failure(if request.mechanism.Some? && !able then DENIED else AUTH_ERR))
  {
    LoginAnswers(requirements, i, [], request, v);
    LoginAnswers(requirements, i, [Visit(CallPeercred(i), v.peercred)], request, v);
    RecordsAll(v, i);
    hide Login, AttachOrigin, Recorded, LoginCall, Provides;
  }

  /** The call that a mechanism makes at a continue, on the holder that its own step left. */
  function ContinueCall(mech: Mechanism, i: Internal, v: Verifiers): seq<Visit> {
    match mech
    case ScramLast(rfc) =>
      if i.ScramPending? then [Visit(CallScramFinish(i.pending, rfc, i.from), v.scramFinish)] else []
    case Gssapi(token) =>
      if i.GssapiPending? then [Visit(CallGssapi(Some(i.pending), token, i.from), v.gssapi)] else []
    case OtpToken(otp) => if i.OtpPending? then [Visit(CallOtp(i.pending, otp, i.from), v.otp)] else []
    case ScramFirst(_) | ClientCertificate => []
  }

  /** A continue asks the verifier whose own step is pending, with what that step stored, and its
      answer decides; without one it fails, changes nothing, and only a token may come again. */
  lemma {:induction false} ContinueAnswers(i: Internal, request: Request, v: Verifiers)
    requires Typed(v) && request.mechanism.Some? && !request.mechanism.value.ClientCertificate?
    ensures var t := Continue(i, request, v);
            var asked := ContinueCall(request.mechanism.value, i, v);
            && t.visits == asked
            && if asked != [] then Follows(i, i.from, request.userInfo, asked[0], t)
               else
                 && t.internal == i
                 && t.ending ==
                    Returned(if request.mechanism.value.OtpToken? then INIT else NONE, Failure(AUTH_ERR))
  {
    hide AttachOrigin, Recorded;
    if i.Holder() {
      RecordsAll(v, i.from);
    }
  }
}
