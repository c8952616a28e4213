/** The authentication stack in place: each handler writes the session's internal state only
    after its verifier has returned. */
module AuthStacks {
  import opened Options
  import opened Lifecycles
  import opened Auth

  class SessionState {
    var lifecycle: Lifecycle
    var internal: Internal

    constructor (peer: Option<Peer>)
      ensures lifecycle == NONE && internal == if peer.Some? then Connected(peer.value) else NoPeer
    {
      lifecycle := NONE;
      internal := if peer.Some? then Connected(peer.value) else NoPeer;
    }
  }

  class AuthStack {
    const requirements: map<MechanismClass, set<Capability>>

    constructor (requirements: map<MechanismClass, set<Capability>>)
      ensures this.requirements == requirements
    {
      this.requirements := requirements;
    }

    method OnSetup(request: Request, session: SessionState, v: Verifiers)
      returns (ending: Ending, ghost visits: seq<Visit>)
      modifies session`internal
      ensures Turn(session.internal, visits, ending) == Setup(requirements, old(session.internal), request, v)
    {
      var peer := session.internal;
      visits := [];
      if peer.Connected? && peer.peer.transport.Unix? {
        visits := [Visit(CallPeercred(peer), v.peercred)];
        match v.peercred
        case Judged(Authenticated(authd)) =>
          session.internal := Known(AttachOrigin(authd.identity, peer));
          ending := Returned(ESTABLISHED, Success(Info(request, authd)));
          return;
        case Declined =>
        case _ => return Thrown(v.peercred), visits;
      }
      if request.mechanism.None? {
        ending := Returned(NONE, Failure(AUTH_ERR));
        return;
      }
      var mech := request.mechanism.value;
      var required := if ClassOf(mech) in requirements then requirements[ClassOf(mech)] else {};
      if !(required <= ChannelCapabilities(peer)) {
        ending := Returned(NONE, Failure(DENIED));
        return;
      }
      match mech
      case ScramFirst(_) | ScramLast(_) => ending, visits := StartScram(mech, peer, session, v, visits);
      case Gssapi(token) =>
        visits := visits + [Visit(CallGssapi(None, token, peer), v.gssapi)];
        ending := ApplyGssapi(v.gssapi, peer, session, request);
      case ClientCertificate =>
        visits := visits + [Visit(CallCertificate(peer), v.certificate)];
        if v.certificate.Judged? {
          ending := Apply(session, v.certificate.outcome, request, peer);
        } else {
          ending := Thrown(v.certificate);
        }
      case OtpToken(_) => ending := Apply(session, Reject(AUTH_ERR), request, peer);
    }

    method OnContinue(request: Request, session: SessionState, v: Verifiers)
      returns (ending: Ending, ghost visits: seq<Visit>)
      requires request.mechanism.Some? && !request.mechanism.value.ClientCertificate?
      modifies session`internal
      ensures Turn(session.internal, visits, ending) == Continue(old(session.internal), request, v)
    {
      var holder, mech := session.internal, request.mechanism.value;
      visits := [];
      match mech
      case ScramFirst(_) | ScramLast(_) =>
        if !holder.ScramPending? {
          ending := Returned(NONE, Failure(AUTH_ERR));
        } else {
          ending, visits := FinishScram(mech, session, request, v);
        }
      case Gssapi(token) =>
        if !holder.GssapiPending? {
          ending := Returned(NONE, Failure(AUTH_ERR));
        } else {
          visits := [Visit(CallGssapi(Some(holder.pending), token, holder.from), v.gssapi)];
          ending := ApplyGssapi(v.gssapi, holder.from, session, request);
        }
      case OtpToken(otp) =>
        if !holder.OtpPending? {
          ending := Returned(INIT, Failure(AUTH_ERR));
        } else {
          visits := [Visit(CallOtp(holder.pending, otp, holder.from), v.otp)];
          ending := CheckOtp(v.otp, holder.from, session, request);
        }
    }

    method CheckOtp(answer: Answer, from: Internal, session: SessionState, request: Request)
      returns (ending: Ending)
      modifies session`internal
      ensures answer.Judged? && answer.outcome.Authenticated? ==>
                session.internal == Known(AttachOrigin(answer.outcome.authd.identity, from)) &&
                ending == Returned(ESTABLISHED, Success(Info(request, answer.outcome.authd)))
      ensures answer.Judged? && answer.outcome.NeedsOtp? ==>
                session.internal == OtpPending(from, answer.outcome.pending) &&
                ending == Returned(INIT, OtpRequired(answer.outcome.username))
      ensures answer.Judged? && answer.outcome.Reject? ==>
                session.internal == old(session.internal) &&
                var denial := answer.outcome.denial;
                ending == Returned(if denial.AUTH_ERR? then INIT else NONE, Failure(denial))
      ensures !answer.Judged? ==> session.internal == old(session.internal) && ending == Thrown(answer)
    {
      match answer
      case Judged(Authenticated(authd)) =>
        session.internal := Known(AttachOrigin(authd.identity, from));
        ending := Returned(ESTABLISHED, Success(Info(request, authd)));
      case Judged(NeedsOtp(pending, username)) =>
        session.internal := OtpPending(from, pending);
        ending := Returned(INIT, OtpRequired(username));
      case Judged(Reject(AUTH_ERR)) => ending := Returned(INIT, Failure(AUTH_ERR));
      case Judged(Reject(denial)) => ending := Returned(NONE, Failure(denial));
      case _ => ending := Thrown(answer);
    }

    method Apply(session: SessionState, outcome: Outcome, request: Request, peer: Internal)
      returns (ending: Ending)
      requires session.internal == peer
      modifies session`internal
      ensures forall visits :: Turn(session.internal, visits, ending) == Settle(peer, visits, outcome, request)
    {
      match outcome
      case Authenticated(authd) =>
        session.internal := Known(AttachOrigin(authd.identity, peer));
        ending := Returned(ESTABLISHED, Success(Info(request, authd)));
      case NeedsOtp(pending, username) =>
        session.internal := OtpPending(peer, pending);
        ending := Returned(INIT, OtpRequired(username));
      case Reject(denial) => ending := Returned(NONE, Failure(denial));
    }

    method StartScram(mech: Mechanism, peer: Internal, session: SessionState, v: Verifiers, ghost before: seq<Visit>)
      returns (ending: Ending, ghost visits: seq<Visit>)
      requires session.internal == peer
      modifies session`internal
      ensures Turn(session.internal, visits, ending) == ScramSetup(peer, before, mech, v)
    {
      if !mech.ScramFirst? {
        return Returned(NONE, Failure(AUTH_ERR)), before;
      }
      visits := before + [Visit(CallScramBegin(mech.rfc, peer), v.scramBegin)];
      match v.scramBegin
      case Challenged(first, pending) =>
        session.internal := ScramPending(peer, pending);
        ending := Returned(INIT, ServerFirst(first));
      case Judged(Reject(denial)) => ending := Returned(NONE, Failure(denial));
      case _ => ending := Thrown(v.scramBegin);
    }

    method FinishScram(mech: Mechanism, session: SessionState, request: Request, v: Verifiers)
      returns (ending: Ending, ghost visits: seq<Visit>)
      requires session.internal.ScramPending?
      modifies session`internal
      ensures Turn(session.internal, visits, ending) == ScramFinal(old(session.internal), mech, request, v)
    {
      var holder := session.internal;
      if !mech.ScramLast? {
        return Returned(NONE, Failure(AUTH_ERR)), [];
      }
      visits := [Visit(CallScramFinish(holder.pending, mech.rfc, holder.from), v.scramFinish)];
      match v.scramFinish
      case Judged(Reject(denial)) => ending := Returned(NONE, Failure(denial));
      case Finished(last, NeedsOtp(pending, _)) =>
        session.internal := OtpPending(holder.from, pending);
        ending := Returned(INIT, ServerFinal(last, None, true));
      case Finished(last, Authenticated(authd)) =>
        session.internal := Known(AttachOrigin(authd.identity, holder.from));
        ending := Returned(ESTABLISHED, ServerFinal(last, Info(request, authd), false));
      case _ => ending := Thrown(v.scramFinish);
    }

    method ApplyGssapi(answer: Answer, from: Internal, session: SessionState, request: Request)
      returns (ending: Ending)
      modifies session`internal
      ensures forall visits, v: Verifiers :: v.gssapi == answer ==>
                Turn(session.internal, visits, ending) == GssapiApply(old(session.internal), from, visits, request, v)
    {
      match answer
      case Judged(Reject(denial)) => ending := Returned(NONE, Failure(denial));
      case Challenged(token, pending) =>
        session.internal := GssapiPending(from, pending);
        ending := Returned(INIT, GssapiReply(token, None, false));
      case Finished(token, Authenticated(authd)) =>
        session.internal := Known(AttachOrigin(authd.identity, from));
        ending := Returned(ESTABLISHED, GssapiReply(token, Info(request, authd), true));
      case _ => ending := Thrown(answer);
    }

    /** The session's control messages: setup only from NONE, continue only from INIT, and
        nothing once closed; a handler that raised leaves the lifecycle alone. */
    method Control(session: SessionState, m: Message) returns (reply: Reply, ghost visits: seq<Visit>)
      requires Decodable(m)
      modifies session
      ensures Handled(Session(session.lifecycle, session.internal), visits, reply) ==
              Handle(requirements, old(Session(session.lifecycle, session.internal)), m)
    {
      visits := [];
      if session.lifecycle.CLOSED? {
        reply := if m.hasId then Error(SESSION_NOT_ESTABLISHED, true) else Silence;
        return;
      }
      if !m.hasId {
        reply := Error(INVALID_REQUEST, false);
        return;
      }
      if m.body.SessionClose? {
        if session.lifecycle.NONE? {
          reply := Error(REQUEST_FAILED, true);
        } else {
          session.lifecycle := CLOSED;
          reply := Closed;
        }
        return;
      }
      if session.lifecycle != if m.body.SessionSetup? then NONE else INIT {
        reply := Error(REQUEST_FAILED, true);
        return;
      }
      if m.body.request.None? {
        reply := Error(INVALID_PARAMS, true);
        return;
      }
      var outcome: Ending;
      if m.body.SessionSetup? {
        outcome, visits := OnSetup(m.body.request.value, session, m.verifiers);
      } else {
        outcome, visits := OnContinue(m.body.request.value, session, m.verifiers);
      }
      match outcome
      case Returned(lifecycle, response) =>
        session.lifecycle := lifecycle;
        reply := Result(response);
      case Threw(None) => reply := Error(INTERNAL_ERROR, true);
      case Threw(Some(code)) => reply := Error(Chosen(code), true);
    }
  }
}
