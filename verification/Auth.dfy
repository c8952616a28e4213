/** `mixins/auth/stack.py` and the session handlers of `protocol.py`: a session's lifecycle, the
    pending holder between two steps of an attempt, and verifiers that answer what they like. */
module Auth {
  import opened Options

  import opened Lifecycles

  type Token(==, !new)
  type Text(==, !new)

  // ---- peers, identities and what a channel provides -------------------------------------------

  datatype Transport = Unix | Tcp

  datatype Address = HostAndPort(host: Text, port: Text, loopback: bool) | OtherAddress(text: Text, loopback: bool)

  datatype Peer = Peer(transport: Transport, uid: Option<nat>, pid: Option<nat>, address: Option<Address>,
                       tls: bool, peercert: Option<Token>)

  /** `_peer_origin`, before it is written as text. */
  datatype Origin = AtHost(host: Text, port: Text) | AtAddress(text: Text) | OfUid(uid: nat) | OfPid(pid: nat)

  datatype Datum = FromPeer(origin: Origin) | Own(text: Text)

  datatype Identity = Record(fields: map<string, Datum>) | Opaque(name: Text)

  /** `server_state_internal`.  After a failed attempt a holder stays, and the next attempt
      takes it for the peer. */
  datatype Internal =
    | NoPeer
    | Connected(peer: Peer)
    | OtpPending(from: Internal, pending: Token)
    | ScramPending(from: Internal, pending: Token)
    | GssapiPending(from: Internal, pending: Token)
    | Known(identity: Identity)
  {
    predicate Holder() { OtpPending? || ScramPending? || GssapiPending? }
  }

  function PeerOrigin(i: Internal): Option<Origin> {
    if !i.Connected? then None
    else
      match i.peer.address
      case Some(HostAndPort(host, port, _)) => Some(AtHost(host, port))
      case Some(OtherAddress(text, _)) => Some(AtAddress(text))
      case None =>
        if i.peer.uid.Some? then Some(OfUid(i.peer.uid.value))
        else if i.peer.pid.Some? then Some(OfPid(i.peer.pid.value))
        else None
  }

  function AttachOrigin(identity: Identity, i: Internal): Identity {
    if identity.Record? && "origin" !in identity.fields && PeerOrigin(i).Some? then
      Record(identity.fields["origin" := FromPeer(PeerOrigin(i).value)])
    else identity
  }

  /** What an identity becomes when it is recorded for `peer`, read off its fields: what the verifier
      gave is kept, an `origin` of its own included, and no other field is added. */
  predicate Recorded(given: Identity, kept: Identity, peer: Internal) {
    if given.Opaque? then kept == given
    else
      && kept.Record?
      && (forall k :: k in given.fields ==> k in kept.fields && kept.fields[k] == given.fields[k])
      && (forall k :: k in kept.fields && k !in given.fields ==>
            k == "origin" && kept.fields[k].FromPeer? && ComesFrom(kept.fields[k].origin, peer))
      && ("origin" in kept.fields <==> "origin" in given.fields || HasOrigin(peer))
  }

  predicate HasOrigin(peer: Internal) {
    peer.Connected? && (peer.peer.address.Some? || peer.peer.uid.Some? || peer.peer.pid.Some?)
  }

  /** The address if there is one, else the uid, else the pid. */
  predicate ComesFrom(origin: Origin, peer: Internal) {
    && peer.Connected?
    && match origin
       case AtHost(host, port) =>
         && peer.peer.address.Some? && peer.peer.address.value.HostAndPort?
         && peer.peer.address.value.host == host && peer.peer.address.value.port == port
       case AtAddress(text) =>
         peer.peer.address.Some? && peer.peer.address.value.OtherAddress? && peer.peer.address.value.text == text
       case OfUid(uid) => peer.peer.address.None? && peer.peer.uid == Some(uid)
       case OfPid(pid) => peer.peer.address.None? && peer.peer.uid.None? && peer.peer.pid == Some(pid)
  }

  lemma {:induction false} AttachOriginRecords(identity: Identity, peer: Internal)
    ensures Recorded(identity, AttachOrigin(identity, peer), peer)
  {}

  datatype Capability = LOCAL | ENCRYPTED | CLIENT_CERT | PEERCRED

  function ChannelCapabilities(i: Internal): set<Capability> {
    if !i.Connected? then {}
    else
      var p := i.peer;
      (if p.transport.Unix? then {LOCAL, ENCRYPTED} + (if p.uid.Some? then {PEERCRED} else {}) else {})
      + (if p.tls || (p.transport.Tcp? && p.address.Some? && p.address.value.loopback) then {ENCRYPTED} else {})
      + (if p.peercert.Some? then {CLIENT_CERT} else {})
  }

  // ---- requests, replies and what a verifier answers ----------------------------------------------

  datatype Mechanism =
    | ClientCertificate
    | ScramFirst(rfc: Text)
    | ScramLast(rfc: Text)
    | Gssapi(token: Text)
    | OtpToken(otp: Text)

  /** `requirements` knows a mechanism by its class. */
  datatype MechanismClass = CERTIFICATE | SCRAM | GSSAPI | OTP

  function ClassOf(m: Mechanism): MechanismClass {
    match m
    case ClientCertificate => CERTIFICATE
    case ScramFirst(_) | ScramLast(_) => SCRAM
    case Gssapi(_) => GSSAPI
    case OtpToken(_) => OTP
  }

  datatype Request = Request(mechanism: Option<Mechanism>, userInfo: bool)

  datatype Denial = AUTH_ERR | EXPIRED | DENIED

  datatype Response =
    | Failure(denial: Denial)
    | Success(info: Option<Text>)
    | OtpRequired(username: Text)
    | ServerFirst(rfc: Text)
    | ServerFinal(rfc: Text, info: Option<Text>, otpRequired: bool)
    | GssapiReply(token: Text, info: Option<Text>, complete: bool)

  datatype Authd = Authd(identity: Identity, info: Option<Text>)

  datatype Outcome = Authenticated(authd: Authd) | NeedsOtp(pending: Token, username: Text) | Reject(denial: Denial)

  /** A verifier that raises may do so with a JSON-RPC error of its own. */
  datatype Answer =
    | Raised(code: Option<int>)
    | Declined
    | Judged(outcome: Outcome)
    | Challenged(message: Text, pending: Token)
    | Finished(message: Text, outcome: Outcome)

  /** What each verifier answers if the message at hand makes it run: it may raise instead. */
  datatype Verifiers = Verifiers(
    peercred: Answer, certificate: Answer, scramBegin: Answer, scramFinish: Answer, gssapi: Answer, otp: Answer)

  /** The return types of the verifiers. */
  predicate Typed(v: Verifiers) {
    && (v.peercred.Raised? || v.peercred.Declined? || (v.peercred.Judged? && v.peercred.outcome.Authenticated?))
    && (v.certificate.Raised? || v.certificate.Judged?)
    && (v.otp.Raised? || v.otp.Judged?)
    && (v.scramBegin.Raised? || v.scramBegin.Challenged? || (v.scramBegin.Judged? && v.scramBegin.outcome.Reject?))
    && (v.scramFinish.Raised? || (v.scramFinish.Judged? && v.scramFinish.outcome.Reject?)
        || (v.scramFinish.Finished? && !v.scramFinish.outcome.Reject?))
    && (v.gssapi.Raised? || v.gssapi.Challenged? || (v.gssapi.Judged? && v.gssapi.outcome.Reject?)
        || (v.gssapi.Finished? && v.gssapi.outcome.Authenticated?))
  }

  datatype Call =
    | CallPeercred(peer: Internal)
    | CallCertificate(peer: Internal)
    | CallScramBegin(rfc: Text, peer: Internal)
    | CallScramFinish(pending: Token, rfc: Text, peer: Internal)
    | CallGssapi(state: Option<Token>, token: Text, peer: Internal)
    | CallOtp(pending: Token, otp: Text, peer: Internal)

  /** One verifier call and its answer. */
  datatype Visit = Visit(call: Call, answer: Answer)
  {
    /** The outcome the verifier returned, if it returned one. */
    function Verdict(): Option<Outcome> {
      if answer.Judged? || answer.Finished? then Some(answer.outcome) else None
    }
  }

  // ---- the handlers -----------------------------------------------------------------------------

  /** A handler returns a lifecycle and a response, or lets what a verifier raised through. */
  datatype Ending = Returned(lifecycle: Lifecycle, response: Response) | Threw(code: Option<int>)

  /** What a handler leaves in the session, whom it asked, and how it ended. */
  datatype Turn = Turn(internal: Internal, visits: seq<Visit>, ending: Ending)

  function Thrown(answer: Answer): Ending {
    Threw(if answer.Raised? then answer.code else None)
  }

  function Stay(i: Internal, visits: seq<Visit>, l: Lifecycle, r: Response): Turn {
    Turn(i, visits, Returned(l, r))
  }

  function Info(request: Request, authd: Authd): Option<Text> {
    if request.userInfo then authd.info else None
  }

  function Establish(from: Internal, visits: seq<Visit>, authd: Authd, r: Response): Turn {
    Turn(Known(AttachOrigin(authd.identity, from)), visits, Returned(ESTABLISHED, r))
  }

  /** `_apply`. */
  function Settle(i: Internal, visits: seq<Visit>, outcome: Outcome, request: Request): Turn {
    match outcome
    case Authenticated(authd) => Establish(i, visits, authd, Success(Info(request, authd)))
    case NeedsOtp(pending, username) => Turn(OtpPending(i, pending), visits, Returned(INIT, OtpRequired(username)))
    case Reject(denial) => Stay(i, visits, NONE, Failure(denial))
  }

  function ScramSetup(i: Internal, before: seq<Visit>, mech: Mechanism, v: Verifiers): Turn {
    if !mech.ScramFirst? then Stay(i, before, NONE, Failure(AUTH_ERR))
    else
      var visits := before + [Visit(CallScramBegin(mech.rfc, i), v.scramBegin)];
      match v.scramBegin
      case Challenged(first, pending) => Turn(ScramPending(i, pending), visits, Returned(INIT, ServerFirst(first)))
      case Judged(Reject(denial)) => Stay(i, visits, NONE, Failure(denial))
      case _ => Turn(i, visits, Thrown(v.scramBegin))
  }

  function ScramFinal(i: Internal, mech: Mechanism, request: Request, v: Verifiers): Turn
    requires i.ScramPending?
  {
    if !mech.ScramLast? then Stay(i, [], NONE, Failure(AUTH_ERR))
    else
      var visits := [Visit(CallScramFinish(i.pending, mech.rfc, i.from), v.scramFinish)];
      match v.scramFinish
      case Finished(last, NeedsOtp(pending, _)) =>
        Turn(OtpPending(i.from, pending), visits, Returned(INIT, ServerFinal(last, None, true)))
      case Finished(last, Authenticated(authd)) =>
        Establish(i.from, visits, authd, ServerFinal(last, Info(request, authd), false))
      case Judged(Reject(denial)) => Stay(i, visits, NONE, Failure(denial))
      case _ => Turn(i, visits, Thrown(v.scramFinish))
  }

  function GssapiApply(i: Internal, from: Internal, visits: seq<Visit>, request: Request, v: Verifiers): Turn {
    match v.gssapi
    case Challenged(token, pending) =>
      Turn(GssapiPending(from, pending), visits, Returned(INIT, GssapiReply(token, None, false)))
    case Finished(token, Authenticated(authd)) =>
      Establish(from, visits, authd, GssapiReply(token, Info(request, authd), true))
    case Judged(Reject(denial)) => Stay(i, visits, NONE, Failure(denial))
    case _ => Turn(i, visits, Thrown(v.gssapi))
  }

  /** A login mechanism on a channel that must provide what the mechanism requires. */
  function Login(requirements: map<MechanismClass, set<Capability>>, i: Internal, before: seq<Visit>,
                 request: Request, v: Verifiers): Turn
  {
    if request.mechanism.None? then Stay(i, before, NONE, Failure(AUTH_ERR))
    else
      var mech := request.mechanism.value;
      var required := if ClassOf(mech) in requirements then requirements[ClassOf(mech)] else {};
      if !(required <= ChannelCapabilities(i)) then Stay(i, before, NONE, Failure(DENIED))
      else
        match mech
        case ScramFirst(_) | ScramLast(_) => ScramSetup(i, before, mech, v)
        case Gssapi(token) =>
          GssapiApply(i, i, before + [Visit(CallGssapi(None, token, i), v.gssapi)], request, v)
        case ClientCertificate =>
          var visits := before + [Visit(CallCertificate(i), v.certificate)];
          if v.certificate.Judged? then Settle(i, visits, v.certificate.outcome, request)
          else Turn(i, visits, Thrown(v.certificate))
        case OtpToken(_) => Settle(i, before, Reject(AUTH_ERR), request)
  }

  /** `_on_setup`: over AF_UNIX the peer's credentials come first. */
  function Setup(requirements: map<MechanismClass, set<Capability>>, i: Internal, request: Request,
                 v: Verifiers): Turn
  {
    if i.Connected? && i.peer.transport.Unix? then
      var visits := [Visit(CallPeercred(i), v.peercred)];
      match v.peercred
      case Judged(Authenticated(authd)) => Establish(i, visits, authd, Success(Info(request, authd)))
      case Declined => Login(requirements, i, visits, request, v)
      case _ => Turn(i, visits, Thrown(v.peercred))
    else Login(requirements, i, [], request, v)
  }

  /** `_on_continue`. */
  function Continue(i: Internal, request: Request, v: Verifiers): Turn
    requires request.mechanism.Some? && !request.mechanism.value.ClientCertificate?
  {
    var mech := request.mechanism.value;
    match mech
    case ScramFirst(_) | ScramLast(_) =>
      if i.ScramPending? then ScramFinal(i, mech, request, v) else Stay(i, [], NONE, Failure(AUTH_ERR))
    case Gssapi(token) =>
      if i.GssapiPending? then
        GssapiApply(i, i.from, [Visit(CallGssapi(Some(i.pending), token, i.from), v.gssapi)], request, v)
      else Stay(i, [], NONE, Failure(AUTH_ERR))
    case OtpToken(otp) =>
      if !i.OtpPending? then Stay(i, [], INIT, Failure(AUTH_ERR))
      else
        var visits := [Visit(CallOtp(i.pending, otp, i.from), v.otp)];
        match v.otp
        case Judged(Authenticated(authd)) => Establish(i.from, visits, authd, Success(Info(request, authd)))
        case Judged(NeedsOtp(pending, username)) =>
          Turn(OtpPending(i.from, pending), visits, Returned(INIT, OtpRequired(username)))
        case Judged(Reject(denial)) =>
          Stay(i, visits, if denial.AUTH_ERR? then INIT else NONE, Failure(denial))
        case _ => Turn(i, visits, Thrown(v.otp))
  }

  // ---- the session's control messages --------------------------------------------------------------

  /** A decoded control message, `None` in place of params that do not decode. */
  datatype Body = SessionSetup(request: Option<Request>) | SessionContinue(request: Option<Request>) | SessionClose

  datatype Message = Message(hasId: bool, body: Body, verifiers: Verifiers)

  datatype ErrorCode =
    | INVALID_REQUEST | INVALID_PARAMS | REQUEST_FAILED | SESSION_NOT_ESTABLISHED | INTERNAL_ERROR | Chosen(code: int)

  datatype Reply = Silence | Error(code: ErrorCode, own: bool) | Result(response: Response) | Closed

  /** What decodes: a continue has a mechanism, and only the mechanisms of its schema. */
  predicate Decodable(m: Message) {
    && Typed(m.verifiers)
    && (m.body.SessionSetup? && m.body.request.Some? && m.body.request.value.mechanism.Some? ==>
          !m.body.request.value.mechanism.value.OtpToken?)
    && (m.body.SessionContinue? && m.body.request.Some? ==>
          m.body.request.value.mechanism.Some? && !m.body.request.value.mechanism.value.ClientCertificate?)
  }

  datatype Session = Session(lifecycle: Lifecycle, internal: Internal)

  datatype Handled = Handled(session: Session, visits: seq<Visit>, reply: Reply)

  function Commit(s: Session, t: Turn): Handled {
    match t.ending
    case Returned(l, r) => Handled(Session(l, t.internal), t.visits, Result(r))
    case Threw(None) => Handled(s.(internal := t.internal), t.visits, Error(INTERNAL_ERROR, true))
    case Threw(Some(code)) => Handled(s.(internal := t.internal), t.visits, Error(Chosen(code), true))
  }

  function Refuse(s: Session, code: ErrorCode, own: bool): Handled {
    Handled(s, [], Error(code, own))
  }

  function Handle(requirements: map<MechanismClass, set<Capability>>, s: Session, m: Message): Handled
    requires Decodable(m)
  {
    if s.lifecycle.CLOSED? then
      if m.hasId then Refuse(s, SESSION_NOT_ESTABLISHED, true) else Handled(s, [], Silence)
    else if !m.hasId then Refuse(s, INVALID_REQUEST, false)
    else
      match m.body
      case SessionSetup(request) =>
        if !s.lifecycle.NONE? then Refuse(s, REQUEST_FAILED, true)
        else if request.None? then Refuse(s, INVALID_PARAMS, true)
        else Commit(s, Setup(requirements, s.internal, request.value, m.verifiers))
      case SessionContinue(request) =>
        if !s.lifecycle.INIT? then Refuse(s, REQUEST_FAILED, true)
        else if request.None? then Refuse(s, INVALID_PARAMS, true)
        else Commit(s, Continue(s.internal, request.value, m.verifiers))
      case SessionClose =>
        if s.lifecycle.NONE? then Refuse(s, REQUEST_FAILED, true)
        else Handled(s.(lifecycle := CLOSED), [], Closed)
  }
}
