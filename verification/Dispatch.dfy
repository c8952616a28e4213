/** The dispatch pipeline of `protocol.py`: every decodable message, every configuration and
    every answer of the application's callbacks. */
module Dispatch {
  import opened Filters
  import opened Options
  import opened Lifecycles
  import opened Schemas
  import opened Audit

  /** How `True` reads in a result. */
  const TRUE := Atom(1)

  // ---- messages, configuration and answers ------------------------------------------------------

  datatype IdField = NoId | Uuid(id: Id) | BadId

  /** `version` says that `jsonrpc` is exactly "2.0"; the target is absent when `method` is no
      non-empty string. */
  datatype Wire = NotJson | NotAnObject | Envelope(id: IdField, version: bool, target: Option<Target>)

  /** A raw-fd transfer streams to the client or from it; one that passes fds needs AF_UNIX. */
  datatype Kind = Normal(handled: bool) | Topic | Transfer(download: bool, fdPass: bool)

  datatype Method = Method(kind: Kind, preAuth: bool, audit: bool, audited: Audited)

  /** `audit` and `authorize` say whether these handlers are registered, `queued` whether audit
      jobs go to a queue, and `env` has the classes that their redaction plans are compiled from. */
  datatype Config = Config(
    audit: bool, authorize: bool, setup: Option<Audited>, more: Option<Audited>, serverInfo: bool,
    methods: map<Name, Method>, env: Env, queued: bool)

  datatype Checked = Refused | Kept | Replaced(value: Value)

  datatype Authorization = AuthRaised | NoResponse | Denied | Allowed

  datatype Ran = Gave(value: Value) | RaisedRpc(code: int) | RaisedOther

  datatype Found = FoundNothing | FoundSubscription | FoundRequest(cancellable: bool)

  datatype SetupRan = SetupRaisedRpc(code: int) | SetupRaised | NoPair | NoLifecycle | Moved(lifecycle: Lifecycle)

  /** What decoding, the validators and the callbacks answer if this message reaches them.
      `interim` says that what `negotiate` gave converts to builtins, `encodes` that what a
      callback put into the response can be encoded, and `paramsConvert` and `resultConverts`
      that the audit's redaction can copy the params and the result. */
  datatype Answers = Answers(
    params: Option<Value>, accepts: Checked, authorization: Authorization, ran: Ran, detail: Option<string>,
    converted: Option<Value>, checked: Checked, subId: Value, found: Found, cancelRaises: bool, setup: SetupRan,
    interim: bool, encodes: bool, paramsConvert: bool, resultConverts: bool)

  /** What a message made happen, besides its reply. */
  datatype Effect = Handled | Subscribed | Negotiated | Unsubscribed | Signalled | SetUp | Closed | Informed

  /** Nothing, one envelope, a directive to run a raw-fd transfer, or an exception: the
      connection drops that and sends nothing. */
  datatype Reply = Silence | Send(response: Response) | Begin(id: Id) | Raised

  // ---- what a message is owed -----------------------------------------------------------------------

  function IdOf(w: Wire): Option<Id> {
    if w.Envelope? && w.id.Uuid? then Some(w.id.id) else None
  }

  /** Structurally valid, on a session that is not closed. */
  predicate Accepted(l: Lifecycle, w: Wire) {
    w.Envelope? && !w.id.BadId? && w.version && w.target.Some? && !l.CLOSED?
  }

  /** Once setup is configured, a method that is not `pre_auth` needs an established session. */
  predicate Gate(c: Config, l: Lifecycle, m: Method) {
    c.setup.Some? && !m.preAuth ==> l.ESTABLISHED?
  }

  predicate ParamsFit(a: Answers) {
    a.params.Some? && !a.accepts.Refused?
  }

  predicate Authorized(c: Config, a: Answers) {
    c.authorize ==> a.authorization.Allowed?
  }

  /** Why a message with an id is refused before anybody is asked, if it is. */
  function Rejection(c: Config, l: Lifecycle, target: Target, a: Answers): Option<Code> {
    match target
    case CancelRequest => if a.params.None? then Some(INVALID_PARAMS) else None
    case ServerInfo => if c.serverInfo then None else Some(METHOD_NOT_FOUND)
    case SessionSetup => SetupRejection(c.setup, NONE, l, a)
    case SessionContinue => SetupRejection(c.more, INIT, l, a)
    case SessionClose => if l.INIT? || l.ESTABLISHED? then None else Some(REQUEST_FAILED)
    case Call(name) =>
      if name !in c.methods then Some(METHOD_NOT_FOUND)
      else if !Gate(c, l, c.methods[name]) then Some(SESSION_NOT_ESTABLISHED)
      else if !ParamsFit(a) then Some(INVALID_PARAMS)
      else None
  }

  function SetupRejection(audited: Option<Audited>, from: Lifecycle, l: Lifecycle, a: Answers): Option<Code> {
    if audited.None? then Some(METHOD_NOT_FOUND)
    else if l != from then Some(REQUEST_FAILED)
    else if !ParamsFit(a) then Some(INVALID_PARAMS)
    else None
  }

  /** Does a message without an id get told that it needs one? */
  predicate NeedsId(c: Config, l: Lifecycle, target: Target, a: Answers) {
    match target
    case CancelRequest | SessionClose => true
    case ServerInfo => c.serverInfo
    case SessionSetup => c.setup.Some?
    case SessionContinue => c.more.Some?
    case Call(name) =>
      && name in c.methods
      && match c.methods[name].kind
         case Normal(_) => false
         case Topic => true
         case Transfer(_, _) => Rejection(c, l, target, a).None?
  }

  /** The value a validator leaves. */
  function Settled(value: Value, checked: Checked): Value {
    if checked.Replaced? then checked.value else value
  }

  /** What converting and validating make of a value a callback gave. */
  function Finished(value: Value, typed: bool, a: Answers): Ran {
    if (typed && a.converted.None?) || a.checked.Refused? then RaisedOther
    else Gave(Settled(if typed then a.converted.value else value, a.checked))
  }

  /** What the authorised stage of a message comes to. */
  function Ending(c: Config, target: Target, a: Answers): Ran {
    match target
    case CancelRequest =>
      (match a.found
       case FoundNothing => RaisedOther
       case FoundSubscription => Gave(TRUE)
       case FoundRequest(cancellable) => if cancellable && !a.cancelRaises then Gave(TRUE) else RaisedOther)
    case ServerInfo =>
      if !a.ran.Gave? then a.ran else if a.converted.Some? then Gave(a.converted.value) else RaisedOther
    case SessionSetup | SessionContinue =>
      (match a.setup
       case SetupRaisedRpc(code) => RaisedRpc(code)
       case Moved(_) => if a.converted.Some? then Gave(a.converted.value) else RaisedOther
       case _ => RaisedOther)
    case SessionClose => Gave(TRUE)
    case Call(name) =>
      if name !in c.methods then RaisedOther
      else
        var m := c.methods[name];
        match m.kind
        case Topic => Gave(a.subId)
        case Transfer(_, _) => a.ran
        case Normal(handled) =>
          if !handled then RaisedOther
          else if a.ran.Gave? then Finished(a.ran.value, m.audited.gives.Some?, a)
          else a.ran
  }

  /** Only cancels and calls ask the authorization handler. */
  predicate AsksLeave(target: Target) {
    target.CancelRequest? || target.Call?
  }

  /** A cancel of nothing, or of what cannot be cancelled, is refused; an unexpected failure is
      an internal error. */
  function FailureCode(target: Target, a: Answers): Code {
    if target.CancelRequest? && (a.found.FoundNothing? || a.found == FoundRequest(false)) then REQUEST_FAILED
    else INTERNAL_ERROR
  }

  /** The response of a message that was not rejected. */
  function Answer(c: Config, w: Wire, a: Answers): Response
    requires w.Envelope? && w.target.Some?
  {
    var rid, target := IdOf(w), w.target.value;
    if AsksLeave(target) && !Authorized(c, a) then
      Failed(rid, if a.authorization.Denied? then NOT_AUTHORIZED else INTERNAL_ERROR)
    else
      match Ending(c, target, a)
      case Gave(value) => Succeeded(rid, value)
      case RaisedRpc(code) => Failed(rid, Chosen(code))
      case RaisedOther => Failed(rid, FailureCode(target, a))
  }

  predicate IsTransfer(c: Config, target: Target) {
    target.Call? && target.name in c.methods && c.methods[target.name].kind.Transfer?
  }

  /** What `_dispatch_one` comes to, unless its audit raises. */
  function ReplyMeant(c: Config, l: Lifecycle, w: Wire, a: Answers): Reply {
    match w
    case NotJson => Send(Failed(None, INVALID_JSON))
    case NotAnObject => Send(Failed(None, INVALID_REQUEST))
    case Envelope(id, version, target) =>
      if id.BadId? then Send(Failed(None, INVALID_REQUEST))
      else if !version || target.None? then Send(Failed(IdOf(w), INVALID_REQUEST))
      else if l.CLOSED? then (if id.NoId? then Silence else Send(Failed(IdOf(w), SESSION_NOT_ESTABLISHED)))
      else if id.NoId? then
        if NeedsId(c, l, target.value, a) then Send(Failed(None, INVALID_REQUEST)) else Silence
      else
        match Rejection(c, l, target.value, a)
        case Some(code) => Send(Failed(IdOf(w), code))
        case None =>
          if IsTransfer(c, target.value) && Answer(c, w, a).Succeeded? then (if a.interim then Begin(id.id) else Raised)
          else Send(Answer(c, w, a))
  }

  /** Does the response carry what a callback gave: a result, or the data of its error? */
  predicate FromCallback(c: Config, target: Target, a: Answers) {
    if AsksLeave(target) && !Authorized(c, a) then a.authorization.Denied?
    else
      match Ending(c, target, a)
      case RaisedRpc(_) => true
      case RaisedOther => false
      case Gave(_) =>
        match target
        case CancelRequest | SessionClose => false
        case ServerInfo | SessionSetup | SessionContinue => true
        case Call(name) => name in c.methods && c.methods[name].kind.Normal?
  }

  /** Does the message reach the stage where somebody is asked? */
  predicate Reaches(c: Config, l: Lifecycle, w: Wire, a: Answers) {
    && Accepted(l, w) && Rejection(c, l, w.target.value, a).None?
    && (w.id.NoId? ==> !NeedsId(c, l, w.target.value, a))
  }

  /** What the message makes happen, besides its reply and its audit. */
  function Effects(c: Config, l: Lifecycle, w: Wire, a: Answers): seq<Effect> {
    if !Reaches(c, l, w, a) || (AsksLeave(w.target.value) && !Authorized(c, a)) then []
    else
      match w.target.value
      case CancelRequest =>
        if a.found.FoundSubscription? then [Unsubscribed] else if a.found == FoundRequest(true) then [Signalled] else []
      case ServerInfo => [Informed]
      case SessionSetup | SessionContinue => [SetUp]
      case SessionClose => [Closed]
      case Call(name) =>
        match c.methods[name].kind
        case Normal(handled) => if handled then [Handled] else []
        case Topic => [Subscribed]
        case Transfer(_, _) => [Negotiated]
  }

  /** The session's lifecycle moves only with a setup handler's result, or a close. */
  function LifecycleAfter(c: Config, l: Lifecycle, w: Wire, a: Answers): Lifecycle {
    if Effects(c, l, w, a) == [Closed] then CLOSED
    else if Effects(c, l, w, a) == [SetUp] && a.setup.Moved? && a.converted.Some? then a.setup.lifecycle
    else l
  }

  // ---- audit ---------------------------------------------------------------------------------------

  /** Control messages that reach their stage are always audited, but for `$/serverInfo`; a
      transfer that proceeds is audited when it has run, in `RunTransfer`. */
  predicate Audits(c: Config, l: Lifecycle, w: Wire, a: Answers) {
    && c.audit && Reaches(c, l, w, a)
    && match w.target.value
       case CancelRequest | SessionSetup | SessionContinue | SessionClose => true
       case ServerInfo => false
       case Call(name) => c.methods[name].audit && (c.methods[name].kind.Transfer? ==> Answer(c, w, a).Failed?)
  }

  function AuditedParams(target: Target, a: Answers): Value {
    if target.SessionClose? || a.params.None? then Null
    else if target.CancelRequest? then a.params.value
    else Settled(a.params.value, a.accepts)
  }

  function JobOwed(c: Config, w: Wire, a: Answers): Job
    requires w.Envelope? && w.target.Some?
  {
    var target := w.target.value;
    Job(Request(target, IdOf(w), AuditedParams(target, a)), Answer(c, w, a),
        match target
        case SessionSetup => c.setup
        case SessionContinue => c.more
        case Call(name) => if name in c.methods then Some(c.methods[name].audited) else None
        case _ => None,
        if target.Call? && target.name in c.methods && c.methods[target.name].kind == Normal(true) && Authorized(c, a)
        then a.detail else None,
        a.paramsConvert, a.resultConverts)
  }

  function JobsOwed(c: Config, l: Lifecycle, w: Wire, a: Answers): seq<Job> {
    if Audits(c, l, w, a) then [JobOwed(c, w, a)] else []
  }

  /** Without a queue the audit runs in dispatch, and its redaction may raise. */
  predicate AuditRaises(c: Config, l: Lifecycle, w: Wire, a: Answers) {
    !c.queued && Audits(c, l, w, a) && !Recordable(c.env, JobOwed(c, w, a))
  }

  /** What `_dispatch_one` comes to. */
  function ReplyOwed(c: Config, l: Lifecycle, w: Wire, a: Answers): Reply {
    if AuditRaises(c, l, w, a) then Raised else ReplyMeant(c, l, w, a)
  }

  predicate Unencodable(c: Config, l: Lifecycle, w: Wire, a: Answers) {
    Reaches(c, l, w, a) && FromCallback(c, w.target.value, a) && !a.encodes
  }

  /** What `dispatch` comes to: the response is encoded last. */
  function WireReply(c: Config, l: Lifecycle, w: Wire, a: Answers): Reply {
    var reply := ReplyOwed(c, l, w, a);
    if reply.Send? && Unencodable(c, l, w, a) then Raised else reply
  }

  /** An authorised transfer whose interim result does not convert, an audit run in dispatch whose
      redaction cannot copy the params or the result, or a response that holds a callback's data
      and does not encode. */
  predicate Raises(c: Config, l: Lifecycle, w: Wire, a: Answers) {
    && w.Envelope? && Reaches(c, l, w, a)
    && if w.id.Uuid? && IsTransfer(c, w.target.value) && Answer(c, w, a).Succeeded? then !a.interim
       else AuditRaises(c, l, w, a) || (w.id.Uuid? && Unencodable(c, l, w, a))
  }

  // ---- a transfer that begins ------------------------------------------------------------------------

  datatype Transport = Unix | Tcp

  /** The frame that ends a download's wait: the go, another one, or none before the close. */
  datatype GoFrame = Go | OtherFrame | NoFrame

  /** What `_run_transfer` meets: whether the connection is still open when dispatch returns, the
      peer, whether the channel has a plaintext fd, whether the writes and mode changes of the
      handshake succeed, and the frame that a download waits for. */
  datatype Link = Link(open: bool, peer: Option<Transport>, plaintext: bool, wire: bool, answer: GoFrame)

  /** The connection's own guards: passing fds needs AF_UNIX, and any transfer a plaintext fd. */
  predicate Refuses(m: Method, link: Link)
    requires m.kind.Transfer?
  {
    (m.kind.fdPass && link.peer != Some(Unix)) || !link.plaintext
  }

  predicate Breaks(m: Method, link: Link)
    requires m.kind.Transfer?
  {
    !link.wire || (m.kind.download && link.answer != Go)
  }

  /** The second half is not reached. */
  predicate Stopped(m: Method, link: Link)
    requires m.kind.Transfer?
  {
    !link.open || Refuses(m, link) || Breaks(m, link)
  }

  /** What the second half comes to. */
  function Final(next: Answers): Ran {
    if next.ran.Gave? then Finished(next.ran.value, true, next) else next.ran
  }

  function FinalResponse(id: Option<Id>, next: Answers): Response {
    match Final(next)
    case Gave(value) => Succeeded(id, value)
    case RaisedRpc(code) => Failed(id, Chosen(code))
    case RaisedOther => Failed(id, INTERNAL_ERROR)
  }

  predicate FinalEncodes(next: Answers) {
    Final(next).RaisedOther? || next.encodes
  }

  function TransferRequest(w: Wire, a: Answers): Request
    requires w.Envelope? && w.target.Some?
  {
    Request(w.target.value, IdOf(w), AuditedParams(w.target.value, a))
  }

  /** The job of the second half. */
  function FinalJob(c: Config, w: Wire, a: Answers, next: Answers): Job
    requires w.Envelope? && w.target.Some? && IsTransfer(c, w.target.value)
  {
    Job(TransferRequest(w, a), FinalResponse(IdOf(w), next), Some(c.methods[w.target.value.name].audited), None,
        a.paramsConvert, next.resultConverts)
  }

  /** The second half audits in the executor, where a redaction that raises takes the response
      with it. */
  predicate FinalAuditRaises(c: Config, w: Wire, a: Answers, next: Answers)
    requires w.Envelope? && w.target.Some? && IsTransfer(c, w.target.value)
  {
    !c.queued && c.audit && c.methods[w.target.value.name].audit && !Recordable(c.env, FinalJob(c, w, a, next))
  }

  /** The response that reaches the wire, if one does. */
  function TransferReply(c: Config, l: Lifecycle, w: Wire, a: Answers, link: Link, next: Answers): Option<Response>
    requires w.Envelope? && w.target.Some? && IsTransfer(c, w.target.value)
  {
    var m := c.methods[w.target.value.name];
    if !link.open then None
    else
      match WireReply(c, l, w, a)
      case Silence | Raised => None
      case Send(response) => Some(response)
      case Begin(id) =>
        if Refuses(m, link) then Some(Failed(Some(id), REQUEST_FAILED))
        else if Breaks(m, link) || FinalAuditRaises(c, w, a, next) || !FinalEncodes(next) then None
        else Some(FinalResponse(Some(id), next))
  }

  /** What is audited over both halves. */
  function TransferJobs(c: Config, l: Lifecycle, w: Wire, a: Answers, link: Link, next: Answers): seq<Job>
    requires w.Envelope? && w.target.Some? && IsTransfer(c, w.target.value)
  {
    var m := c.methods[w.target.value.name];
    if !WireReply(c, l, w, a).Begin? then JobsOwed(c, l, w, a)
    else if Stopped(m, link) || !c.audit || !m.audit then []
    else [FinalJob(c, w, a, next)]
  }

  // ---- what that means ---------------------------------------------------------------------------

  /** A valid id gets exactly one reply, with that id, a result, an error or a transfer, if and
      only if nothing raises outside the handlers' own guards.  Without an id there is nothing,
      or a refusal with a null id, and a malformed id is always refused. */
  lemma {:induction false} RepliesAreDisciplined(c: Config, l: Lifecycle, w: Wire, a: Answers)
    ensures var reply := WireReply(c, l, w, a);
            match w
            case NotJson => reply == Send(Failed(None, INVALID_JSON))
            case NotAnObject => reply == Send(Failed(None, INVALID_REQUEST))
            case Envelope(Uuid(id), _, _) =>
              && (reply == Begin(id) || (reply.Send? && reply.response.id == Some(id)) <==> !Raises(c, l, w, a))
              && (reply.Raised? <==> Raises(c, l, w, a))
            case Envelope(NoId, _, _) =>
              && (reply.Raised? <==> Raises(c, l, w, a))
              && (!reply.Raised? ==> reply.Silence? || reply == Send(Failed(None, INVALID_REQUEST)))
            case Envelope(BadId, _, _) => reply == Send(Failed(None, INVALID_REQUEST))
  {
    hide Ending, Recordable;
  }

  /** The smallest failing input: an open, audited upload whose `negotiate` gives what
      `to_builtins` cannot convert gets no reply and leaves no record. */
  lemma {:induction false} UnconvertedInterimIsSilent(
    env: Env, queued: bool, l: Lifecycle, name: Name, id: Id, m: Audited, a: Answers)
    requires !l.CLOSED? && ParamsFit(a) && a.ran.Gave? && !a.interim
    ensures var upload := Method(Transfer(false, false), false, true, m);
            var c := Config(true, false, None, None, false, map[name := upload], env, queued);
            var w := Envelope(Uuid(id), true, Some(Call(name)));
            && WireReply(c, l, w, a) == Raised && Effects(c, l, w, a) == [Negotiated] && JobsOwed(c, l, w, a) == []
  {}

  /** With setup configured, no handler, subscribe or negotiation of a method that is not
      `pre_auth` runs outside an established session, none without the authorization handler's
      leave, and a closed session does nothing at all. */
  lemma {:induction false} GateHolds(c: Config, l: Lifecycle, w: Wire, a: Answers, e: Effect)
    requires e in Effects(c, l, w, a)
    ensures !l.CLOSED? && Effects(c, l, w, a) == [e]
    ensures e.Handled? || e.Subscribed? || e.Negotiated? ==>
              && w.target.value.Call? && w.target.value.name in c.methods && Authorized(c, a)
              && (c.setup.Some? && !c.methods[w.target.value.name].preAuth ==> l.ESTABLISHED?)
    ensures e.SetUp? ==> if w.target.value.SessionSetup? then l.NONE? else l.INIT?
    ensures !e.Handled? ==> w.id.Uuid?
  {}

  /** What is audited is what was sent: a message that is audited in dispatch and has an id gets
      the audited response, unless that does not encode or its audit raises.  Without a queue a
      job that does not raise leaves its record at once, and one that raises leaves none. */
  lemma {:induction false} AuditShowsTheReply(c: Config, l: Lifecycle, w: Wire, a: Answers)
    requires Audits(c, l, w, a)
    ensures JobsOwed(c, l, w, a) == [JobOwed(c, w, a)]
    ensures w.id.Uuid? ==>
              WireReply(c, l, w, a) == if Raises(c, l, w, a) then Raised else Send(JobOwed(c, w, a).response)
    ensures w.id.NoId? ==>
              && JobOwed(c, w, a).response.id.None?
              && WireReply(c, l, w, a) == if Raises(c, l, w, a) then Raised else Silence
    ensures Inline(c.env, JobsOwed(c, l, w, a)) ==
            if Recordable(c.env, JobOwed(c, w, a)) then [RecordOf(c.env, JobOwed(c, w, a))] else []
  {
    InlineOfOne(c.env, JobOwed(c, w, a));
    hide Ending, Recordable, RecordOf;
  }

  /** What an audited transfer is audited as: refused or failed in its first half, or ended. */
  function AuditedAs(c: Config, w: Wire, a: Answers, next: Answers): Job
    requires w.Envelope? && w.target.Some? && IsTransfer(c, w.target.value)
  {
    if Authorized(c, a) && a.ran.Gave? then FinalJob(c, w, a, next) else JobOwed(c, w, a)
  }

  lemma {:induction false} FirstHalf(c: Config, l: Lifecycle, w: Wire, a: Answers)
    requires Reaches(c, l, w, a) && w.id.Uuid? && IsTransfer(c, w.target.value)
    requires c.audit && c.methods[w.target.value.name].audit
    ensures JobOwed(c, w, a).request == TransferRequest(w, a)
    ensures if Authorized(c, a) && a.ran.Gave? then
              JobsOwed(c, l, w, a) == [] && WireReply(c, l, w, a) == if a.interim then Begin(w.id.id) else Raised
            else
              && JobsOwed(c, l, w, a) == [JobOwed(c, w, a)]
              && WireReply(c, l, w, a) ==
                 if (!c.queued && !Recordable(c.env, JobOwed(c, w, a))) || Unencodable(c, l, w, a) then Raised
                 else Send(JobOwed(c, w, a).response)
  {
    hide Recordable;
  }

  lemma {:induction false} BothHalves(c: Config, l: Lifecycle, w: Wire, a: Answers, link: Link, next: Answers)
    requires Reaches(c, l, w, a) && w.id.Uuid? && IsTransfer(c, w.target.value)
    requires c.audit && c.methods[w.target.value.name].audit
    ensures var m, job := c.methods[w.target.value.name], AuditedAs(c, w, a, next);
            var jobs, reply := TransferJobs(c, l, w, a, link, next), TransferReply(c, l, w, a, link, next);
            var raises := !c.queued && !Recordable(c.env, job);
            && job.request == TransferRequest(w, a)
            && if Authorized(c, a) && a.ran.Gave? then
                 && jobs == (if a.interim && !Stopped(m, link) then [job] else [])
                 && reply == if !a.interim || !link.open then None
                             else if Refuses(m, link) then Some(Failed(IdOf(w), REQUEST_FAILED))
                             else if Breaks(m, link) || raises || !FinalEncodes(next) then None
                             else Some(job.response)
               else
                 && jobs == [job]
                 && reply == if !link.open || raises || Unencodable(c, l, w, a) then None else Some(job.response)
  {
    FirstHalf(c, l, w, a);
    hide Recordable, WireReply, JobsOwed, JobOwed, Answer, Reaches, Finished, Unencodable;
  }

  /** An audited transfer is audited at most once, and not at all exactly when it was authorised
      and negotiated and its interim result does not convert, the connection is gone, refuses it
      or the handshake breaks.  It leaves its record if and only if it is audited and the redaction
      can copy its params and its result.  What is audited is the response that is sent, if one is:
      none is sent when the audit raises without a queue. */
  lemma {:induction false} TransferAuditedUnlessGuarded(
    c: Config, l: Lifecycle, w: Wire, a: Answers, link: Link, next: Answers)
    requires Reaches(c, l, w, a) && w.id.Uuid? && IsTransfer(c, w.target.value)
    requires c.audit && c.methods[w.target.value.name].audit
    ensures var m := c.methods[w.target.value.name];
            var jobs, reply := TransferJobs(c, l, w, a, link, next), TransferReply(c, l, w, a, link, next);
            var begins, job := Authorized(c, a) && a.ran.Gave?, AuditedAs(c, w, a, next);
            && (jobs == [] <==> begins && (!a.interim || Stopped(m, link)))
            && (jobs != [] ==> jobs == [job] && job.request == TransferRequest(w, a))
            && (Inline(c.env, jobs) != [] <==> jobs != [] && Recordable(c.env, job))
            && (jobs == [] ==>
                  reply == if a.interim && link.open && Refuses(m, link) then Some(Failed(IdOf(w), REQUEST_FAILED))
                           else None)
            && (jobs != [] && reply.Some? ==> reply == Some(job.response))
            && (jobs != [] && !c.queued && !Recordable(c.env, job) ==> reply.None?)
            && (jobs != [] && reply.None? ==>
                  || !link.open || (!c.queued && !Recordable(c.env, job))
                  || (if begins then !next.encodes else !a.encodes))
  {
    InlineOfOne(c.env, AuditedAs(c, w, a, next));
    assert Filter([], CanRecord(c.env)) == [];
    BothHalves(c, l, w, a, link, next);
    hide Recordable, RecordOf, Filter, TransferJobs, TransferReply, JobOwed, Reaches;
  }

  /** The smallest refused input: passing fds on a connection over TCP. */
  lemma {:induction false} FdPassOverTcpIsUnaudited(
    env: Env, queued: bool, l: Lifecycle, name: Name, id: Id, m: Audited, a: Answers, link: Link, next: Answers)
    requires !l.CLOSED? && ParamsFit(a) && a.ran.Gave? && a.interim && link.open && link.peer == Some(Tcp)
    ensures var pass := Method(Transfer(false, true), false, true, m);
            var c := Config(true, false, None, None, false, map[name := pass], env, queued);
            var w := Envelope(Uuid(id), true, Some(Call(name)));
            && TransferReply(c, l, w, a, link, next) == Some(Failed(Some(id), REQUEST_FAILED))
            && TransferJobs(c, l, w, a, link, next) == []
  {}

  // ---- whole dialogues on one session ------------------------------------------------------------

  datatype Turn = Turn(w: Wire, a: Answers)

  /** The lifecycle after a session's messages so far, one after another. */
  function LifecycleOf(c: Config, turns: seq<Turn>): Lifecycle {
    if turns == [] then NONE
    else
      var n := |turns| - 1;
      LifecycleAfter(c, LifecycleOf(c, turns[..n]), turns[n].w, turns[n].a)
  }

  function EffectsAt(c: Config, turns: seq<Turn>, i: nat): seq<Effect>
    requires i < |turns|
  {
    Effects(c, LifecycleOf(c, turns[..i]), turns[i].w, turns[i].a)
  }

  /** At message `i` a setup handler moved the session to ESTABLISHED, and no later one of the
      messages closed it or set it up anew. */
  predicate EstablishedAt(c: Config, turns: seq<Turn>, i: nat) {
    && i < |turns| && EffectsAt(c, turns, i) == [SetUp] && turns[i].a.setup == Moved(ESTABLISHED)
    && forall j :: i < j < |turns| ==> EffectsAt(c, turns, j) != [Closed] && EffectsAt(c, turns, j) != [SetUp]
  }

  lemma {:induction false} EstablishedHasACause(c: Config, turns: seq<Turn>) returns (i: nat)
    requires LifecycleOf(c, turns).ESTABLISHED?
    ensures EstablishedAt(c, turns, i)
  {
    hide Effects;
    var n := |turns| - 1;
    var l := LifecycleOf(c, turns[..n]);
    if LifecycleAfter(c, l, turns[n].w, turns[n].a) == l {
      i := EstablishedHasACause(c, turns[..n]);
      SetupNeedsUnestablished(c, l, turns[n].w, turns[n].a);
      forall j | i <= j < n ensures EffectsAt(c, turns, j) == EffectsAt(c, turns[..n], j) {
        assert turns[..n][..j] == turns[..j];
      }
    } else {
      i := n;
    }
  }

  lemma {:induction false} SetupNeedsUnestablished(c: Config, l: Lifecycle, w: Wire, a: Answers)
    requires l.ESTABLISHED?
    ensures Effects(c, l, w, a) != [SetUp]
    ensures LifecycleAfter(c, l, w, a) == l ==> Effects(c, l, w, a) != [Closed]
  {}

  /** With setup configured, a method that is not `pre_auth` runs only after a setup handler has
      established the session, with no close in between. */
  lemma {:induction false} ServedOnlyWhileEstablished(c: Config, turns: seq<Turn>, n: nat, e: Effect) returns (i: nat)
    requires n < |turns| && e in EffectsAt(c, turns, n) && (e.Handled? || e.Subscribed? || e.Negotiated?)
    requires c.setup.Some? && !c.methods[turns[n].w.target.value.name].preAuth
    ensures EstablishedAt(c, turns[..n], i)
  {
    GateHolds(c, LifecycleOf(c, turns[..n]), turns[n].w, turns[n].a, e);
    i := EstablishedHasACause(c, turns[..n]);
  }

  /** After a close no message of the session has any effect. */
  lemma {:induction false} NothingAfterClose(c: Config, turns: seq<Turn>, i: nat, j: nat)
    requires i < j < |turns| && EffectsAt(c, turns, i) == [Closed]
    ensures LifecycleOf(c, turns[..j]).CLOSED? && EffectsAt(c, turns, j) == []
  {
    assert turns[..j][..j - 1] == turns[..j - 1];
    if j > i + 1 {
      NothingAfterClose(c, turns, i, j - 1);
    }
  }

  // ---- the pipeline ---------------------------------------------------------------------------------

  class Session {
    var lifecycle: Lifecycle

    constructor ()
      ensures lifecycle == NONE
    {
      lifecycle := NONE;
    }
  }

  class Protocol {
    const config: Config
    const trail: Trail

    constructor (config: Config, trail: Trail)
      requires trail.Valid() && trail.env == config.env && trail.useQueue == config.queued
      ensures this.config == config && this.trail == trail && Valid()
    {
      this.config, this.trail := config, trail;
    }

    /** The trail keeps its jobs as the configuration says. */
    ghost predicate Valid()
      reads trail
    {
      trail.Valid() && trail.env == config.env && trail.useQueue == config.queued
    }

    method Audit(due: bool, job: Job) returns (raised: bool)
      requires Valid()
      modifies trail
      ensures Valid() && trail.jobs == old(trail.jobs) + (if due then [job] else [])
      ensures raised <==> due && !config.queued && !Recordable(config.env, job)
    {
      raised := false;
      if due {
        raised := trail.Add(job);
      }
    }

    method Authorize(rid: Option<Id>, a: Answers) returns (refusal: Option<Response>)
      ensures refusal == if Authorized(config, a) then None
                         else Some(Failed(rid, if a.authorization.Denied? then NOT_AUTHORIZED else INTERNAL_ERROR))
    {
      if !config.authorize {
        return None;
      }
      match a.authorization
      case AuthRaised => refusal := Some(Failed(rid, INTERNAL_ERROR));
      case NoResponse => refusal := Some(Failed(rid, INTERNAL_ERROR));
      case Denied => refusal := Some(Failed(rid, NOT_AUTHORIZED));
      case Allowed => refusal := None;
    }

    /** Converts and validates what a handler or transfer gave. */
    method Finish(rid: Option<Id>, value: Value, typed: bool, a: Answers) returns (response: Response)
      ensures match Finished(value, typed, a)
              case Gave(result) => response == Succeeded(rid, result)
              case _ => response == Failed(rid, INTERNAL_ERROR)
    {
      var result := value;
      if typed {
        if a.converted.None? {
          return Failed(rid, INTERNAL_ERROR);
        }
        result := a.converted.value;
      }
      match a.checked
      case Refused => response := Failed(rid, INTERNAL_ERROR);
      case Kept => response := Succeeded(rid, result);
      case Replaced(value) => response := Succeeded(rid, value);
    }

    method AuthorizeAndDispatch(w: Wire, m: Method, a: Answers)
      returns (response: Response, detail: Option<string>, effects: seq<Effect>)
      requires w.Envelope? && w.target.Some? && w.target.value.Call? && w.target.value.name in config.methods
      requires m == config.methods[w.target.value.name] && !m.kind.Transfer?
      ensures response == Answer(config, w, a) && detail == JobOwed(config, w, a).detail
      ensures effects == if !Authorized(config, a) || m.kind == Normal(false) then []
                         else if m.kind.Topic? then [Subscribed] else [Handled]
    {
      var rid := IdOf(w);
      var refusal := Authorize(rid, a);
      if refusal.Some? {
        return refusal.value, None, [];
      }
      if m.kind.Topic? {
        return Succeeded(rid, a.subId), None, [Subscribed];
      }
      if !m.kind.handled {
        return Failed(rid, INTERNAL_ERROR), None, [];
      }
      detail, effects := a.detail, [Handled];
      match a.ran
      case RaisedRpc(code) => response := Failed(rid, Chosen(code));
      case RaisedOther => response := Failed(rid, INTERNAL_ERROR);
      case Gave(value) => response := Finish(rid, value, m.audited.gives.Some?, a);
    }

    /** Authorises and negotiates; a refusal is audited here, a start in `RunTransfer`. */
    method BeginTransfer(w: Wire, m: Method, a: Answers) returns (reply: Reply, effects: seq<Effect>)
      requires Valid() && w.Envelope? && w.target.Some? && IsTransfer(config, w.target.value) && ParamsFit(a)
      requires m == config.methods[w.target.value.name]
      modifies trail
      ensures Valid()
      ensures reply == if IdOf(w).None? then Send(Failed(None, INVALID_REQUEST))
                       else if Answer(config, w, a).Succeeded? then (if a.interim then Begin(IdOf(w).value) else Raised)
                       else if config.audit && m.audit && !config.queued &&
                               !Recordable(config.env, JobOwed(config, w, a))
                       then Raised
                       else Send(Answer(config, w, a))
      ensures effects == if IdOf(w).Some? && Authorized(config, a) then [Negotiated] else []
      ensures trail.jobs == old(trail.jobs) +
                (if IdOf(w).Some? && config.audit && m.audit && Answer(config, w, a).Failed?
                 then [JobOwed(config, w, a)] else [])
    {
      hide Recordable, Trail.Valid;
      var rid := IdOf(w);
      if rid.None? {
        return Send(Failed(None, INVALID_REQUEST)), [];
      }
      effects := [];
      var refusal := Authorize(rid, a);
      if refusal.None? {
        effects := [Negotiated];
        match a.ran
        case Gave(_) => return if a.interim then Begin(rid.value) else Raised, effects;
        case RaisedRpc(code) => refusal := Some(Failed(rid, Chosen(code)));
        case RaisedOther => refusal := Some(Failed(rid, INTERNAL_ERROR));
      }
      var request := Request(w.target.value, rid, Settled(a.params.value, a.accepts));
      var job := Job(request, refusal.value, Some(m.audited), None, a.paramsConvert, a.resultConverts);
      var raised := Audit(config.audit && m.audit, job);
      reply := if raised then Raised else Send(refusal.value);
    }

    /** The other half of a transfer that proceeds: its request is that of the first half. */
    method RunTransfer(m: Method, request: Request, paramsConvert: bool, a: Answers)
      returns (response: Option<Response>)
      requires Valid() && m.kind.Transfer?
      modifies trail
      ensures Valid()
      ensures var final := FinalResponse(request.id, a);
              var job := Job(request, final, Some(m.audited), None, paramsConvert, a.resultConverts);
              var due := config.audit && m.audit;
              && trail.jobs == old(trail.jobs) + (if due then [job] else [])
              && response == if due && !config.queued && !Recordable(config.env, job) then None else Some(final)
    {
      var final;
      match a.ran {
        case RaisedRpc(code) => final := Failed(request.id, Chosen(code));
        case RaisedOther => final := Failed(request.id, INTERNAL_ERROR);
        case Gave(value) => final := Finish(request.id, value, true, a);
      }
      var job := Job(request, final, Some(m.audited), None, paramsConvert, a.resultConverts);
      var raised := Audit(config.audit && m.audit, job);
      response := if raised then None else Some(final);
    }

    method AuthorizeAndCancel(rid: Id, a: Answers) returns (response: Response, effects: seq<Effect>)
      ensures response == Answer(config, Envelope(Uuid(rid), true, Some(CancelRequest)), a)
      ensures effects == if !Authorized(config, a) then []
                         else if a.found.FoundSubscription? then [Unsubscribed]
                         else if a.found == FoundRequest(true) then [Signalled]
                         else []
    {
      var refusal := Authorize(Some(rid), a);
      if refusal.Some? {
        return refusal.value, [];
      }
      match a.found
      case FoundNothing => return Failed(Some(rid), REQUEST_FAILED), [];
      case FoundSubscription => return Succeeded(Some(rid), TRUE), [Unsubscribed];
      case FoundRequest(cancellable) =>
        if !cancellable {
          return Failed(Some(rid), REQUEST_FAILED), [];
        }
        if a.cancelRaises {
          return Failed(Some(rid), INTERNAL_ERROR), [Signalled];
        }
        return Succeeded(Some(rid), TRUE), [Signalled];
    }

    /** What every handler of an accepted message promises. */
    ghost predicate Does(before: seq<Job>, l: Lifecycle, w: Wire, a: Answers, reply: Reply, effects: seq<Effect>)
      reads trail
    {
      && reply == ReplyOwed(config, l, w, a) && effects == Effects(config, l, w, a)
      && Valid() && trail.jobs == before + JobsOwed(config, l, w, a)
    }

    method HandleCancel(session: Session, w: Wire, a: Answers) returns (reply: Reply, effects: seq<Effect>)
      requires Valid() && Accepted(session.lifecycle, w) && w.target.value.CancelRequest?
      modifies trail
      ensures Does(old(trail.jobs), session.lifecycle, w, a, reply, effects)
    {
      hide Recordable, Trail.Valid;
      var rid := IdOf(w);
      if rid.None? {
        return Send(Failed(None, INVALID_REQUEST)), [];
      }
      if a.params.None? {
        return Send(Failed(rid, INVALID_PARAMS)), [];
      }
      var response;
      response, effects := AuthorizeAndCancel(rid.value, a);
      var request := Request(CancelRequest, rid, a.params.value);
      var raised := Audit(config.audit, Job(request, response, None, None, a.paramsConvert, a.resultConverts));
      reply := if raised then Raised else Send(response);
    }

    method HandleServerInfo(session: Session, w: Wire, a: Answers) returns (reply: Reply, effects: seq<Effect>)
      requires Valid() && Accepted(session.lifecycle, w) && w.target.value.ServerInfo?
      ensures Does(old(trail.jobs), session.lifecycle, w, a, reply, effects)
    {
      hide Recordable, Trail.Valid;
      var rid := IdOf(w);
      if !config.serverInfo {
        return if rid.None? then Silence else Send(Failed(rid, METHOD_NOT_FOUND)), [];
      }
      if rid.None? {
        return Send(Failed(None, INVALID_REQUEST)), [];
      }
      effects := [Informed];
      match a.ran
      case RaisedRpc(code) => reply := Send(Failed(rid, Chosen(code)));
      case RaisedOther => reply := Send(Failed(rid, INTERNAL_ERROR));
      case Gave(_) =>
        reply := Send(if a.converted.None? then Failed(rid, INTERNAL_ERROR) else Succeeded(rid, a.converted.value));
    }

    /** Setup and continue differ in their method and in the lifecycle they need. */
    method HandleSetup(session: Session, w: Wire, a: Answers) returns (reply: Reply, effects: seq<Effect>)
      requires Valid() && Accepted(session.lifecycle, w)
      requires w.target.value.SessionSetup? || w.target.value.SessionContinue?
      modifies trail, session
      ensures Does(old(trail.jobs), old(session.lifecycle), w, a, reply, effects)
      ensures session.lifecycle == LifecycleAfter(config, old(session.lifecycle), w, a)
    {
      hide Recordable, Trail.Valid;
      var rid, target := IdOf(w), w.target.value;
      var audited := if target.SessionSetup? then config.setup else config.more;
      if audited.None? {
        return if rid.None? then Silence else Send(Failed(rid, METHOD_NOT_FOUND)), [];
      }
      if rid.None? {
        return Send(Failed(None, INVALID_REQUEST)), [];
      }
      if session.lifecycle != if target.SessionSetup? then NONE else INIT {
        return Send(Failed(rid, REQUEST_FAILED)), [];
      }
      if a.params.None? || a.accepts.Refused? {
        return Send(Failed(rid, INVALID_PARAMS)), [];
      }
      effects := [SetUp];
      var response := RunSetup(session, rid, a);
      var request := Request(target, rid, Settled(a.params.value, a.accepts));
      var raised := Audit(config.audit, Job(request, response, audited, None, a.paramsConvert, a.resultConverts));
      reply := if raised then Raised else Send(response);
    }

    /** The lifecycle moves only after the handler has returned a result that converts. */
    method RunSetup(session: Session, rid: Option<Id>, a: Answers) returns (response: Response)
      modifies session
      ensures match Ending(config, SessionSetup, a)
              case Gave(value) => response == Succeeded(rid, value) && session.lifecycle == a.setup.lifecycle
              case RaisedRpc(code) =>
                response == Failed(rid, Chosen(code)) && session.lifecycle == old(session.lifecycle)
              case RaisedOther =>
                response == Failed(rid, INTERNAL_ERROR) && session.lifecycle == old(session.lifecycle)
    {
      match a.setup
      case SetupRaisedRpc(code) => response := Failed(rid, Chosen(code));
      case SetupRaised => response := Failed(rid, INTERNAL_ERROR);
      case NoPair => response := Failed(rid, INTERNAL_ERROR);
      case NoLifecycle => response := Failed(rid, INTERNAL_ERROR);
      case Moved(lifecycle) =>
        if a.converted.None? {
          return Failed(rid, INTERNAL_ERROR);
        }
        session.lifecycle := lifecycle;
        response := Succeeded(rid, a.converted.value);
    }

    method HandleClose(session: Session, w: Wire, a: Answers) returns (reply: Reply, effects: seq<Effect>)
      requires Valid() && Accepted(session.lifecycle, w) && w.target.value.SessionClose?
      modifies trail, session
      ensures Does(old(trail.jobs), old(session.lifecycle), w, a, reply, effects)
      ensures session.lifecycle == LifecycleAfter(config, old(session.lifecycle), w, a)
    {
      hide Recordable, Trail.Valid;
      var rid := IdOf(w);
      if rid.None? {
        return Send(Failed(None, INVALID_REQUEST)), [];
      }
      if session.lifecycle != INIT && session.lifecycle != ESTABLISHED {
        return Send(Failed(rid, REQUEST_FAILED)), [];
      }
      session.lifecycle := CLOSED;
      var response := Succeeded(rid, TRUE);
      var request := Request(SessionClose, rid, Null);
      var raised := Audit(config.audit, Job(request, response, None, None, a.paramsConvert, a.resultConverts));
      return if raised then Raised else Send(response), [Closed];
    }

    /** A registered method, topic or transfer. */
    method HandleCall(session: Session, w: Wire, a: Answers) returns (reply: Reply, effects: seq<Effect>)
      requires Valid() && Accepted(session.lifecycle, w) && w.target.value.Call?
      modifies trail
      ensures Does(old(trail.jobs), session.lifecycle, w, a, reply, effects)
    {
      hide Answer, Ending, Finished, Recordable, Trail.Valid;
      var name, rid := w.target.value.name, IdOf(w);
      if name !in config.methods {
        return if rid.None? then Silence else Send(Failed(rid, METHOD_NOT_FOUND)), [];
      }
      var m := config.methods[name];
      if m.kind.Topic? && rid.None? {
        return Send(Failed(None, INVALID_REQUEST)), [];
      }
      if config.setup.Some? && !m.preAuth && session.lifecycle != ESTABLISHED {
        return if rid.None? then Silence else Send(Failed(rid, SESSION_NOT_ESTABLISHED)), [];
      }
      if a.params.None? || a.accepts.Refused? {
        return if rid.None? then Silence else Send(Failed(rid, INVALID_PARAMS)), [];
      }
      reply, effects := RunCall(session, w, m, a);
    }

    /** The authorise, dispatch and audit stage of a call that was not rejected. */
    method RunCall(session: Session, w: Wire, m: Method, a: Answers) returns (reply: Reply, effects: seq<Effect>)
      requires Valid() && Accepted(session.lifecycle, w) && w.target.value.Call?
      requires w.target.value.name in config.methods && m == config.methods[w.target.value.name]
      requires Rejection(config, session.lifecycle, w.target.value, a).None? && (m.kind.Topic? ==> w.id.Uuid?)
      modifies trail
      ensures Does(old(trail.jobs), session.lifecycle, w, a, reply, effects)
    {
      hide Answer, Ending, Finished, Gate, Recordable, Trail.Valid;
      if m.kind.Transfer? {
        reply, effects := BeginTransfer(w, m, a);
        return;
      }
      var response, detail;
      response, detail, effects := AuthorizeAndDispatch(w, m, a);
      var request := Request(w.target.value, IdOf(w), Settled(a.params.value, a.accepts));
      var job := Job(request, response, Some(m.audited), detail, a.paramsConvert, a.resultConverts);
      var raised := Audit(config.audit && m.audit, job);
      reply := if raised then Raised else if IdOf(w).None? then Silence else Send(response);
    }

    /** `_dispatch_one`. */
    method DispatchOne(session: Session, w: Wire, a: Answers) returns (reply: Reply, effects: seq<Effect>)
      requires Valid()
      modifies trail, session
      ensures Does(old(trail.jobs), old(session.lifecycle), w, a, reply, effects)
      ensures session.lifecycle == LifecycleAfter(config, old(session.lifecycle), w, a)
    {
      hide Recordable, Trail.Valid;
      if w.NotJson? {
        return Send(Failed(None, INVALID_JSON)), [];
      }
      if w.NotAnObject? || w.id.BadId? {
        return Send(Failed(None, INVALID_REQUEST)), [];
      }
      var rid := IdOf(w);
      if !w.version || w.target.None? {
        return Send(Failed(rid, INVALID_REQUEST)), [];
      }
      if session.lifecycle.CLOSED? {
        return if rid.None? then Silence else Send(Failed(rid, SESSION_NOT_ESTABLISHED)), [];
      }
      match w.target.value
      case CancelRequest => reply, effects := HandleCancel(session, w, a);
      case ServerInfo => reply, effects := HandleServerInfo(session, w, a);
      case SessionSetup => reply, effects := HandleSetup(session, w, a);
      case SessionContinue => reply, effects := HandleSetup(session, w, a);
      case SessionClose => reply, effects := HandleClose(session, w, a);
      case Call(_) => reply, effects := HandleCall(session, w, a);
    }

    /** `dispatch`: a response is encoded last, and that may raise after everything was done. */
    method Dispatch(session: Session, w: Wire, a: Answers) returns (reply: Reply, effects: seq<Effect>)
      requires Valid()
      modifies trail, session
      ensures reply == WireReply(config, old(session.lifecycle), w, a)
      ensures effects == Effects(config, old(session.lifecycle), w, a)
      ensures Valid() && trail.jobs == old(trail.jobs) + JobsOwed(config, old(session.lifecycle), w, a)
      ensures session.lifecycle == LifecycleAfter(config, old(session.lifecycle), w, a)
    {
      var l := session.lifecycle;
      reply, effects := DispatchOne(session, w, a);
      if reply.Send? && Unencodable(config, l, w, a) {
        reply := Raised;
      }
    }

    /** What the server makes of a message for a transfer method: dispatch it, and if it begins
        check the connection, shake hands and run the second half. */
    method ServeTransfer(session: Session, w: Wire, a: Answers, link: Link, next: Answers)
      returns (sent: Option<Response>)
      requires Valid() && w.Envelope? && w.target.Some? && IsTransfer(config, w.target.value)
      modifies trail, session
      ensures sent == TransferReply(config, old(session.lifecycle), w, a, link, next)
      ensures Valid()
      ensures trail.jobs == old(trail.jobs) + TransferJobs(config, old(session.lifecycle), w, a, link, next)
    {
      hide Answer, Ending, Finished, JobOwed, Recordable, Trail.Valid;
      var m := config.methods[w.target.value.name];
      var reply, _ := Dispatch(session, w, a);
      if !link.open {
        return None;
      }
      match reply
      case Silence => return None;
      case Raised => return None;
      case Send(response) => return Some(response);
      case Begin(id) =>
        if m.kind.fdPass && link.peer != Some(Unix) {
          return Some(Failed(Some(id), REQUEST_FAILED));
        }
        if !link.plaintext {
          return Some(Failed(Some(id), REQUEST_FAILED));
        }
        if !link.wire || (m.kind.download && link.answer != Go) {
          return None;
        }
        var final := RunTransfer(m, TransferRequest(w, a), a.paramsConvert, next);
        sent := if FinalEncodes(next) then final else None;
    }
  }
}
