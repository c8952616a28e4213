/** What a message to the dispatch pipeline is told, makes happen and leaves in the audit trail,
    read off the configuration and the answers of the callbacks. */
module DispatchAnswers {
  import opened Options
  import opened Lifecycles
  import opened Schemas
  import opened Audit
  import opened Dispatch

  /** A well-formed message for `target`, on a session that is not closed. */
  predicate Arrives(l: Lifecycle, w: Wire, target: Target) {
    w.Envelope? && !w.id.BadId? && w.version && w.target == Some(target) && !l.CLOSED?
  }

  predicate Decodes(a: Answers) {
    a.params.Some? && !a.accepts.Refused?
  }

  /** The call names a method that may run now, and its params are good. */
  predicate Admitted(c: Config, l: Lifecycle, name: Name, a: Answers) {
    && name in c.methods && Decodes(a)
    && (c.setup.Some? && !c.methods[name].preAuth ==> l.ESTABLISHED?)
  }

  predicate Leave(c: Config, a: Answers) {
    c.authorize ==> a.authorization.Allowed?
  }

  function NoLeave(a: Answers): Code {
    if a.authorization.Denied? then NOT_AUTHORIZED else INTERNAL_ERROR
  }

  function Rid(w: Wire): Option<Id>
    requires w.Envelope?
  {
    match w.id
    case Uuid(id) => Some(id)
    case _ => None
  }

  /** The decoded params, as the validator left them. */
  function Given(a: Answers): Value
    requires Decodes(a)
  {
    match a.accepts
    case Replaced(value) => value
    case _ => a.params.value
  }

  /** The message comes to `response`, which its audit shows if it is audited.  It is sent to a
      message with an id, unless the audit raises, or it carries what a callback gave, as a result
      or as an error's data, and that does not encode. */
  predicate ComesTo(c: Config, l: Lifecycle, w: Wire, a: Answers, response: Response, carries: bool,
                    effects: seq<Effect>, audited: bool, m: Option<Audited>, params: Value, detail: Option<string>)
    requires w.Envelope? && w.target.Some?
  {
    var job := Job(Request(w.target.value, Rid(w), params), response, m, detail, a.paramsConvert, a.resultConverts);
    var lost := audited && !c.queued && !Recordable(c.env, job);
    && response.id == Rid(w) && Effects(c, l, w, a) == effects
    && JobsOwed(c, l, w, a) == (if audited then [job] else [])
    && ReplyOwed(c, l, w, a) == (if lost then Raised else if w.id.NoId? then Silence else Send(response))
    && WireReply(c, l, w, a) == (if w.id.Uuid? && carries && !a.encodes then Raised else ReplyOwed(c, l, w, a))
  }

  lemma {:induction false} CallFinishes(c: Config, w: Wire, a: Answers, name: Name)
    requires w.Envelope? && w.target == Some(Call(name)) && name in c.methods && c.methods[name].kind.Normal?
    ensures var m, response := c.methods[name], Answer(c, w, a);
            var runs := Leave(c, a) && m.kind.handled;
            && response.id == IdOf(w)
            && (response.Succeeded? <==>
                  runs && a.ran.Gave? && (m.audited.gives.Some? ==> a.converted.Some?) && !a.checked.Refused?)
            && (response.Succeeded? ==>
                  response.result == match a.checked
                                     case Replaced(value) => value
                                     case _ => if m.audited.gives.Some? then a.converted.value else a.ran.value)
            && (response.Failed? ==>
                  response.code == if !Leave(c, a) then NoLeave(a)
                                   else if runs && a.ran.RaisedRpc? then Chosen(a.ran.code)
                                   else INTERNAL_ERROR)
            && (FromCallback(c, Call(name), a) <==>
                  if Leave(c, a) then response.Succeeded? || (runs && a.ran.RaisedRpc?) else a.authorization.Denied?)
  {}

  lemma {:induction false} CallComesTo(c: Config, l: Lifecycle, w: Wire, a: Answers, name: Name)
    requires Arrives(l, w, Call(name)) && Admitted(c, l, name, a) && c.methods[name].kind.Normal?
    requires Answer(c, w, a).id == IdOf(w)
    ensures var m := c.methods[name];
            var runs := Leave(c, a) && m.kind.handled;
            ComesTo(c, l, w, a, Answer(c, w, a), FromCallback(c, Call(name), a), if runs then [Handled] else [],
                    c.audit && m.audit, Some(m.audited), Given(a), if runs then a.detail else None)
  {
    hide Recordable, Answer, Ending, FromCallback;
  }

  lemma {:induction false} CancelComesTo(c: Config, l: Lifecycle, w: Wire, a: Answers)
    requires Arrives(l, w, CancelRequest) && w.id.Uuid? && a.params.Some? && Answer(c, w, a).id == IdOf(w)
    ensures var effects := if !Leave(c, a) then []
                           else if a.found.FoundSubscription? then [Unsubscribed]
                           else if a.found == FoundRequest(true) then [Signalled]
                           else [];
            ComesTo(c, l, w, a, Answer(c, w, a), FromCallback(c, CancelRequest, a), effects, c.audit, None,
                    a.params.value, None)
  {
    hide Recordable, Answer, Ending, FromCallback;
  }

  lemma {:induction false} CancelFinishes(c: Config, w: Wire, a: Answers)
    requires w.Envelope? && w.target == Some(CancelRequest)
    ensures var response := Answer(c, w, a);
            && response.id == IdOf(w)
            && (response.Succeeded? <==>
                  Leave(c, a) && (a.found.FoundSubscription? || (a.found == FoundRequest(true) && !a.cancelRaises)))
            && (response.Succeeded? ==> response.result == TRUE)
            && (response.Failed? ==>
                  response.code == if !Leave(c, a) then NoLeave(a)
                                   else if a.found == FoundRequest(true) then INTERNAL_ERROR
                                   else REQUEST_FAILED)
            && (FromCallback(c, CancelRequest, a) <==> !Leave(c, a) && a.authorization.Denied?)
  {}

  /** A call of a method with a handler: its result is what the validator made of it, else the
      converted value if the method has a result class, else what the handler gave. */
  lemma {:induction false} CallAnswers(c: Config, l: Lifecycle, w: Wire, a: Answers, name: Name)
    returns (response: Response)
    requires Arrives(l, w, Call(name)) && Admitted(c, l, name, a) && c.methods[name].kind.Normal?
    ensures var m := c.methods[name];
            var runs := Leave(c, a) && m.kind.handled;
            var carries := if Leave(c, a) then response.Succeeded? || (runs && a.ran.RaisedRpc?)
                           else a.authorization.Denied?;
            && ComesTo(c, l, w, a, response, carries, if runs then [Handled] else [], c.audit && m.audit,
                       Some(m.audited), Given(a), if runs then a.detail else None)
            && (response.Succeeded? <==>
                  runs && a.ran.Gave? && (m.audited.gives.Some? ==> a.converted.Some?) && !a.checked.Refused?)
            && (response.Succeeded? ==>
                  response.result == match a.checked
                                     case Replaced(value) => value
                                     case _ => if m.audited.gives.Some? then a.converted.value else a.ran.value)
            && (response.Failed? ==>
                  response.code == if !Leave(c, a) then NoLeave(a)
                                   else if runs && a.ran.RaisedRpc? then Chosen(a.ran.code)
                                   else INTERNAL_ERROR)
  {
    response := Answer(c, w, a);
    CallFinishes(c, w, a, name);
    CallComesTo(c, l, w, a, name);
    hide Answer, FromCallback, ComesTo;
  }

  /** A subscribe is answered with the subscription's id. */
  lemma {:induction false} TopicAnswers(c: Config, l: Lifecycle, w: Wire, a: Answers, name: Name)
    requires Arrives(l, w, Call(name)) && Admitted(c, l, name, a) && c.methods[name].kind.Topic? && w.id.Uuid?
    ensures var m := c.methods[name];
            ComesTo(c, l, w, a, if Leave(c, a) then Succeeded(Rid(w), a.subId) else Failed(Rid(w), NoLeave(a)),
                    !Leave(c, a) && a.authorization.Denied?,
                    if Leave(c, a) then [Subscribed] else [], c.audit && m.audit, Some(m.audited), Given(a), None)
  {
    hide Recordable;
  }

  /** A transfer begins exactly when it has leave, `negotiate` gives an interim result and that
      converts; without leave, or when `negotiate` raises, it is refused and audited at once. */
  lemma {:induction false} TransferAnswers(c: Config, l: Lifecycle, w: Wire, a: Answers, name: Name)
    requires Arrives(l, w, Call(name)) && Admitted(c, l, name, a) && c.methods[name].kind.Transfer? && w.id.Uuid?
    ensures var m := c.methods[name];
            if Leave(c, a) && a.ran.Gave? then
              && Effects(c, l, w, a) == [Negotiated] && JobsOwed(c, l, w, a) == []
              && WireReply(c, l, w, a) == if a.interim then Begin(w.id.id) else Raised
            else
              var code := if !Leave(c, a) then NoLeave(a)
                          else if a.ran.RaisedRpc? then Chosen(a.ran.code)
                          else INTERNAL_ERROR;
              var carries := if Leave(c, a) then a.ran.RaisedRpc? else a.authorization.Denied?;
              ComesTo(c, l, w, a, Failed(Rid(w), code), carries, if Leave(c, a) then [Negotiated] else [],
                      c.audit && m.audit, Some(m.audited), Given(a), None)
  {
    hide Recordable;
  }

  /** The connection is still there, can pass what is to be passed, and the handshake succeeds. */
  predicate Carries(m: Method, link: Link)
    requires m.kind.Transfer?
  {
    && link.open && link.plaintext && link.wire
    && (m.kind.fdPass ==> link.peer == Some(Dispatch.Unix)) && (m.kind.download ==> link.answer.Go?)
  }

  /** A transfer that has begun and whose connection carries it: the final response has what the
      validator made of the callback's result, else its converted value; it is audited with the
      params of the request, and sent unless its audit raises or it does not encode. */
  lemma {:induction false} TransferEnds(
    c: Config, l: Lifecycle, w: Wire, a: Answers, name: Name, link: Link, next: Answers)
    returns (response: Response)
    requires Arrives(l, w, Call(name)) && Admitted(c, l, name, a) && c.methods[name].kind.Transfer? && w.id.Uuid?
    requires Leave(c, a) && a.ran.Gave? && a.interim && Carries(c.methods[name], link)
    ensures response.id == Some(w.id.id)
    ensures response.Succeeded? <==> next.ran.Gave? && next.converted.Some? && !next.checked.Refused?
    ensures response.Succeeded? ==>
              response.result == match next.checked
                                 case Replaced(value) => value
                                 case _ => next.converted.value
    ensures response.Failed? ==>
              response.code == if next.ran.RaisedRpc? then Chosen(next.ran.code) else INTERNAL_ERROR
    ensures var m := c.methods[name];
            var job := Job(Request(Call(name), Some(w.id.id), Given(a)), response, Some(m.audited), None,
                           a.paramsConvert, next.resultConverts);
            var audited := c.audit && m.audit;
            && TransferJobs(c, l, w, a, link, next) == (if audited then [job] else [])
            && TransferReply(c, l, w, a, link, next) ==
               if (audited && !c.queued && !Recordable(c.env, job))
                  || (!next.encodes && (response.Succeeded? || next.ran.RaisedRpc?))
               then None else Some(response)
  {
    TransferAnswers(c, l, w, a, name);
    response := FinalResponse(Some(w.id.id), next);
    hide Recordable, WireReply, JobsOwed;
  }

  /** A cancel says `True` exactly when it has dropped a subscription, or signalled a request whose
      callback did not raise; what cannot be found or cancelled is refused and nothing happens. */
  lemma {:induction false} CancelAnswers(c: Config, l: Lifecycle, w: Wire, a: Answers) returns (response: Response)
    requires Arrives(l, w, CancelRequest) && w.id.Uuid? && a.params.Some?
    ensures var effect := match a.found
                          case FoundNothing | FoundRequest(false) => []
                          case FoundSubscription => [Unsubscribed]
                          case FoundRequest(true) => [Signalled];
            && ComesTo(c, l, w, a, response, !Leave(c, a) && a.authorization.Denied?,
                       if Leave(c, a) then effect else [], c.audit, None, a.params.value, None)
            && (response.Succeeded? <==> Leave(c, a) && effect != [] && (effect == [Signalled] ==> !a.cancelRaises))
            && (response.Succeeded? ==> response.result == TRUE)
            && (response.Failed? ==>
                  response.code == if !Leave(c, a) then NoLeave(a)
                                   else if effect == [] then REQUEST_FAILED
                                   else INTERNAL_ERROR)
  {
    response := Answer(c, w, a);
    CancelFinishes(c, w, a);
    CancelComesTo(c, l, w, a);
    hide Answer, FromCallback, ComesTo;
  }

  /** A setup or a continue in the lifecycle it needs: the lifecycle moves exactly when the handler
      returned a lifecycle and a result that converts, and that result is the answer. */
  lemma {:induction false} HandshakeAnswers(c: Config, l: Lifecycle, w: Wire, a: Answers, more: bool)
    returns (response: Response)
    requires Arrives(l, w, if more then SessionContinue else SessionSetup) && w.id.Uuid? && Decodes(a)
    requires if more then c.more.Some? && l.INIT? else c.setup.Some? && l.NONE?
    ensures ComesTo(c, l, w, a, response, response.Succeeded? || a.setup.SetupRaisedRpc?, [SetUp], c.audit,
                    if more then c.more else c.setup, Given(a), None)
    ensures response.Succeeded? <==> a.setup.Moved? && a.converted.Some?
    ensures response.Succeeded? ==> response.result == a.converted.value
    ensures response.Failed? ==>
              response.code == if a.setup.SetupRaisedRpc? then Chosen(a.setup.code) else INTERNAL_ERROR
    ensures LifecycleAfter(c, l, w, a) == if response.Succeeded? then a.setup.lifecycle else l
  {
    response := Answer(c, w, a);
    hide Recordable;
  }

  /** A close of a session that has begun always succeeds. */
  lemma {:induction false} CloseAnswers(c: Config, l: Lifecycle, w: Wire, a: Answers)
    requires Arrives(l, w, SessionClose) && w.id.Uuid? && !l.NONE?
    ensures ComesTo(c, l, w, a, Succeeded(Rid(w), TRUE), false, [Closed], c.audit, None, Null, None)
    ensures LifecycleAfter(c, l, w, a) == CLOSED
  {
    hide Recordable;
  }

  /** The unauthenticated server information is never audited. */
  lemma {:induction false} InfoAnswers(c: Config, l: Lifecycle, w: Wire, a: Answers) returns (response: Response)
    requires Arrives(l, w, ServerInfo) && w.id.Uuid? && c.serverInfo
    ensures ComesTo(c, l, w, a, response, response.Succeeded? || a.ran.RaisedRpc?, [Informed], false, None, Null, None)
    ensures response.Succeeded? <==> a.ran.Gave? && a.converted.Some?
    ensures response.Succeeded? ==> response.result == a.converted.value
    ensures response.Failed? ==>
              response.code == if a.ran.RaisedRpc? then Chosen(a.ran.code) else INTERNAL_ERROR
  {
    response := Answer(c, w, a);
    hide Recordable;
  }

  /** Why a message with an id is refused before anybody is asked. */
  predicate RefusedFor(c: Config, l: Lifecycle, w: Wire, a: Answers, code: Code)
    requires w.Envelope?
  {
    if !w.version || w.target.None? then code.INVALID_REQUEST?
    else if l.CLOSED? then code.SESSION_NOT_ESTABLISHED?
    else
      match w.target.value
      case CancelRequest => code.INVALID_PARAMS? && a.params.None?
      case ServerInfo => code.METHOD_NOT_FOUND? && !c.serverInfo
      case SessionClose => code.REQUEST_FAILED? && l.NONE?
      case SessionSetup => HandshakeRefusedFor(c.setup.Some?, l.NONE?, a, code)
      case SessionContinue => HandshakeRefusedFor(c.more.Some?, l.INIT?, a, code)
      case Call(name) =>
        if name !in c.methods then code.METHOD_NOT_FOUND?
        else if c.setup.Some? && !c.methods[name].preAuth && !l.ESTABLISHED? then code.SESSION_NOT_ESTABLISHED?
        else code.INVALID_PARAMS? && !Decodes(a)
  }

  predicate HandshakeRefusedFor(handled: bool, inTurn: bool, a: Answers, code: Code) {
    match code
    case METHOD_NOT_FOUND => !handled
    case REQUEST_FAILED => handled && !inTurn
    case INVALID_PARAMS => handled && inTurn && !Decodes(a)
    case _ => false
  }

  /** A message that is refused beforehand gets that code, changes nothing and is not audited;
      without an id it is dropped, or told that it needs one. */
  lemma {:induction false} RefusalAnswers(c: Config, l: Lifecycle, w: Wire, a: Answers, code: Code)
    requires w.Envelope? && !w.id.BadId? && RefusedFor(c, l, w, a, code)
    ensures Effects(c, l, w, a) == [] && JobsOwed(c, l, w, a) == [] && LifecycleAfter(c, l, w, a) == l
    ensures w.id.Uuid? ==> WireReply(c, l, w, a) == Send(Failed(Rid(w), code))
  {
    hide Recordable;
  }

  /** The messages that need an id, and are told so. */
  predicate WantsId(c: Config, target: Target) {
    match target
    case CancelRequest | SessionClose => true
    case ServerInfo => c.serverInfo
    case SessionSetup => c.setup.Some?
    case SessionContinue => c.more.Some?
    case Call(name) => name in c.methods && !c.methods[name].kind.Normal?
  }

  /** A message without an id is dropped in silence when it is refused beforehand, except that one
      that wants an id is told so; a transfer only once it is admitted. */
  lemma {:induction false} NoteAnswers(c: Config, l: Lifecycle, w: Wire, a: Answers, target: Target)
    requires Arrives(l, w, target) && w.id.NoId?
    requires WantsId(c, target) || exists code :: RefusedFor(c, l, w, a, code)
    ensures Effects(c, l, w, a) == [] && JobsOwed(c, l, w, a) == [] && LifecycleAfter(c, l, w, a) == l
    ensures var late := target.Call? && target.name in c.methods && c.methods[target.name].kind.Transfer?;
            WireReply(c, l, w, a) ==
            if WantsId(c, target) && (late ==> Admitted(c, l, target.name, a))
            then Send(Failed(None, INVALID_REQUEST)) else Silence
  {
    hide Recordable;
    if code :| RefusedFor(c, l, w, a, code) {
      RefusalAnswers(c, l, w, a, code);
    }
  }

  /** Every message is refused beforehand or answered as one of the lemmas above says. */
  lemma {:induction false} EveryMessageIsAnswered(c: Config, l: Lifecycle, w: Wire, a: Answers)
    requires w.Envelope? && !w.id.BadId? && forall code :: !RefusedFor(c, l, w, a, code)
    ensures w.target.Some? && Arrives(l, w, w.target.value)
    ensures match w.target.value
            case CancelRequest => a.params.Some?
            case ServerInfo => c.serverInfo
            case SessionClose => !l.NONE?
            case SessionSetup => c.setup.Some? && l.NONE? && Decodes(a)
            case SessionContinue => c.more.Some? && l.INIT? && Decodes(a)
            case Call(name) => Admitted(c, l, name, a)
  {
    assert !RefusedFor(c, l, w, a, INVALID_REQUEST) && !RefusedFor(c, l, w, a, SESSION_NOT_ESTABLISHED);
    assert !RefusedFor(c, l, w, a, METHOD_NOT_FOUND) && !RefusedFor(c, l, w, a, INVALID_PARAMS);
    assert !RefusedFor(c, l, w, a, REQUEST_FAILED);
  }
}
