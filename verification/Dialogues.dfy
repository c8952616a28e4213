/** Dispatch with the authentication stack installed: the setup answers that dispatch meets are
    what the stack's own handlers return on the session's own state. */
module Dialogues {
  import opened Options
  import Audit
  import A = Auth
  import P = AuthProofs
  import D = Dispatch

  /** One message, what its callbacks answer, and what it holds for the stack if it decodes. */
  datatype Move = Move(turn: D.Turn, request: A.Request, verifiers: A.Verifiers)

  /** Does the message get as far as the session's control handlers? */
  predicate Control(w: D.Wire) {
    && w.Envelope? && !w.id.BadId? && w.version && w.target.Some?
    && (w.target.value.SessionSetup? || w.target.value.SessionContinue? || w.target.value.SessionClose?)
  }

  function MessageOf(move: Move): A.Message
    requires Control(move.turn.w)
  {
    var request := if D.ParamsFit(move.turn.a) then Some(move.request) else None;
    A.Message(move.turn.w.id.Uuid?,
              match move.turn.w.target.value
              case SessionSetup => A.SessionSetup(request)
              case SessionContinue => A.SessionContinue(request)
              case _ => A.SessionClose,
              move.verifiers)
  }

  /** How dispatch sees the end of one of the stack's handlers. */
  function Seen(ending: A.Ending): D.SetupRan {
    match ending
    case Returned(lifecycle, _) => D.Moved(lifecycle)
    case Threw(None) => D.SetupRaised
    case Threw(Some(code)) => D.SetupRaisedRpc(code)
  }

  /** The stack answers this message: what it gets decodes under its schemas, and what its handler
      returns on the session is what dispatch sees, a result that converts.  No validator replaces
      the stack's decoded params or its `AuthResult`, so their redaction does not raise. */
  predicate Stacked(requirements: P.Requirements, s: A.Session, move: Move) {
    Control(move.turn.w) ==>
      && A.Decodable(MessageOf(move))
      && (move.turn.w.target.value.SessionSetup? ==>
            move.turn.a.setup == Seen(A.Setup(requirements, s.internal, move.request, move.verifiers).ending))
      && (move.turn.w.target.value.SessionContinue? && D.ParamsFit(move.turn.a) ==>
            move.turn.a.setup == Seen(A.Continue(s.internal, move.request, move.verifiers).ending))
      && move.turn.a.converted.Some? && move.turn.a.paramsConvert && move.turn.a.resultConverts
  }

  /** The messages of a dialogue that reach the session's control handlers. */
  function Controls(moves: seq<Move>): seq<A.Message> {
    if moves == [] then []
    else
      var n := |moves| - 1;
      Controls(moves[..n]) + if Control(moves[n].turn.w) then [MessageOf(moves[n])] else []
  }

  predicate AllDecodable(messages: seq<A.Message>) {
    forall m :: m in messages ==> A.Decodable(m)
  }

  /** A dialogue on a session seeded with `peer` whose setup answers are all the stack's. */
  predicate StackedDialogue(requirements: P.Requirements, peer: Option<A.Peer>, moves: seq<Move>) {
    && AllDecodable(Controls(moves))
    && (moves != [] ==>
          var n := |moves| - 1;
          && StackedDialogue(requirements, peer, moves[..n])
          && Stacked(requirements, P.After(requirements, peer, Controls(moves[..n])).session, moves[n]))
  }

  function Turns(moves: seq<Move>): seq<D.Turn> {
    seq(|moves|, i requires 0 <= i < |moves| => moves[i].turn)
  }

  /** The stack installs both handlers. */
  predicate Installed(c: D.Config) {
    c.setup.Some? && c.more.Some?
  }

  function CodeOf(code: A.ErrorCode): Audit.Code {
    match code
    case INVALID_REQUEST => Audit.INVALID_REQUEST
    case INVALID_PARAMS => Audit.INVALID_PARAMS
    case REQUEST_FAILED => Audit.REQUEST_FAILED
    case SESSION_NOT_ESTABLISHED => Audit.SESSION_NOT_ESTABLISHED
    case INTERNAL_ERROR => Audit.INTERNAL_ERROR
    case Chosen(code) => Audit.Chosen(code)
  }

  /** The reply of the stack's model, as dispatch sends it. */
  function Sent(reply: A.Reply, w: D.Wire, a: D.Answers): D.Reply {
    match reply
    case Silence => D.Silence
    case Error(code, own) => D.Send(Audit.Failed(if own then D.IdOf(w) else None, CodeOf(code)))
    case Result(_) =>
      if a.converted.Some? then D.Send(Audit.Succeeded(D.IdOf(w), a.converted.value)) else D.Silence
    case Closed => D.Send(Audit.Succeeded(D.IdOf(w), D.TRUE))
  }

  /** One message: dispatch and the stack's own account of it move the lifecycle alike and reply
      alike, and other messages leave the lifecycle alone. */
  lemma {:induction false} OneMoveAgrees(c: D.Config, requirements: P.Requirements, s: A.Session, move: Move)
    requires Installed(c) && Stacked(requirements, s, move)
    ensures var w, a := move.turn.w, move.turn.a;
            if Control(w) then
              var r := A.Handle(requirements, s, MessageOf(move));
              && D.LifecycleAfter(c, s.lifecycle, w, a) == r.session.lifecycle
              && D.ReplyOwed(c, s.lifecycle, w, a) == Sent(r.reply, w, a)
            else D.LifecycleAfter(c, s.lifecycle, w, a) == s.lifecycle
  {
    hide A.Setup, A.Continue, Audit.AcceptsPlan, Audit.ReturnsPlan;
  }

  lemma {:induction false} LifecycleStep(
    c: D.Config, requirements: P.Requirements, peer: Option<A.Peer>, before: seq<A.Message>, move: Move)
    requires AllDecodable(before) && Installed(c)
    requires Stacked(requirements, P.After(requirements, peer, before).session, move)
    ensures var all := before + if Control(move.turn.w) then [MessageOf(move)] else [];
            AllDecodable(all) ==>
              D.LifecycleAfter(c, P.After(requirements, peer, before).session.lifecycle, move.turn.w, move.turn.a) ==
              P.After(requirements, peer, all).session.lifecycle
  {
    OneMoveAgrees(c, requirements, P.After(requirements, peer, before).session, move);
    hide Stacked, A.Handle, A.Decodable, D.LifecycleAfter, D.ReplyOwed, Sent, MessageOf, P.Advance;
    if Control(move.turn.w) {
      if AllDecodable(before + [MessageOf(move)]) {
        AfterOne(requirements, peer, before, MessageOf(move));
      }
    } else {
      assert before + [] == before;
    }
  }

  lemma {:induction false} LastMove(requirements: P.Requirements, peer: Option<A.Peer>, moves: seq<Move>)
    requires StackedDialogue(requirements, peer, moves) && moves != []
    ensures var n := |moves| - 1;
            var before, last := Controls(moves[..n]), moves[n];
            && StackedDialogue(requirements, peer, moves[..n]) && AllDecodable(before) && AllDecodable(Controls(moves))
            && Stacked(requirements, P.After(requirements, peer, before).session, last)
            && Controls(moves) == before + if Control(last.turn.w) then [MessageOf(last)] else []
  {
    hide Stacked, P.After, MessageOf;
  }

  lemma {:induction false} LastTurn(c: D.Config, moves: seq<Move>)
    requires moves != []
    ensures var n := |moves| - 1;
            D.LifecycleOf(c, Turns(moves)) ==
            D.LifecycleAfter(c, D.LifecycleOf(c, Turns(moves[..n])), moves[n].turn.w, moves[n].turn.a)
  {
    hide D.LifecycleAfter;
    var n := |moves| - 1;
    assert Turns(moves)[..n] == Turns(moves[..n]) && Turns(moves)[n] == moves[n].turn;
  }

  /** Over every dialogue the lifecycle that dispatch keeps is that of the stack's history. */
  lemma {:induction false} LifecyclesAgree(
    c: D.Config, requirements: P.Requirements, peer: Option<A.Peer>, moves: seq<Move>)
    requires Installed(c) && StackedDialogue(requirements, peer, moves)
    ensures D.LifecycleOf(c, Turns(moves)) == P.After(requirements, peer, Controls(moves)).session.lifecycle
  {
    if moves != [] {
      LastMove(requirements, peer, moves);
      LastTurn(c, moves);
      hide Stacked, StackedDialogue, AllDecodable, D.LifecycleOf, D.LifecycleAfter, P.After, MessageOf, Controls;
      var n := |moves| - 1;
      LifecyclesAgree(c, requirements, peer, moves[..n]);
      LifecycleStep(c, requirements, peer, Controls(moves[..n]), moves[n]);
    }
  }

  lemma {:induction false} AfterOne(
    requirements: P.Requirements, peer: Option<A.Peer>, messages: seq<A.Message>, m: A.Message)
    requires AllDecodable(messages) && AllDecodable(messages + [m])
    ensures m in messages + [m] && A.Decodable(m)
    ensures P.After(requirements, peer, messages + [m]).session ==
            A.Handle(requirements, P.After(requirements, peer, messages).session, m).session
  {
    assert (messages + [m])[|messages|] == m && (messages + [m])[..|messages|] == messages;
  }

  lemma {:induction false} Prefix(requirements: P.Requirements, peer: Option<A.Peer>, moves: seq<Move>, n: nat)
    requires StackedDialogue(requirements, peer, moves) && n <= |moves|
    ensures StackedDialogue(requirements, peer, moves[..n])
    decreases |moves|
  {
    if n < |moves| {
      Prefix(requirements, peer, moves[..|moves| - 1], n);
      assert moves[..|moves| - 1][..n] == moves[..n];
    } else {
      assert moves[..n] == moves;
    }
  }
}
