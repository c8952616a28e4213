/** What a session's history can be, over every sequence of messages and verifier answers. */
module AuthSafety {
  import opened Options
  import opened Lifecycles
  import opened Auth
  import opened AuthProofs

  lemma {:induction false} AdvanceKeeps(requirements: Requirements, h: History, m: Message)
    requires Inv(h) && Decodable(m)
    ensures Inv(Advance(requirements, h, m))
  {
    hide Chained, FinishedOnce, WantedOtp, Unfinished, LastStored, AttachOrigin, Recorded, Setup, Continue;
    var s := h.session;
    assert h.attempt + [] == h.attempt;
    if StartsAttempt(s, m) {
      SetupKeeps(requirements, s.internal, m.body.request.value, m.verifiers);
    } else if m.hasId && m.body.SessionContinue? && m.body.request.Some? && s.lifecycle.INIT? {
      ContinueKeeps(h, m.body.request.value, m.verifiers);
    }
  }

  lemma {:induction false} AlwaysInv(requirements: Requirements, peer: Option<Peer>, messages: seq<Message>)
    requires forall m :: m in messages ==> Decodable(m)
    ensures Inv(After(requirements, peer, messages))
  {
    if messages != [] {
      var n := |messages| - 1;
      AlwaysInv(requirements, peer, messages[..n]);
      AdvanceKeeps(requirements, After(requirements, peer, messages[..n]), messages[n]);
    }
  }

  /** An established session's last attempt ended with a verifier's acceptance; the recorded
      identity has that acceptance's fields and the attempt's origin; and after a demand for a second
      factor in that attempt, the accepting verifier was `otp`. */
  lemma {:induction false} EstablishedByVerifier(requirements: Requirements, peer: Option<Peer>, messages: seq<Message>)
    requires forall m :: m in messages ==> Decodable(m)
    ensures var h := After(requirements, peer, messages);
            h.session.lifecycle.ESTABLISHED? ==>
              && h.attempt != [] && Accepts(h.attempt[|h.attempt| - 1])
              && h.session.internal.Known?
              && Recorded(h.attempt[|h.attempt| - 1].Verdict().value.authd.identity, h.session.internal.identity,
                          h.start)
              && (WantedOtp(h.attempt) ==> h.attempt[|h.attempt| - 1].call.CallOtp?)
  {
    AlwaysInv(requirements, peer, messages);
  }

  /** Between setup and continue the session holds what this attempt's verifiers stored last;
      every verifier got what its own mechanism had stored last in this attempt; and one SCRAM
      challenge is finished once, unless the verifier raised. */
  lemma {:induction false} ChallengesAreFresh(requirements: Requirements, peer: Option<Peer>, messages: seq<Message>)
    requires forall m :: m in messages ==> Decodable(m)
    ensures var h := After(requirements, peer, messages);
            && (h.session.lifecycle.INIT? ==>
                  h.session.internal.Holder() && h.session.internal.from == h.start &&
                  HeldBy(h.session.internal) == LastStored(h.attempt))
            && Chained(h.attempt, h.start) && FinishedOnce(h.attempt)
  {
    AlwaysInv(requirements, peer, messages);
  }

  /** Without an exception from `scram_finish`, an attempt calls it at most once. */
  lemma {:induction false} ScramFinishesOnce(
    requirements: Requirements, peer: Option<Peer>, messages: seq<Message>, i: nat, j: nat)
    requires forall m :: m in messages ==> Decodable(m) && !m.verifiers.scramFinish.Raised?
    requires var visits := After(requirements, peer, messages).attempt;
             i < |visits| && j < |visits| && visits[i].call.CallScramFinish? && visits[j].call.CallScramFinish?
    ensures i == j
  {
    AlwaysInv(requirements, peer, messages);
    NeverRaised(requirements, peer, messages);
  }

  lemma {:induction false} NeverRaised(requirements: Requirements, peer: Option<Peer>, messages: seq<Message>)
    requires forall m :: m in messages ==> Decodable(m) && !m.verifiers.scramFinish.Raised?
    ensures forall x :: x in After(requirements, peer, messages).attempt && x.call.CallScramFinish? ==>
              !x.answer.Raised?
  {
    if messages != [] {
      var n := |messages| - 1;
      NeverRaised(requirements, peer, messages[..n]);
      hide Setup, Continue;
      var h, m := After(requirements, peer, messages[..n]), messages[n];
      if StartsAttempt(h.session, m) {
        SetupFinishesNothing(requirements, h.session.internal, m.body.request.value, m.verifiers);
      } else if m.hasId && m.body.SessionContinue? && m.body.request.Some? && h.session.lifecycle.INIT? {
        ContinueFinishes(h.session.internal, m.body.request.value, m.verifiers);
      }
    }
  }

  lemma {:induction false} SetupFinishesNothing(requirements: Requirements, i: Internal, request: Request, v: Verifiers)
    ensures forall x :: x in Setup(requirements, i, request, v).visits ==> !x.call.CallScramFinish?
  {
    hide ChannelCapabilities, AttachOrigin;
  }

  lemma {:induction false} ContinueFinishes(i: Internal, request: Request, v: Verifiers)
    requires request.mechanism.Some? && !request.mechanism.value.ClientCertificate?
    ensures forall x :: x in Continue(i, request, v).visits && x.call.CallScramFinish? ==> x.answer == v.scramFinish
  {
    hide AttachOrigin;
  }

  /** Once established, a session keeps its identity whatever is sent; it can only close. */
  lemma {:induction false} IdentityIsKept(
    requirements: Requirements, peer: Option<Peer>, messages: seq<Message>, more: seq<Message>)
    requires forall m :: m in messages + more ==> Decodable(m)
    requires forall m :: m in messages ==> Decodable(m)
    requires After(requirements, peer, messages).session.lifecycle.ESTABLISHED?
    ensures var s, t := After(requirements, peer, messages).session, After(requirements, peer, messages + more).session;
            t.internal == s.internal && (t.lifecycle.ESTABLISHED? || t.lifecycle.CLOSED?)
  {
    hide Setup, Continue;
    if more == [] {
      assert messages + more == messages;
    } else {
      var n := |more| - 1;
      assert (messages + more)[..|messages| + n] == messages + more[..n];
      IdentityIsKept(requirements, peer, messages, more[..n]);
    }
  }

  // ---- one message ------------------------------------------------------------------------------------

  predicate LastAccepts(visits: seq<Visit>) {
    visits != [] && Accepts(visits[|visits| - 1])
  }

  /** A message establishes a session exactly when the last verifier it called accepted. */
  lemma {:induction false} AcceptanceDecides(requirements: Requirements, s: Session, m: Message)
    requires Decodable(m) && !s.lifecycle.ESTABLISHED?
    ensures var r := Handle(requirements, s, m);
            r.session.lifecycle.ESTABLISHED? <==> LastAccepts(r.visits)
  {
    hide Setup, Continue;
    if StartsAttempt(s, m) {
      SetupDecides(requirements, s.internal, m.body.request.value, m.verifiers);
    } else if m.hasId && m.body.SessionContinue? && m.body.request.Some? && s.lifecycle.INIT? {
      ContinueDecides(s.internal, m.body.request.value, m.verifiers);
    }
  }

  predicate Establishes(t: Turn) {
    t.ending.Returned? && t.ending.lifecycle.ESTABLISHED?
  }

  lemma {:induction false} LoginDecides(
    requirements: Requirements, i: Internal, before: seq<Visit>, request: Request, v: Verifiers)
    requires Typed(v) && !LastAccepts(before)
    ensures var t := Login(requirements, i, before, request, v); Establishes(t) <==> LastAccepts(t.visits)
  {
    hide ChannelCapabilities, AttachOrigin;
  }

  lemma {:induction false} SetupDecides(requirements: Requirements, i: Internal, request: Request, v: Verifiers)
    requires Typed(v)
    ensures var t := Setup(requirements, i, request, v); Establishes(t) <==> LastAccepts(t.visits)
  {
    hide Login, AttachOrigin;
    LoginDecides(requirements, i, [], request, v);
    if v.peercred.Declined? {
      LoginDecides(requirements, i, [Visit(CallPeercred(i), v.peercred)], request, v);
    }
  }

  lemma {:induction false} ContinueDecides(i: Internal, request: Request, v: Verifiers)
    requires Typed(v) && request.mechanism.Some? && !request.mechanism.value.ClientCertificate?
    ensures var t := Continue(i, request, v); Establishes(t) <==> LastAccepts(t.visits)
  {
    hide AttachOrigin;
  }

  /** Apart from peer credentials, a setup calls no verifier on a channel that lacks what the
      mechanism requires; and it calls peer credentials only over AF_UNIX. */
  lemma {:induction false} ChannelIsChecked(
    requirements: Requirements, i: Internal, request: Request, v: Verifiers, x: Visit)
    requires request.mechanism.Some? ==> !request.mechanism.value.OtpToken?
    requires x in Setup(requirements, i, request, v).visits
    ensures x.call.CallPeercred? ==> i.Connected? && i.peer.transport.Unix?
    ensures !x.call.CallPeercred? ==>
              && request.mechanism.Some?
              && var c := ClassOf(request.mechanism.value);
                 c in requirements ==> requirements[c] <= ChannelCapabilities(i)
  {
    hide ChannelCapabilities, AttachOrigin;
  }

  predicate ClientFinal(m: Message) {
    && m.hasId && m.body.SessionContinue? && m.body.request.Some? && m.body.request.value.mechanism.Some?
    && m.body.request.value.mechanism.value.ScramLast?
  }

  function FinishCall(s: Session, m: Message): Visit
    requires s.internal.ScramPending? && ClientFinal(m)
  {
    Visit(CallScramFinish(s.internal.pending, m.body.request.value.mechanism.value.rfc, s.internal.from),
          m.verifiers.scramFinish)
  }

  lemma {:induction false} ClientFinalOnce(requirements: Requirements, s: Session, m: Message)
    requires Decodable(m) && ClientFinal(m)
    requires s.lifecycle.INIT? && s.internal.ScramPending?
    ensures var r := Handle(requirements, s, m);
            && r.visits == [FinishCall(s, m)]
            && (r.session == s <==> m.verifiers.scramFinish.Raised?)
            && (!m.verifiers.scramFinish.Raised? ==> !(r.session.lifecycle.INIT? && r.session.internal.ScramPending?))
  {
    hide AttachOrigin;
  }

  lemma {:induction false} NotWaiting(requirements: Requirements, s: Session, m: Message)
    requires Decodable(m) && ClientFinal(m) && !(s.lifecycle.INIT? && s.internal.ScramPending?)
    ensures Handle(requirements, s, m).visits == []
  {}

  /** After every history that waits for a client-final, that message leaves the session as it
      is if and only if `scram_finish` raises, and exactly then the next client-final makes
      `scram_finish` judge the same challenge again. */
  lemma {:induction false} RaisedChallengeIsReused(
    requirements: Requirements, peer: Option<Peer>, messages: seq<Message>, m: Message, next: Message)
    requires forall x :: x in messages ==> Decodable(x)
    requires Decodable(m) && ClientFinal(m) && Decodable(next) && ClientFinal(next)
    requires var s := After(requirements, peer, messages).session; s.lifecycle.INIT? && s.internal.ScramPending?
    ensures forall x :: x in messages + [m] ==> Decodable(x)
    ensures var s, t := After(requirements, peer, messages).session, After(requirements, peer, messages + [m]).session;
            && (t == s <==> m.verifiers.scramFinish.Raised?)
            && Handle(requirements, t, next).visits ==
               if m.verifiers.scramFinish.Raised? then [FinishCall(s, next)] else []
  {
    var s := After(requirements, peer, messages).session;
    assert (messages + [m])[..|messages|] == messages;
    assert After(requirements, peer, messages + [m]).session == Handle(requirements, s, m).session;
    ClientFinalOnce(requirements, s, m);
    if m.verifiers.scramFinish.Raised? {
      ClientFinalOnce(requirements, s, next);
    } else {
      NotWaiting(requirements, Handle(requirements, s, m).session, next);
    }
  }

  // ---- what a failed attempt leaves behind ---------------------------------------------------------------

  function Seeded(peer: Option<Peer>): Internal {
    if peer.Some? then Connected(peer.value) else NoPeer
  }

  /** Has some message so far left the session between setup and continue? */
  predicate WasPending(requirements: Requirements, peer: Option<Peer>, messages: seq<Message>)
    requires forall m :: m in messages ==> Decodable(m)
  {
    exists k :: 0 <= k <= |messages| && After(requirements, peer, messages[..k]).session.lifecycle.INIT?
  }

  lemma {:induction false} WasPendingLonger(requirements: Requirements, peer: Option<Peer>, messages: seq<Message>)
    requires messages != [] && forall m :: m in messages ==> Decodable(m)
    ensures WasPending(requirements, peer, messages) <==>
            WasPending(requirements, peer, messages[..|messages| - 1])
            || After(requirements, peer, messages).session.lifecycle.INIT?
  {
    hide After;
    var n := |messages| - 1;
    var front := messages[..n];
    assert forall k :: 0 <= k <= n ==> front[..k] == messages[..k];
    assert messages[..n + 1] == messages;
  }

  /** While a session can start an attempt, it holds the peer of its connection if and only if no
      earlier attempt got as far as a pending step; after one, the next attempt finds that step's
      holder instead, with no channel capability and no origin to record. */
  lemma {:induction false} PendingForgetsThePeer(requirements: Requirements, peer: Option<Peer>, messages: seq<Message>)
    requires forall m :: m in messages ==> Decodable(m)
    ensures var i := After(requirements, peer, messages).session.internal;
            if WasPending(requirements, peer, messages) then
              Forgot(i) && ChannelCapabilities(i) == {} && PeerOrigin(i).None?
            else After(requirements, peer, messages).session.lifecycle.NONE? ==> i == Seeded(peer)
  {
    if messages == [] {
      assert messages[..0] == messages;
    } else {
      var n := |messages| - 1;
      var h, m := After(requirements, peer, messages[..n]), messages[n];
      PendingForgetsThePeer(requirements, peer, messages[..n]);
      PendingHolds(requirements, peer, messages);
      if h.session.lifecycle.INIT? {
        PendingNow(requirements, peer, messages[..n]);
      }
      WasPendingLonger(requirements, peer, messages);
      HandleForgets(requirements, h.session, m);
      assert After(requirements, peer, messages).session == Handle(requirements, h.session, m).session;
      hide Handle, After, WasPending, Forgot;
      ForgotHasNoPeer(After(requirements, peer, messages).session.internal);
    }
  }

  lemma {:induction false} ForgotHasNoPeer(i: Internal)
    ensures Forgot(i) ==> ChannelCapabilities(i) == {} && PeerOrigin(i).None?
  {}

  lemma {:induction false} PendingHolds(requirements: Requirements, peer: Option<Peer>, messages: seq<Message>)
    requires forall m :: m in messages ==> Decodable(m)
    ensures var s := After(requirements, peer, messages).session; s.lifecycle.INIT? ==> Forgot(s.internal)
  {
    AlwaysInv(requirements, peer, messages);
    hide Chained, FinishedOnce, WantedOtp, Unfinished, LastStored, AttachOrigin, Recorded;
  }

  lemma {:induction false} PendingNow(requirements: Requirements, peer: Option<Peer>, messages: seq<Message>)
    requires forall m :: m in messages ==> Decodable(m)
    requires After(requirements, peer, messages).session.lifecycle.INIT?
    ensures WasPending(requirements, peer, messages)
  {
    assert messages[..|messages|] == messages;
  }

  lemma {:induction false} AfterOneMore(
    requirements: Requirements, peer: Option<Peer>, messages: seq<Message>, m: Message)
    requires (forall x :: x in messages ==> Decodable(x)) && Decodable(m)
    ensures forall x :: x in messages + [m] ==> Decodable(x)
    ensures After(requirements, peer, messages + [m]).session ==
            Handle(requirements, After(requirements, peer, messages).session, m).session
  {
    assert (messages + [m])[..|messages|] == messages;
  }

  /** A login over TLS whose client-final is rejected, and the same login again: the first gets
      its challenge, the second is refused for want of an encrypted channel. */
  lemma {:induction false} RejectedLoginLosesItsChannel(
    peer: Peer, rfc: Text, v: Verifiers, first: Text, pending: Token, denial: Denial)
    returns (begin: Message, finish: Message)
    requires peer.transport.Tcp? && peer.tls && Typed(v)
    requires v.scramBegin == Challenged(first, pending) && v.scramFinish == Judged(Reject(denial))
    ensures Decodable(begin) && Decodable(finish)
    ensures var requirements, seeded := map[SCRAM := {ENCRYPTED}], Some(peer);
            var s := After(requirements, seeded, [begin]).session;
            var t := After(requirements, seeded, [begin, finish]).session;
            && s == Session(INIT, ScramPending(Connected(peer), pending))
            && t == Session(NONE, ScramPending(Connected(peer), pending))
            && ENCRYPTED in ChannelCapabilities(Connected(peer)) && ChannelCapabilities(t.internal) == {}
            && Handle(requirements, t, begin) == Handled(t, [], Result(Failure(DENIED)))
  {
    var requirements, seeded := map[SCRAM := {ENCRYPTED}], Some(peer);
    begin := Message(true, SessionSetup(Some(Request(Some(ScramFirst(rfc)), true))), v);
    finish := Message(true, SessionContinue(Some(Request(Some(ScramLast(rfc)), true))), v);
    AfterOneMore(requirements, seeded, [], begin);
    assert [] + [begin] == [begin];
    AfterOneMore(requirements, seeded, [begin], finish);
    assert [begin] + [finish] == [begin, finish];
    assert {ENCRYPTED} <= ChannelCapabilities(Connected(peer));
    assert ENCRYPTED !in ChannelCapabilities(ScramPending(Connected(peer), pending));
  }

  predicate Forgot(i: Internal) {
    i.Holder() || i.Known?
  }

  lemma {:induction false} LoginForgets(
    requirements: Requirements, i: Internal, before: seq<Visit>, request: Request, v: Verifiers)
    ensures var t := Login(requirements, i, before, request, v);
            && (Forgot(i) ==> Forgot(t.internal))
            && (t.internal == i || (t.ending.Returned? && !t.ending.lifecycle.NONE?))
  {
    hide ChannelCapabilities, AttachOrigin;
  }

  lemma {:induction false} SetupForgets(requirements: Requirements, i: Internal, request: Request, v: Verifiers)
    ensures var t := Setup(requirements, i, request, v);
            && (Forgot(i) ==> Forgot(t.internal))
            && (t.internal == i || (t.ending.Returned? && !t.ending.lifecycle.NONE?))
  {
    LoginForgets(requirements, i, [], request, v);
    LoginForgets(requirements, i, [Visit(CallPeercred(i), v.peercred)], request, v);
    hide Login, AttachOrigin;
  }

  lemma {:induction false} ContinueForgets(i: Internal, request: Request, v: Verifiers)
    requires request.mechanism.Some? && !request.mechanism.value.ClientCertificate?
    ensures Forgot(i) ==> Forgot(Continue(i, request, v).internal)
  {
    hide AttachOrigin;
  }

  lemma {:induction false} HandleForgets(requirements: Requirements, s: Session, m: Message)
    requires Decodable(m)
    ensures var t := Handle(requirements, s, m).session;
            && (Forgot(s.internal) ==> Forgot(t.internal))
            && (t.lifecycle.NONE? && s.lifecycle.NONE? ==> t.internal == s.internal)
            && (t.lifecycle.NONE? ==> s.lifecycle.NONE? || s.lifecycle.INIT?)
  {
    hide Setup, Continue, Forgot;
    if StartsAttempt(s, m) {
      SetupForgets(requirements, s.internal, m.body.request.value, m.verifiers);
    } else if m.body.SessionContinue? && m.body.request.Some? {
      ContinueForgets(s.internal, m.body.request.value, m.verifiers);
    }
  }
}
