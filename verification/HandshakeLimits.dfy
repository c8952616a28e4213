/** What a client that abandons a transfer leaves behind, over every continuation. */
module HandshakeLimits {
  import opened Framing
  import opened Handshake
  import opened HandshakeInvariant
  import opened HandshakeProofs
  import opened HandshakeSafety

  /** The state that a sequence of actions leads to from `s`. */
  function From(cfg: Config, s: State, actions: seq<Action>): Reached {
    if actions == [] then At(s)
    else
      var n := |actions| - 1;
      match From(cfg, s, actions[..n])
      case Stuck => Stuck
      case At(t) => if Enabled(cfg, t, actions[n]) then At(Step(cfg, t, actions[n])) else Stuck
  }

  lemma {:induction false} FromKeepsInvariant(cfg: Config, s: State, actions: seq<Action>)
    requires Inv(cfg, s) && From(cfg, s, actions).At?
    ensures Inv(cfg, From(cfg, s, actions).s)
  {
    if actions != [] {
      var n := |actions| - 1;
      FromKeepsInvariant(cfg, s, actions[..n]);
      hide Inv, Enabled, Step;
      StepKeeps(cfg, From(cfg, s, actions[..n]).s, actions[n]);
    }
  }

  lemma {:induction false} FromOneMore(cfg: Config, s: State, actions: seq<Action>, a: Action)
    requires From(cfg, s, actions).At? && Enabled(cfg, From(cfg, s, actions).s, a)
    ensures From(cfg, s, actions + [a]) == At(Step(cfg, From(cfg, s, actions).s, a))
  {
    assert (actions + [a])[..|actions|] == actions;
  }

  // ---- a client that abandons a transfer --------------------------------------------------------------

  /** The server waits for a byte or a go that does not come, its writer held. */
  predicate Wedged(s: State) {
    s.client.CGone? && !s.gate && (s.asked.Download? || s.stream != [])
  }

  /** Nothing is on its way to the server. */
  lemma {:induction false} WedgedHearsNothing(cfg: Config, s: State)
    requires Inv(cfg, s) && Wedged(s)
    ensures s.net.up.wbuf == s.net.up.wire == s.net.up.rbuf == [] && !First(s.net.up.rbuf, cfg.limit).Payload?
    ensures s.received == [] && ((s.server == SStreaming(Upload) && s.asked.Upload?) || s.server == SAwaitGo)
  {
    TightEmpty(cfg, s.net.upFrames);
    assert Pending(s.net.up) == [];
    FirstOfNothing(cfg.limit);
  }

  lemma {:induction false} StaysWedged(cfg: Config, s: State, a: Action)
    requires Inv(cfg, s) && Wedged(s) && Enabled(cfg, s, a)
    ensures Wedged(Step(cfg, s, a))
  {
    WedgedHearsNothing(cfg, s);
    hide Inv, Frame, First;
  }

  lemma {:induction false} WedgedForGood(cfg: Config, s: State, actions: seq<Action>)
    requires Inv(cfg, s) && Wedged(s) && From(cfg, s, actions).At?
    ensures Wedged(From(cfg, s, actions).s)
  {
    if actions != [] {
      var n := |actions| - 1;
      WedgedForGood(cfg, s, actions[..n]);
      FromKeepsInvariant(cfg, s, actions[..n]);
      hide Inv, Wedged, Enabled, Step;
      StaysWedged(cfg, From(cfg, s, actions[..n]).s, actions[n]);
    }
  }

  ghost predicate HeldForever(cfg: Config, s: State) {
    forall more: seq<Action> :: From(cfg, s, more).At? ==> !From(cfg, s, more).s.gate
  }

  lemma {:induction false} EmptyUploadReopens(cfg: Config, s: State)
    requires Inv(cfg, s) && s.client.CGone? && !s.gate && s.asked.Upload? && s.stream == []
    ensures !HeldForever(cfg, s)
  {
    var a := ServerFinish;
    FromOneMore(cfg, s, [], a);
    assert From(cfg, s, [] + [a]).s.gate;
  }

  /** After its client has abandoned a transfer, and as long as it sends nothing more, the server's
      writer is held for ever if and only if the server has said ready to a download or to an
      upload that is not empty. */
  lemma {:induction false} AbandonHoldsTheWriter(cfg: Config, actions: seq<Action>)
    requires Execute(cfg, actions).At? && Execute(cfg, actions).s.client.CGone?
    ensures var s := Execute(cfg, actions).s;
            HeldForever(cfg, s) <==> !s.gate && (s.asked.Download? || s.stream != [])
  {
    RunKeepsInvariant(cfg, actions);
    var s := Execute(cfg, actions).s;
    if Wedged(s) {
      forall more: seq<Action> | From(cfg, s, more).At? ensures !From(cfg, s, more).s.gate {
        WedgedForGood(cfg, s, more);
      }
    } else if s.gate {
      assert From(cfg, s, []).s.gate;
    } else {
      EmptyUploadReopens(cfg, s);
    }
  }

  /** And what it sends next, an upload's consumer takes for the stream, and a download's server
      for the go that it awaits. */
  lemma {:induction false} NextFrameIsSwallowed(cfg: Config, actions: seq<Action>, p: Bytes, n: nat)
    requires Execute(cfg, actions).At? && Wedged(Execute(cfg, actions).s) && Sendable(cfg, p, Other) && n <= |Frame(p)|
    ensures var s := Execute(cfg, actions).s;
            var sent := s.(net := ClientWrites(s.net, p));
            var arrived := sent.(net := sent.net.(up := Flush(sent.net.up, |Frame(p)|)));
            && (s.server == SStreaming(Upload) ==> Consumes(arrived, n).received == Frame(p)[..n])
            && (s.server == SAwaitGo ==> ServerReacts(s.server, cfg.kindOf(p)) == SBroken)
  {
    RunKeepsInvariant(cfg, actions);
    var s := Execute(cfg, actions).s;
    WedgedHearsNothing(cfg, s);
    hide Execute, Inv, Frame;
    assert [] + Frame(p) == Frame(p) && Frame(p)[..|Frame(p)|] == Frame(p) && [] + Frame(p)[..n] == Frame(p)[..n];
  }
}
