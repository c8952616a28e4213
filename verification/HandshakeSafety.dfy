/** The results: safety over every interleaving, and exactly when an accepted transfer can fail. */
module HandshakeSafety {
  import opened Framing
  import opened Handshake
  import opened HandshakeInvariant
  import opened HandshakeProofs

  datatype Reached = At(s: State) | Stuck

  /** The state a sequence of actions leads to from the start of the connection. */
  function Execute(cfg: Config, actions: seq<Action>): Reached {
    if actions == [] then At(Init())
    else
      var n := |actions| - 1;
      match Execute(cfg, actions[..n])
      case Stuck => Stuck
      case At(s) => if Enabled(cfg, s, actions[n]) then At(Step(cfg, s, actions[n])) else Stuck
  }

  lemma {:induction false} RunKeepsInvariant(cfg: Config, actions: seq<Action>)
    ensures Execute(cfg, actions).At? ==> Inv(cfg, Execute(cfg, actions).s)
  {
    if actions != [] {
      var n := |actions| - 1;
      RunKeepsInvariant(cfg, actions[..n]);
      if Execute(cfg, actions).At? {
        StepKeeps(cfg, Execute(cfg, actions[..n]).s, actions[n]);
      }
    }
  }

  /** One direction, as its framing reader and its raw consumer see it. */
  predicate Separated(cfg: Config, ch: Channel, raw: Bytes, frames: seq<Bytes>, sent: seq<Bytes>, got: seq<Bytes>) {
    // the framing reader has returned the payloads sent, in order, and will return the next one
    && got <= sent
    && !First(ch.rbuf, cfg.limit).TooLarge?
    && (First(ch.rbuf, cfg.limit).Payload? ==> got + [First(ch.rbuf, cfg.limit).data] <= sent)
    // raw bytes are all in the kernel and ahead of every frame, and their reader is parked
    && (raw != [] ==> ch.paused && ch.rbuf == [] && raw <= ch.wire)
    // without raw bytes the reader stands on a frame boundary
    && (raw == [] ==> Packable(frames) && ch.rbuf + ch.wire + ch.wbuf == Frames(frames))
  }

  lemma ApartIsSeparated(cfg: Config, ch: Channel, raw: Bytes, frames: seq<Bytes>, sent: seq<Bytes>, got: seq<Bytes>)
    requires Apart(cfg, ch, raw, frames) && sent == got + frames
    ensures Separated(cfg, ch, raw, frames, sent, got)
  {
    BufferedFrame(cfg, ch, raw, frames);
    if First(ch.rbuf, cfg.limit).Payload? {
      assert sent == (got + [frames[0]]) + frames[1..];
    }
    if raw != [] {
      assert ch.wire[..|raw|] == Pending(ch)[..|raw|] == raw;
    }
  }

  lemma SafelyPlaced(cfg: Config, s: State)
    requires Moving(s) && See(cfg, s).Placed()
    ensures s.received <= s.stream && !s.server.SBroken?
  {}

  /** Safety in every interleaving: frames and stream never mix, and the consumer has received
      a prefix of the bytes its producer was to send. */
  lemma TransferIsSafe(cfg: Config, actions: seq<Action>)
    requires Execute(cfg, actions).At?
    ensures var s := Execute(cfg, actions).s;
            && Separated(cfg, s.net.up, s.net.upRaw, s.net.upFrames, s.net.upSent, s.net.upGot)
            && Separated(cfg, s.net.down, s.net.downRaw, s.net.downFrames, s.net.downSent, s.net.downGot)
            && s.received <= s.stream && !s.server.SBroken?
  {
    RunKeepsInvariant(cfg, actions);
    var s := Execute(cfg, actions).s;
    hide Separated, Apart, Execute, Moving, Specials, Tight, GoFirst;
    assert Moving(s) && See(cfg, s).Placed();
    SafelyPlaced(cfg, s);
    hide Sight.Placed;
    ApartIsSeparated(cfg, s.net.up, s.net.upRaw, s.net.upFrames, s.net.upSent, s.net.upGot);
    ApartIsSeparated(cfg, s.net.down, s.net.downRaw, s.net.downFrames, s.net.downSent, s.net.downGot);
  }

  /** Delivery: a transfer reported as completed handed its consumer exactly the producer's
      bytes, and both readers run again on a frame boundary. */
  lemma CompletedDelivers(cfg: Config, actions: seq<Action>)
    requires Execute(cfg, actions).At?
    requires Execute(cfg, actions).s.client.CIdle?
    ensures var s := Execute(cfg, actions).s;
            && (s.outcome.Completed? ==> s.received == s.stream)
            && s.net.upRaw == [] && s.net.downRaw == [] && !s.net.up.paused && !s.net.down.paused && s.gate
  {
    RunKeepsInvariant(cfg, actions);
  }

  // ---- a transfer that the server accepted and the client reports as failed ------------------------

  /** The payloads a run needs, one of each kind. */
  datatype Script = Script(request: Bytes, ready: Bytes, final: Bytes)

  predicate Scripted(cfg: Config, t: Script) {
    && Sendable(cfg, t.request, Request(Upload)) && Sendable(cfg, t.ready, Ready(Upload))
    && Sendable(cfg, t.final, Final)
  }

  /** Some interleaving lets an accepted transfer, not abandoned by its client, end as failed. */
  ghost predicate CanFail(cfg: Config, d: Direction, stream: Bytes) {
    exists actions ::
      && Execute(cfg, actions).At?
      && var s := Execute(cfg, actions).s;
         s.asked == d && s.stream == stream && s.accepted && s.client.CIdle? && s.outcome.Failed?
  }

  lemma Extend(cfg: Config, actions: seq<Action>, a: Action)
    requires Execute(cfg, actions).At? && Enabled(cfg, Execute(cfg, actions).s, a)
    ensures Execute(cfg, actions + [a]) == At(Step(cfg, Execute(cfg, actions).s, a))
  {
    assert (actions + [a])[..|actions|] == actions;
  }

  /** One direction of the kernel and the reader task at work: everything written is taken. */
  lemma DeliverUp(cfg: Config, actions: seq<Action>, data: Bytes) returns (more: seq<Action>)
    requires Execute(cfg, actions).At? && data != []
    requires Execute(cfg, actions).s.net.up == Channel(data, [], [], false)
    ensures var s := Execute(cfg, actions).s;
            Execute(cfg, more) == At(s.(net := s.net.(up := Channel([], [], data, false))))
  {
    hide Execute, Enabled, Step;
    more := actions;
    UpArrives(cfg, Execute(cfg, more).s, data);
    Extend(cfg, more, FlushUp(|data|));
    more := more + [FlushUp(|data|)];
    Extend(cfg, more, TakeUp(|data|));
    more := more + [TakeUp(|data|)];
  }

  lemma UpArrives(cfg: Config, s: State, data: Bytes)
    requires data != [] && s.net.up == Channel(data, [], [], false)
    ensures Enabled(cfg, s, FlushUp(|data|))
    ensures var t := Step(cfg, s, FlushUp(|data|));
            Enabled(cfg, t, TakeUp(|data|)) &&
            Step(cfg, t, TakeUp(|data|)) == s.(net := s.net.(up := Channel([], [], data, false)))
  {
    assert data[..|data|] == data && data[|data|..] == [] && [] + data == data;
  }

  lemma DownArrives(cfg: Config, s: State, data: Bytes)
    requires data != [] && s.net.down == Channel(data, [], [], false)
    ensures Enabled(cfg, s, FlushDown(|data|))
    ensures var t := Step(cfg, s, FlushDown(|data|));
            Enabled(cfg, t, TakeDown(|data|)) &&
            Step(cfg, t, TakeDown(|data|)) == s.(net := s.net.(down := Channel([], [], data, false)))
  {
    assert data[..|data|] == data && data[|data|..] == [] && [] + data == data;
  }

  lemma DeliverDown(cfg: Config, actions: seq<Action>, data: Bytes) returns (more: seq<Action>)
    requires Execute(cfg, actions).At? && data != []
    requires Execute(cfg, actions).s.net.down == Channel(data, [], [], false)
    ensures var s := Execute(cfg, actions).s;
            Execute(cfg, more) == At(s.(net := s.net.(down := Channel([], [], data, false))))
  {
    hide Execute, Enabled, Step;
    more := actions;
    DownArrives(cfg, Execute(cfg, more).s, data);
    Extend(cfg, more, FlushDown(|data|));
    more := more + [FlushDown(|data|)];
    Extend(cfg, more, TakeDown(|data|));
    more := more + [TakeDown(|data|)];
  }

  predicate Fresh(s: State) {
    s.client.CWaiting? && s.asked.Upload? && s.stream == [] && s.net.down == Channel([], [], [], false)
  }

  lemma RequestSent(cfg: Config, t: Script) returns (actions: seq<Action>)
    requires Scripted(cfg, t)
    ensures Execute(cfg, actions).At?
    ensures var s := Execute(cfg, actions).s;
            && Fresh(s) && s.server.SIdle? && s.net.up == Channel(Frame(t.request), [], [], false)
            && Frame(t.request) != []
  {
    actions := [ClientRequest(t.request, [])];
    Extend(cfg, [], ClientRequest(t.request, []));
    assert [] + actions == actions && [] + Frame(t.request) == Frame(t.request) && |Frame(t.request)| >= HEADER_SIZE;
  }

  lemma ParsesRequest(cfg: Config, t: Script, s: State)
    requires Scripted(cfg, t) && Fresh(s) && s.server.SIdle?
    requires s.net.up == Channel([], [], Frame(t.request), false)
    ensures Enabled(cfg, s, ServerParse)
    ensures var u := Step(cfg, s, ServerParse); Fresh(u) && u.server == SAccepted(Upload)
  {
    assert Frame(t.request) + [] == Frame(t.request);
    FirstOfFrame(t.request, [], cfg.limit);
    hide First;
  }

  lemma RequestArrives(cfg: Config, t: Script) returns (actions: seq<Action>)
    requires Scripted(cfg, t)
    ensures Execute(cfg, actions).At?
    ensures var s := Execute(cfg, actions).s; Fresh(s) && s.server == SAccepted(Upload)
  {
    actions := RequestSent(cfg, t);
    hide Execute, Enabled, Step, Scripted, Frame;
    actions := DeliverUp(cfg, actions, Frame(t.request));
    ParsesRequest(cfg, t, Execute(cfg, actions).s);
    Extend(cfg, actions, ServerParse);
    actions := actions + [ServerParse];
  }

  /** The server needs no byte of an empty stream: it answers right behind its ready. */
  lemma ServerAnswersAtOnce(cfg: Config, t: Script) returns (actions: seq<Action>)
    requires Scripted(cfg, t)
    ensures Execute(cfg, actions).At?
    ensures var s := Execute(cfg, actions).s;
            && s.client.CWaiting? && s.asked.Upload? && s.accepted && s.stream == []
            && s.net.down == Channel(Frame(t.ready) + Frame(t.final), [], [], false)
  {
    hide Execute, Frame;
    actions := RequestArrives(cfg, t);
    Extend(cfg, actions, ServerReady(t.ready));
    actions := actions + [ServerReady(t.ready)];
    assert [] + Frame(t.ready) == Frame(t.ready);
    NothingReceived(cfg, actions);
    Extend(cfg, actions, ServerFinish);
    actions := actions + [ServerFinish];
    Extend(cfg, actions, ServerFinal(t.final));
    actions := actions + [ServerFinal(t.final)];
  }

  lemma NothingReceived(cfg: Config, actions: seq<Action>)
    requires Execute(cfg, actions).At? && Execute(cfg, actions).s.stream == []
    ensures Execute(cfg, actions).s.received == []
  {
    RunKeepsInvariant(cfg, actions);
  }

  lemma ParsesReady(cfg: Config, t: Script, s: State)
    requires Scripted(cfg, t) && s.client.CWaiting?
    requires s.net.down == Channel([], [], Frame(t.ready) + Frame(t.final), false)
    ensures Enabled(cfg, s, ClientParse)
    ensures var u := Step(cfg, s, ClientParse);
            && u.client == CGotReady(Upload) && u.net.down == Channel([], [], Frame(t.final), false)
            && u.asked == s.asked && u.stream == s.stream && u.accepted == s.accepted
  {
    FirstOfFrame(t.ready, Frame(t.final), cfg.limit);
    DropFirst(Frame(t.ready), Frame(t.final));
    hide First;
  }

  lemma ParsesFinal(cfg: Config, t: Script, s: State)
    requires Scripted(cfg, t) && s.client.CGotReady? && s.net.down == Channel([], [], Frame(t.final), false)
    ensures Enabled(cfg, s, ClientParse)
    ensures var u := Step(cfg, s, ClientParse);
            && u.client.CIdle? && u.outcome.Failed?
            && u.asked == s.asked && u.stream == s.stream && u.accepted == s.accepted
  {
    assert Frame(t.final) + [] == Frame(t.final);
    FirstOfFrame(t.final, [], cfg.limit);
    hide First;
  }

  /** Both frames are parsed before the waiting client wakes, and it takes the answer to a
      finished upload for a rejection. */
  lemma EmptyUploadCanFail(cfg: Config, t: Script)
    requires Scripted(cfg, t)
    ensures CanFail(cfg, Upload, [])
  {
    var actions := ServerAnswersAtOnce(cfg, t);
    hide Execute, Enabled, Step, Scripted;
    actions := DeliverDown(cfg, actions, Frame(t.ready) + Frame(t.final));
    ParsesReady(cfg, t, Execute(cfg, actions).s);
    Extend(cfg, actions, ClientParse);
    actions := actions + [ClientParse];
    ParsesFinal(cfg, t, Execute(cfg, actions).s);
    Extend(cfg, actions, ClientParse);
    actions := actions + [ClientParse];
    assert Execute(cfg, actions).s.outcome.Failed?;
  }

  /** An accepted transfer that its client does not abandon can be reported as failed exactly
      when it is an empty upload: a finished one may look rejected, and nothing else ever does. */
  lemma AcceptedFailsOnlyWhenEmpty(cfg: Config, t: Script, d: Direction, stream: Bytes)
    requires Scripted(cfg, t)
    ensures CanFail(cfg, d, stream) <==> d.Upload? && stream == []
  {
    if CanFail(cfg, d, stream) {
      var actions :|
        && Execute(cfg, actions).At?
        && var s := Execute(cfg, actions).s;
           s.asked == d && s.stream == stream && s.accepted && s.client.CIdle? && s.outcome.Failed?;
      RunKeepsInvariant(cfg, actions);
    }
    if d.Upload? && stream == [] {
      EmptyUploadCanFail(cfg, t);
    }
  }
}
