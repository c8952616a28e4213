/** Every action keeps the handshake's invariant, and what that gives over whole runs. */
module HandshakeProofs {
  import opened Framing
  import opened Handshake
  import opened HandshakeInvariant

  // ---- one channel ------------------------------------------------------------------------------

  lemma {:induction false} FramesAppend(frames: seq<Bytes>, p: Bytes)
    requires Packable(frames) && |p| < LENGTH_BOUND
    ensures Packable(frames + [p])
    ensures Frames(frames + [p]) == Frames(frames) + Frame(p)
  {
    if frames == [] {
      assert frames + [p] == [p] && [p][1..] == [];
      assert Frames([p]) == Frame(p) + [];
    } else {
      assert (frames + [p])[1..] == frames[1..] + [p];
      FramesAppend(frames[1..], p);
    }
  }

  lemma FlushKeeps(cfg: Config, ch: Channel, raw: Bytes, frames: seq<Bytes>, n: nat)
    requires Apart(cfg, ch, raw, frames) && n <= |ch.wbuf|
    ensures Apart(cfg, Flush(ch, n), raw, frames)
  {
    assert ch.wbuf == ch.wbuf[..n] + ch.wbuf[n..];
    assert Pending(Flush(ch, n)) == Pending(ch);
  }

  lemma TakeKeeps(cfg: Config, ch: Channel, raw: Bytes, frames: seq<Bytes>, n: nat)
    requires Apart(cfg, ch, raw, frames) && n <= |ch.wire| && !ch.paused
    ensures Apart(cfg, Take(ch, n), raw, frames)
  {
    assert ch.wire == ch.wire[..n] + ch.wire[n..];
    assert Pending(Take(ch, n)) == Pending(ch);
  }

  lemma WriteKeeps(cfg: Config, ch: Channel, raw: Bytes, frames: seq<Bytes>, p: Bytes)
    requires Apart(cfg, ch, raw, frames) && |p| <= cfg.limit && |p| < LENGTH_BOUND
    ensures Apart(cfg, Write(ch, p), raw, frames + [p])
  {
    FramesAppend(frames, p);
    assert Pending(Write(ch, p)) == Pending(ch) + Frame(p);
    hide Frames, Frame, Pending;
    assert (raw + Frames(frames)) + Frame(p) == raw + (Frames(frames) + Frame(p));
  }

  lemma PauseKeeps(cfg: Config, ch: Channel, raw: Bytes, frames: seq<Bytes>, paused: bool)
    requires Apart(cfg, ch, raw, frames) && (paused || raw == [])
    ensures Apart(cfg, ch.(paused := paused), raw, frames)
  {
    assert Pending(ch.(paused := paused)) == Pending(ch);
  }

  /** What the framing reader finds at the head of its buffer is the head of the oldest pending
      frame: a whole payload, or not enough yet. */
  lemma BufferedFrame(cfg: Config, ch: Channel, raw: Bytes, frames: seq<Bytes>)
    requires Apart(cfg, ch, raw, frames)
    ensures !First(ch.rbuf, cfg.limit).TooLarge?
    ensures First(ch.rbuf, cfg.limit).Payload? ==>
              raw == [] && frames != [] && First(ch.rbuf, cfg.limit).data == frames[0]
  {
    hide First, Frame;
    var n := |ch.rbuf|;
    assert ch.rbuf == Pending(ch)[..n];
    if n == 0 {
      FirstOfNothing(cfg.limit);
    } else {
      var p, rest := frames[0], Frames(frames[1..]);
      var whole := Frame(p) + rest;
      assert Pending(ch) == whole;
      if n < |Frame(p)| {
        assert whole[..n] == Frame(p)[..n];
        FirstOfTruncated(p, n, cfg.limit);
      } else {
        assert whole[..n] == Frame(p) + rest[..n - |Frame(p)|];
        FirstOfFrame(p, rest[..n - |Frame(p)|], cfg.limit);
      }
    }
  }

  lemma DropAcross(a: Bytes, b: Bytes, c: Bytes, n: nat)
    requires n <= |a|
    ensures a[n..] + b + c == (a + b + c)[n..]
  {}

  lemma DropFirst(a: Bytes, b: Bytes)
    ensures (a + b)[|a|..] == b
  {}

  lemma PopKeeps(cfg: Config, ch: Channel, frames: seq<Bytes>, p: Bytes)
    requires Apart(cfg, ch, [], frames) && frames != [] && frames[0] == p
    requires HEADER_SIZE + |p| <= |ch.rbuf|
    ensures Apart(cfg, Pop(ch, p), [], Tail(frames))
  {
    DropAcross(ch.rbuf, ch.wire, ch.wbuf, |Frame(p)|);
    DropFirst(Frame(p), Frames(frames[1..]));
  }

  /** A producer's raw write meets an empty transport buffer. */
  lemma ProduceKeeps(cfg: Config, ch: Channel, raw: Bytes, data: Bytes)
    requires Apart(cfg, ch, raw, []) && ch.paused
    ensures Apart(cfg, RawWrite(ch, data), raw + data, [])
  {
    assert Pending(ch) == raw;
    assert |ch.rbuf| + |ch.wire| + |ch.wbuf| == |raw|;
    assert ch.wbuf == [] && ch.rbuf == [];
  }

  lemma ConsumeKeeps(cfg: Config, ch: Channel, raw: Bytes, frames: seq<Bytes>, n: nat)
    requires Apart(cfg, ch, raw, frames) && 0 < n <= |raw| && n <= |ch.wire|
    ensures ch.wire[..n] == raw[..n]
    ensures Apart(cfg, RawRead(ch, n), Drop(raw, n), frames)
  {
    assert Pending(ch)[..n] == ch.wire[..n];
    assert Pending(RawRead(ch, n)) == Pending(ch)[n..];
    hide Frames, Pending;
    assert (raw + Frames(frames))[n..] == raw[n..] + Frames(frames);
  }

  /** The consumer cannot read past the raw bytes while only raw bytes are under way. */
  lemma WireIsRaw(cfg: Config, ch: Channel, raw: Bytes)
    requires Apart(cfg, ch, raw, [])
    ensures |ch.wire| <= |raw|
  {
    assert |Pending(ch)| == |raw|;
  }

  // ---- every action keeps the bytes apart -----------------------------------------------------------

  lemma ClientWritesSound(cfg: Config, net: Net, p: Bytes)
    requires Sound(cfg, net) && |p| <= cfg.limit && |p| < LENGTH_BOUND
    ensures Sound(cfg, ClientWrites(net, p))
  {
    WriteKeeps(cfg, net.up, net.upRaw, net.upFrames, p);
  }

  lemma ServerWritesSound(cfg: Config, net: Net, p: Bytes)
    requires Sound(cfg, net) && |p| <= cfg.limit && |p| < LENGTH_BOUND
    ensures Sound(cfg, ServerWrites(net, p))
  {
    WriteKeeps(cfg, net.down, net.downRaw, net.downFrames, p);
  }

  lemma ClientPopsSound(cfg: Config, net: Net)
    requires Sound(cfg, net) && First(net.down.rbuf, cfg.limit).Payload?
    ensures var p := First(net.down.rbuf, cfg.limit).data;
            net.downRaw == [] && net.downFrames != [] && net.downFrames[0] == p && Sound(cfg, ClientPops(net, p))
  {
    BufferedFrame(cfg, net.down, net.downRaw, net.downFrames);
    var p := net.downFrames[0];
    PopKeeps(cfg, net.down, net.downFrames, p);
    assert net.downGot + net.downFrames == (net.downGot + [p]) + Tail(net.downFrames);
  }

  lemma ServerPopsSound(cfg: Config, net: Net)
    requires Sound(cfg, net) && First(net.up.rbuf, cfg.limit).Payload?
    ensures var p := First(net.up.rbuf, cfg.limit).data;
            net.upRaw == [] && net.upFrames != [] && net.upFrames[0] == p && Sound(cfg, ServerPops(net, p))
  {
    BufferedFrame(cfg, net.up, net.upRaw, net.upFrames);
    var p := net.upFrames[0];
    PopKeeps(cfg, net.up, net.upFrames, p);
    assert net.upGot + net.upFrames == (net.upGot + [p]) + Tail(net.upFrames);
  }

  lemma PauseUpSound(cfg: Config, net: Net, paused: bool)
    requires Sound(cfg, net) && (paused || net.upRaw == [])
    ensures Sound(cfg, PauseUp(net, paused))
  {
    PauseKeeps(cfg, net.up, net.upRaw, net.upFrames, paused);
  }

  lemma PauseDownSound(cfg: Config, net: Net, paused: bool)
    requires Sound(cfg, net) && (paused || net.downRaw == [])
    ensures Sound(cfg, PauseDown(net, paused))
  {
    PauseKeeps(cfg, net.down, net.downRaw, net.downFrames, paused);
  }

  // ---- every action keeps the two ends in step ------------------------------------------------------

  lemma ClientSendPlaced(v: Sight, w: Sight)
    requires v.Placed() && (v.client.CIdle? || v.client.CFinishing?)
    requires w == v.(upTight := w.upTight, goFirst := w.goFirst) && (v.goFirst ==> w.goFirst)
    ensures w.Placed()
  {}

  lemma RequestPlaced(v: Sight, w: Sight, d: Direction)
    requires v.Placed() && v.client.CIdle? && w.upKinds == Queue(v.upKinds, Request(d)) && w.upTight
    requires w == v.(client := CWaiting, asked := d, accepted := false, answered := false, outcome := Unknown,
                     total := w.total,
                     produced := 0, received := 0, upKinds := w.upKinds, upTight := true,
                     goFirst := w.goFirst)
    ensures w.Placed() && v.upRaw == v.downRaw == 0
  {
    assert [] + [Request(d)] == [Request(d)];
  }

  /** The client reads an ordinary frame, its ready, or the final response. */
  lemma ClientReadsPlaced(v: Sight, k: Kind, tight: bool)
    requires v.Placed() && (v.downTight ==> tight) && !v.NothingDown()
    requires !k.Other? ==> v.downKinds != [] && v.downKinds[0] == k
    ensures v.(client := ReactClient(v.client, k), outcome := ReactOutcome(v.client, k, v.outcome),
               answered := v.answered || (v.client.CStreaming? && k.Final?),
               downKinds := Unqueue(v.downKinds, k), downTight := tight).Placed()
  {
    assert [Ready(Upload), Final][1..] == [Final];
  }

  lemma ServerReadsPlaced(v: Sight, k: Kind, tight: bool, goFirst: bool)
    requires v.Placed() && (v.upTight ==> tight) && !v.NothingUp()
    requires !k.Other? ==> v.upKinds != [] && v.upKinds[0] == k
    requires v.goFirst ==> k.Go?
    ensures v.(server := ServerReacts(v.server, k), upKinds := Unqueue(v.upKinds, k), upTight := tight,
               goFirst := goFirst).Placed()
  {}

  lemma ReadyClientSentNothing(v: Sight)
    requires v.Placed() && v.client.CGotReady?
    ensures v.NothingUp()
  {}

  lemma ClientStartsPlaced(v: Sight, w: Sight)
    requires v.Placed() && v.client.CGotReady?
    requires w == v.(client := CStreaming(v.client.dir), downPaused := true,
                     upKinds := if v.client.dir.Download? then Queue(v.upKinds, Go) else v.upKinds,
                     upTight := w.upTight, goFirst := w.goFirst)
    requires w.upTight && (v.client.dir.Download? ==> w.goFirst)
    ensures w.Placed()
  {
    assert [] + [Go] == [Go];
  }

  lemma ClientFinishPlaced(v: Sight)
    requires v.Placed() && v.client.CStreaming?
    requires if v.client.dir.Upload? then v.produced == v.total else v.received == v.total
    ensures v.downRaw == 0
    ensures v.(client := if v.answered then CIdle else CFinishing,
               outcome := if v.answered then Completed else v.outcome, downPaused := false).Placed()
  {}

  lemma ClientAbandonPlaced(v: Sight)
    requires v.Placed() && (v.client.CWaiting? || v.client.CGotReady?)
    ensures v.(client := CGone, outcome := Failed).Placed()
  {}

  lemma ServerSendPlaced(v: Sight, tight: bool)
    requires v.Placed() && v.gate
    ensures v.(downTight := tight).Placed()
  {}

  lemma ServerRejectPlaced(v: Sight)
    requires v.Placed() && v.server.SAccepted?
    ensures v.(server := SReplying).Placed()
  {}

  lemma ServerReadyPlaced(v: Sight, d: Direction)
    requires v.Placed() && v.server == SAccepted(d)
    ensures v.(server := if d.Upload? then SStreaming(Upload) else SAwaitGo, gate := false, accepted := true,
               upPaused := if d.Upload? then true else v.upPaused,
               downKinds := Queue(v.downKinds, Ready(d)), downTight := true).Placed()
  {
    assert [] + [Ready(d)] == [Ready(d)];
  }

  lemma ServerStartPlaced(v: Sight)
    requires v.Placed() && v.server.SGotGo?
    ensures v.(server := SStreaming(Download), upPaused := true).Placed()
  {}

  lemma ServerFinishPlaced(v: Sight)
    requires v.Placed() && v.server.SStreaming?
    requires if v.server.dir.Upload? then v.received == v.total else v.produced == v.total
    ensures v.upRaw == 0
    ensures v.(server := SReplying, upPaused := false, gate := true).Placed()
  {}

  lemma ServerFinalPlaced(v: Sight)
    requires v.Placed() && v.server.SReplying?
    ensures v.(server := SIdle, downKinds := Queue(v.downKinds, Final), downTight := true).Placed()
  {
    assert [] + [Final] == [Final] && [Ready(Upload)] + [Final] == [Ready(Upload), Final];
  }

  lemma UploadProducesPlaced(v: Sight, n: nat)
    requires v.Placed() && v.client == CStreaming(Upload) && 0 < n <= v.total - v.produced
    ensures v.NothingUp() && v.upPaused && v.received + v.upRaw == v.produced
    ensures v.(produced := v.produced + n, upRaw := v.upRaw + n).Placed()
  {}

  lemma DownloadProducesPlaced(v: Sight, n: nat)
    requires v.Placed() && v.client != CStreaming(Upload) && v.server == SStreaming(Download)
    requires 0 < n <= v.total - v.produced
    ensures v.NothingDown() && v.downPaused && v.received + v.downRaw == v.produced
    ensures v.(produced := v.produced + n, downRaw := v.downRaw + n).Placed()
  {}

  lemma UploadConsumesPlaced(v: Sight, n: nat)
    requires v.Placed() && v.server == SStreaming(Upload) && 0 < n
    requires n <= v.total - v.received && (v.NothingUp() ==> n <= v.upRaw)
    ensures n <= v.upRaw && v.downRaw == 0
    ensures v.(received := v.received + n, upRaw := v.upRaw - n).Placed()
  {}

  lemma DownloadConsumesPlaced(v: Sight, n: nat)
    requires v.Placed() && v.server != SStreaming(Upload) && v.client == CStreaming(Download) && 0 < n
    requires n <= v.total - v.received && (v.NothingDown() ==> n <= v.downRaw)
    ensures n <= v.downRaw && v.upRaw == 0
    ensures v.(received := v.received + n, downRaw := v.downRaw - n).Placed()
  {}

  // ---- the stream -------------------------------------------------------------------------------------

  lemma MoreProduced(s: State, raw: Bytes, n: nat)
    requires NextOf(s, raw) && |s.received| + |raw| == s.produced && n <= |s.stream| - s.produced
    ensures NextOf(s, raw + s.stream[s.produced..s.produced + n])
  {}

  lemma MoreReceived(s: State, raw: Bytes, n: nat)
    requires NextOf(s, raw) && n <= |raw| && s.received <= s.stream
    ensures s.received + raw[..n] <= s.stream
    ensures var k := |s.received| + n; raw[n..] == s.stream[k..][..|raw| - n]
  {}

  // ---- every action keeps the invariant -----------------------------------------------------------------

  lemma KernelKeeps(cfg: Config, s: State, a: Action)
    requires Inv(cfg, s) && Enabled(cfg, s, a) && (a.FlushUp? || a.FlushDown? || a.TakeUp? || a.TakeDown?)
    ensures Inv(cfg, Step(cfg, s, a))
  {
    hide Sight.Placed, Apart;
    match a
    case FlushUp(n) => FlushKeeps(cfg, s.net.up, s.net.upRaw, s.net.upFrames, n);
    case FlushDown(n) => FlushKeeps(cfg, s.net.down, s.net.downRaw, s.net.downFrames, n);
    case TakeUp(n) => TakeKeeps(cfg, s.net.up, s.net.upRaw, s.net.upFrames, n);
    case TakeDown(n) => TakeKeeps(cfg, s.net.down, s.net.downRaw, s.net.downFrames, n);
    assert See(cfg, Step(cfg, s, a)) == See(cfg, s);
  }

  lemma ClientSendKeeps(cfg: Config, s: State, p: Bytes)
    requires Inv(cfg, s) && (s.client.CIdle? || s.client.CFinishing?) && Sendable(cfg, p, Other)
    ensures Inv(cfg, s.(net := ClientWrites(s.net, p)))
  {
    hide Sight.Placed, Sound;
    ClientWritesSound(cfg, s.net, p);
    SpecialsAppend(cfg, s.net.upFrames, p);
    ClientSendPlaced(See(cfg, s), See(cfg, s.(net := ClientWrites(s.net, p))));
  }

  lemma RequestKeeps(cfg: Config, s: State, p: Bytes, stream: Bytes)
    requires Inv(cfg, s) && s.client.CIdle?
    requires Sendable(cfg, p, Request(Upload)) || Sendable(cfg, p, Request(Download))
    ensures Inv(cfg, Requests(s, p, cfg.kindOf(p).dir, stream))
  {
    hide Sight.Placed, Sound;
    ClientWritesSound(cfg, s.net, p);
    SpecialsAppend(cfg, s.net.upFrames, p);
    RequestPlaced(See(cfg, s), See(cfg, Requests(s, p, cfg.kindOf(p).dir, stream)), cfg.kindOf(p).dir);
  }

  lemma SightOfClientReads(cfg: Config, s: State, p: Bytes)
    requires HEADER_SIZE + |p| <= |s.net.down.rbuf| && s.net.downFrames != [] && s.net.downFrames[0] == p
    ensures var k, v := cfg.kindOf(p), See(cfg, s);
            See(cfg, ClientReads(cfg, s, p)) ==
            v.(client := ReactClient(v.client, k), outcome := ReactOutcome(v.client, k, v.outcome),
               answered := v.answered || (v.client.CStreaming? && k.Final?),
               downKinds := Unqueue(v.downKinds, k), downTight := Tight(cfg, Tail(s.net.downFrames)))
    ensures Moving(s) ==> Moving(ClientReads(cfg, s, p))
  {
    PopFrame(cfg, s.net.downFrames);
    hide Specials, Tight, GoFirst;
  }

  lemma SightOfServerReads(cfg: Config, s: State, p: Bytes)
    requires HEADER_SIZE + |p| <= |s.net.up.rbuf| && s.net.upFrames != [] && s.net.upFrames[0] == p
    ensures var k, v, rest := cfg.kindOf(p), See(cfg, s), Tail(s.net.upFrames);
            && See(cfg, ServerReads(cfg, s, p)) ==
               v.(server := ServerReacts(v.server, k), upKinds := Unqueue(v.upKinds, k),
                  upTight := Tight(cfg, rest), goFirst := GoFirst(cfg, rest))
            && (v.goFirst ==> k.Go?)
    ensures Moving(s) ==> Moving(ServerReads(cfg, s, p))
  {
    PopFrame(cfg, s.net.upFrames);
    hide Specials, Tight;
  }

  lemma SightOfClientFinishes(cfg: Config, s: State)
    ensures var v := See(cfg, s);
            See(cfg, ClientFinishes(s)) ==
            v.(client := if v.answered then CIdle else CFinishing,
               outcome := if v.answered then Completed else v.outcome, downPaused := false)
    ensures Moving(s) ==> Moving(ClientFinishes(s))
  {
    hide Specials, Tight, GoFirst;
  }

  lemma ClientParseKeeps(cfg: Config, s: State)
    requires Inv(cfg, s) && Enabled(cfg, s, ClientParse)
    ensures Inv(cfg, ClientReads(cfg, s, First(s.net.down.rbuf, cfg.limit).data))
  {
    hide Sight.Placed, Sound;
    ClientPopsSound(cfg, s.net);
    var p := s.net.downFrames[0];
    PopFrame(cfg, s.net.downFrames);
    if See(cfg, s).downTight {
      TightEmpty(cfg, s.net.downFrames);
    }
    SightOfClientReads(cfg, s, p);
    hide See, Moving;
    ClientReadsPlaced(See(cfg, s), cfg.kindOf(p), Tight(cfg, Tail(s.net.downFrames)));
  }

  lemma ServerParseKeeps(cfg: Config, s: State)
    requires Inv(cfg, s) && Enabled(cfg, s, ServerParse)
    ensures Inv(cfg, ServerReads(cfg, s, First(s.net.up.rbuf, cfg.limit).data))
  {
    hide Sight.Placed, Sound;
    ServerPopsSound(cfg, s.net);
    var p, rest := s.net.upFrames[0], Tail(s.net.upFrames);
    PopFrame(cfg, s.net.upFrames);
    if See(cfg, s).upTight {
      TightEmpty(cfg, s.net.upFrames);
    }
    SightOfServerReads(cfg, s, p);
    hide See, Moving;
    ServerReadsPlaced(See(cfg, s), cfg.kindOf(p), Tight(cfg, rest), GoFirst(cfg, rest));
  }

  lemma SightOfClientStarts(cfg: Config, s: State, p: Bytes)
    requires s.client.CGotReady? && (s.client.dir.Download? ==> Sendable(cfg, p, Go)) && s.net.upFrames == []
    ensures var v, w := See(cfg, s), See(cfg, ClientStarts(s, p));
            && w == v.(client := CStreaming(v.client.dir), downPaused := true,
                       upKinds := if v.client.dir.Download? then Queue(v.upKinds, Go) else v.upKinds,
                       upTight := w.upTight, goFirst := w.goFirst)
            && w.upTight && (v.client.dir.Download? ==> w.goFirst)
    ensures Moving(s) ==> Moving(ClientStarts(s, p))
  {
    SpecialsAppend(cfg, s.net.upFrames, p);
    hide Specials;
  }

  lemma ClientStartKeeps(cfg: Config, s: State, p: Bytes)
    requires Inv(cfg, s) && s.client.CGotReady? && (s.client.dir.Download? ==> Sendable(cfg, p, Go))
    ensures Inv(cfg, ClientStarts(s, p))
  {
    hide Sight.Placed, Sound;
    PauseDownSound(cfg, s.net, true);
    if s.client.dir.Download? {
      ClientWritesSound(cfg, PauseDown(s.net, true), p);
    }
    ReadyClientSentNothing(See(cfg, s));
    TightEmpty(cfg, s.net.upFrames);
    SightOfClientStarts(cfg, s, p);
    hide See, Moving;
    ClientStartsPlaced(See(cfg, s), See(cfg, ClientStarts(s, p)));
  }

  lemma ClientFinishKeeps(cfg: Config, s: State)
    requires Inv(cfg, s) && Enabled(cfg, s, ClientFinish)
    ensures Inv(cfg, ClientFinishes(s))
  {
    hide Sight.Placed, Sound;
    ClientFinishPlaced(See(cfg, s));
    PauseDownSound(cfg, s.net, false);
    SightOfClientFinishes(cfg, s);
    hide See, Moving;
  }

  lemma ServerSendKeeps(cfg: Config, s: State, p: Bytes)
    requires Inv(cfg, s) && s.gate && Sendable(cfg, p, Other)
    ensures Inv(cfg, s.(net := ServerWrites(s.net, p)))
  {
    hide Sight.Placed, Sound;
    ServerWritesSound(cfg, s.net, p);
    SpecialsAppend(cfg, s.net.downFrames, p);
    ServerSendPlaced(See(cfg, s), Tight(cfg, s.net.downFrames + [p]));
  }

  lemma ServerReadyKeeps(cfg: Config, s: State, p: Bytes)
    requires Inv(cfg, s) && s.server.SAccepted? && Sendable(cfg, p, Ready(s.server.dir))
    ensures Inv(cfg, ServerReadies(s, p))
  {
    hide Sight.Placed, Sound;
    PauseUpSound(cfg, s.net, true);
    ServerWritesSound(cfg, if s.server.dir.Upload? then PauseUp(s.net, true) else s.net, p);
    SpecialsAppend(cfg, s.net.downFrames, p);
    ServerReadyPlaced(See(cfg, s), s.server.dir);
  }

  lemma ServerFinalKeeps(cfg: Config, s: State, p: Bytes)
    requires Inv(cfg, s) && s.server.SReplying? && Sendable(cfg, p, Final)
    ensures Inv(cfg, s.(net := ServerWrites(s.net, p), server := SIdle))
  {
    hide Sight.Placed, Sound;
    ServerWritesSound(cfg, s.net, p);
    SpecialsAppend(cfg, s.net.downFrames, p);
    ServerFinalPlaced(See(cfg, s));
  }

  lemma ClientAbandonKeeps(cfg: Config, s: State)
    requires Inv(cfg, s) && (s.client.CWaiting? || s.client.CGotReady?)
    ensures Inv(cfg, s.(client := CGone, outcome := Failed))
  {
    hide Sight.Placed, Sound;
    ClientAbandonPlaced(See(cfg, s));
  }

  lemma ServerTurnKeeps(cfg: Config, s: State, a: Action)
    requires Inv(cfg, s) && Enabled(cfg, s, a) && (a.ServerReject? || a.ServerStart? || a.ServerFinish?)
    ensures Inv(cfg, Step(cfg, s, a))
  {
    hide Sight.Placed, Sound;
    match a
    case ServerReject => ServerRejectPlaced(See(cfg, s));
    case ServerStart =>
      ServerStartPlaced(See(cfg, s));
      PauseUpSound(cfg, s.net, true);
    case ServerFinish =>
      ServerFinishPlaced(See(cfg, s));
      PauseUpSound(cfg, s.net, false);
  }

  lemma UploadProduceKeeps(cfg: Config, s: State, n: nat)
    requires Inv(cfg, s) && 0 < n <= |s.stream| - s.produced && s.client == CStreaming(Upload)
    ensures Inv(cfg, Produces(s, n))
  {
    hide Sight.Placed, Apart;
    UploadProducesPlaced(See(cfg, s), n);
    TightEmpty(cfg, s.net.upFrames);
    ProduceKeeps(cfg, s.net.up, s.net.upRaw, s.stream[s.produced..s.produced + n]);
    MoreProduced(s, s.net.upRaw, n);
  }

  lemma DownloadProduceKeeps(cfg: Config, s: State, n: nat)
    requires Inv(cfg, s) && 0 < n <= |s.stream| - s.produced
    requires s.client != CStreaming(Upload) && s.server == SStreaming(Download)
    ensures Inv(cfg, Produces(s, n))
  {
    hide Sight.Placed, Apart;
    DownloadProducesPlaced(See(cfg, s), n);
    TightEmpty(cfg, s.net.downFrames);
    ProduceKeeps(cfg, s.net.down, s.net.downRaw, s.stream[s.produced..s.produced + n]);
    MoreProduced(s, s.net.downRaw, n);
  }

  lemma UploadConsumeKeeps(cfg: Config, s: State, n: nat)
    requires Inv(cfg, s) && 0 < n <= |s.stream| - |s.received| && s.server == SStreaming(Upload)
    requires n <= |s.net.up.wire|
    ensures Inv(cfg, Consumes(s, n))
  {
    hide Sight.Placed, Apart;
    if See(cfg, s).NothingUp() {
      TightEmpty(cfg, s.net.upFrames);
      WireIsRaw(cfg, s.net.up, s.net.upRaw);
    }
    UploadConsumesPlaced(See(cfg, s), n);
    ConsumeKeeps(cfg, s.net.up, s.net.upRaw, s.net.upFrames, n);
    MoreReceived(s, s.net.upRaw, n);
  }

  lemma DownloadConsumeKeeps(cfg: Config, s: State, n: nat)
    requires Inv(cfg, s) && 0 < n <= |s.stream| - |s.received| && s.server != SStreaming(Upload)
    requires s.client == CStreaming(Download) && n <= |s.net.down.wire|
    ensures Inv(cfg, Consumes(s, n))
  {
    hide Sight.Placed, Apart;
    if See(cfg, s).NothingDown() {
      TightEmpty(cfg, s.net.downFrames);
      WireIsRaw(cfg, s.net.down, s.net.downRaw);
    }
    DownloadConsumesPlaced(See(cfg, s), n);
    ConsumeKeeps(cfg, s.net.down, s.net.downRaw, s.net.downFrames, n);
    MoreReceived(s, s.net.downRaw, n);
  }

  /** An upload's consumer and a download's are never at work at the same time. */
  lemma OneConsumer(cfg: Config, s: State)
    requires Inv(cfg, s) && s.server == SStreaming(Upload)
    ensures s.client != CStreaming(Download)
  {}

  /** Every action of either end, its reader task or the kernel keeps the invariant. */
  lemma StepKeeps(cfg: Config, s: State, a: Action)
    requires Inv(cfg, s) && Enabled(cfg, s, a)
    ensures Inv(cfg, Step(cfg, s, a))
  {
    match a
    case FlushUp(_) | FlushDown(_) | TakeUp(_) | TakeDown(_) => KernelKeeps(cfg, s, a);
    case ClientSend(p) => ClientSendKeeps(cfg, s, p);
    case ClientRequest(p, stream) => RequestKeeps(cfg, s, p, stream);
    case ClientParse => ClientParseKeeps(cfg, s);
    case ClientAbandon => ClientAbandonKeeps(cfg, s);
    case ClientStart(p) => ClientStartKeeps(cfg, s, p);
    case ClientFinish => ClientFinishKeeps(cfg, s);
    case ServerSend(p) => ServerSendKeeps(cfg, s, p);
    case ServerParse => ServerParseKeeps(cfg, s);
    case ServerReady(p) => ServerReadyKeeps(cfg, s, p);
    case ServerFinal(p) => ServerFinalKeeps(cfg, s, p);
    case ServerReject | ServerStart | ServerFinish => ServerTurnKeeps(cfg, s, a);
    case Produce(n) =>
      if s.client == CStreaming(Upload) {
        UploadProduceKeeps(cfg, s, n);
      } else {
        DownloadProduceKeeps(cfg, s, n);
      }
    case Consume(n) =>
      if s.server == SStreaming(Upload) {
        OneConsumer(cfg, s);
        UploadConsumeKeeps(cfg, s, n);
      } else {
        DownloadConsumeKeeps(cfg, s, n);
      }
  }
}
