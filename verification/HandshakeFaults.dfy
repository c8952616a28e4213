/** Callbacks that end before the whole stream has gone through: when that breaks the connection,
    for either end and either direction, over every continuation.  The server's may return or raise;
    the client tears the connection down when its own raises, so that one can only return. */
module HandshakeFaults {
  import opened Framing
  import opened Handshake
  import opened HandshakeInvariant
  import opened HandshakeProofs
  import opened HandshakeSafety
  import opened HandshakeLimits

  /** Raw bytes in a framing reader's buffer, or more bytes received than were produced: frames
      taken for the stream. */
  datatype Fault = UpMixed | DownMixed | Overread

  predicate Shows(s: State, f: Fault) {
    match f
    case UpMixed => s.net.upRaw != [] && s.net.up.rbuf != []
    case DownMixed => s.net.downRaw != [] && s.net.down.rbuf != []
    case Overread => |s.received| > s.produced
  }

  /** The fault shows in no continuation. */
  ghost predicate Safe(cfg: Config, s: State, f: Fault) {
    forall more: seq<Action> :: From(cfg, s, more).At? ==> !Shows(From(cfg, s, more).s, f)
  }

  lemma {:induction false} SoundShowsNothing(cfg: Config, s: State, f: Fault)
    requires Inv(cfg, s)
    ensures !Shows(s, f)
  {}

  lemma {:induction false} SoundIsSafe(cfg: Config, s: State, f: Fault)
    requires Inv(cfg, s)
    ensures Safe(cfg, s, f)
  {
    hide Inv, Shows;
    forall more: seq<Action> | From(cfg, s, more).At? ensures !Shows(From(cfg, s, more).s, f) {
      FromKeepsInvariant(cfg, s, more);
      SoundShowsNothing(cfg, From(cfg, s, more).s, f);
    }
  }

  lemma {:induction false} UnsafeNow(cfg: Config, s: State, f: Fault)
    requires Shows(s, f)
    ensures !Safe(cfg, s, f)
  {
    assert From(cfg, s, []) == At(s);
  }

  lemma {:induction false} UnsafeLater(cfg: Config, s: State, a: Action, f: Fault)
    requires Enabled(cfg, s, a) && !Safe(cfg, Step(cfg, s, a), f)
    ensures !Safe(cfg, s, f)
  {
    hide Enabled, Step, Shows;
    var t := Step(cfg, s, a);
    var more: seq<Action> :| From(cfg, t, more).At? && Shows(From(cfg, t, more).s, f);
    FromPrepend(cfg, s, a, more);
  }

  lemma {:induction false} FromPrepend(cfg: Config, s: State, a: Action, more: seq<Action>)
    requires Enabled(cfg, s, a)
    ensures From(cfg, s, [a] + more) == From(cfg, Step(cfg, s, a), more)
  {
    hide Enabled, Step;
    if more == [] {
      assert [a] + more == [a] && [a][..0] == [];
    } else {
      var n := |more| - 1;
      assert ([a] + more)[..n + 1] == [a] + more[..n];
      FromPrepend(cfg, s, a, more[..n]);
    }
  }

  // ---- everything on its way arrives ------------------------------------------------------------------

  function Arrived(ch: Channel): Channel {
    Channel([], [], ch.rbuf + (ch.wire + ch.wbuf), false)
  }

  lemma {:induction false} UnsafeUpArrived(cfg: Config, s: State, f: Fault)
    requires !s.net.up.paused && !Safe(cfg, s.(net := s.net.(up := Arrived(s.net.up))), f)
    ensures !Safe(cfg, s, f)
  {
    hide Safe;
    var up := s.net.up;
    var t := s.(net := s.net.(up := Channel([], up.wire + up.wbuf, up.rbuf, false)));
    var all := up.wire + up.wbuf;
    if all != [] {
      assert all[..|all|] == all && all[|all|..] == [];
      UnsafeLater(cfg, t, TakeUp(|all|), f);
    } else {
      assert up.rbuf + all == up.rbuf;
    }
    if up.wbuf != [] {
      assert up.wbuf[..|up.wbuf|] == up.wbuf && up.wbuf[|up.wbuf|..] == [];
      UnsafeLater(cfg, s, FlushUp(|up.wbuf|), f);
    } else {
      assert up.wire + up.wbuf == up.wire;
    }
  }

  lemma {:induction false} UnsafeDownArrived(cfg: Config, s: State, f: Fault)
    requires !s.net.down.paused && !Safe(cfg, s.(net := s.net.(down := Arrived(s.net.down))), f)
    ensures !Safe(cfg, s, f)
  {
    hide Safe;
    var down := s.net.down;
    var t := s.(net := s.net.(down := Channel([], down.wire + down.wbuf, down.rbuf, false)));
    var all := down.wire + down.wbuf;
    if all != [] {
      assert all[..|all|] == all && all[|all|..] == [];
      UnsafeLater(cfg, t, TakeDown(|all|), f);
    } else {
      assert down.rbuf + all == down.rbuf;
    }
    if down.wbuf != [] {
      assert down.wbuf[..|down.wbuf|] == down.wbuf && down.wbuf[|down.wbuf|..] == [];
      UnsafeLater(cfg, s, FlushDown(|down.wbuf|), f);
    } else {
      assert down.wire + down.wbuf == down.wire;
    }
  }

  // ---- an upload's consumer, on the server ---------------------------------------------------------------

  /** Once its reader runs again, raw bytes that are still there get into it. */
  lemma {:induction false} ResumedUpTakesRaw(cfg: Config, s: State)
    requires s.net.upRaw != [] && s.net.up.wire != [] && !s.net.up.paused
    ensures !Safe(cfg, s, UpMixed)
  {
    UnsafeNow(cfg, Step(cfg, s, TakeUp(1)), UpMixed);
    UnsafeLater(cfg, s, TakeUp(1), UpMixed);
  }

  /** Nothing of the upload has left its client yet, and the server's reader runs. */
  predicate Untaken(s: State) {
    && s.stream != [] && s.produced == 0 && s.net.upRaw == [] && s.net.up.wire == [] && !s.net.up.paused
  }

  lemma {:induction false} ProducedIsMixed(cfg: Config, s: State)
    requires s.client == CStreaming(Upload) && s.produced < |s.stream|
    requires s.net.upRaw == [] && s.net.up.wire == [] && !s.net.up.paused
    ensures !Safe(cfg, s, UpMixed)
  {
    ResumedUpTakesRaw(cfg, Step(cfg, s, Produce(1)));
    UnsafeLater(cfg, s, Produce(1), UpMixed);
  }

  lemma {:induction false} StartedIsMixed(cfg: Config, s: State)
    requires s.client == CGotReady(Upload) && Untaken(s)
    ensures !Safe(cfg, s, UpMixed)
  {
    ProducedIsMixed(cfg, Step(cfg, s, ClientStart([])));
    UnsafeLater(cfg, s, ClientStart([]), UpMixed);
  }

  /** The client reads what is ahead of its ready, and starts. */
  lemma {:induction false} WaitingIsMixed(cfg: Config, s: State)
    requires s.client.CWaiting? && Untaken(s) && Within(s.net.downFrames, cfg.limit)
    requires s.net.down == Channel([], [], Frames(s.net.downFrames), false)
    requires Specials(cfg, s.net.downFrames) == [Ready(Upload)]
    ensures !Safe(cfg, s, UpMixed)
    decreases |s.net.downFrames|
  {
    var p, rest := s.net.downFrames[0], s.net.downFrames[1..];
    FirstOfFrame(p, Frames(rest), cfg.limit);
    DropFirst(Frame(p), Frames(rest));
    PopFrame(cfg, s.net.downFrames);
    var t := Step(cfg, s, ClientParse);
    assert t.net.down == Channel([], [], Frames(rest), false) && t.net.downFrames == rest;
    hide First, Frame, Frames;
    if cfg.kindOf(p).Other? {
      WaitingIsMixed(cfg, t);
    } else {
      StartedIsMixed(cfg, t);
    }
    UnsafeLater(cfg, s, ClientParse, UpMixed);
  }

  /** Where an upload is while the server's callback runs. */
  lemma {:induction false} UploadUnderWay(cfg: Config, s: State)
    requires Inv(cfg, s) && s.server == SStreaming(Upload)
    ensures s.received <= s.stream
    ensures match s.client
            case CWaiting =>
              && s.received == [] && s.produced == 0 && s.net.upRaw == s.net.up.wire == [] && !s.net.down.paused
              && Specials(cfg, s.net.downFrames) == [Ready(Upload)] && s.net.downRaw == []
            case CGotReady(d) =>
              d.Upload? && s.received == [] && s.produced == 0 && s.net.upRaw == s.net.up.wire == []
            case CStreaming(d) =>
              && d.Upload? && |s.received| + |s.net.upRaw| == s.produced <= |s.stream|
              && s.net.up.wire == s.net.upRaw
            case CFinishing => |s.received| + |s.net.upRaw| == |s.stream| && |s.net.upRaw| <= |s.net.up.wire|
            case CGone => s.net.upRaw == []
            case CIdle => false
  {
    if !s.client.CFinishing? {
      TightEmpty(cfg, s.net.upFrames);
      OnlyRaw(cfg, s.net.up, s.net.upRaw, s.net.upFrames);
    }
    hide Frames, First;
  }

  lemma {:induction false} OnlyRaw(cfg: Config, ch: Channel, raw: Bytes, frames: seq<Bytes>)
    requires Apart(cfg, ch, raw, frames)
    ensures frames == [] ==> ch.wire == raw && ch.rbuf == ch.wbuf == []
  {
    if frames == [] {
      assert Pending(ch) == raw;
      assert |Pending(ch)| == |ch.rbuf| + |ch.wire| + |ch.wbuf|;
    }
  }

  lemma {:induction false} GoneStaysSound(cfg: Config, s: State)
    requires Inv(cfg, s) && s.server == SStreaming(Upload) && s.client.CGone?
    ensures Inv(cfg, ServerFinishes(s))
  {
    hide Apart;
    assert See(cfg, s).Placed() && s.net.upRaw == [];
    PauseKeeps(cfg, s.net.up, s.net.upRaw, s.net.upFrames, false);
  }

  lemma {:induction false} WaitingUploadMixes(cfg: Config, s: State)
    requires Inv(cfg, s) && s.server == SStreaming(Upload) && s.client.CWaiting? && s.stream != []
    ensures !Safe(cfg, ServerFinishes(s), UpMixed)
  {
    UploadUnderWay(cfg, s);
    var t := ServerFinishes(s);
    var u := t.(net := t.net.(down := Arrived(t.net.down)));
    var down := s.net.down;
    assert Apart(cfg, down, [], s.net.downFrames) && Pending(down) == [] + Frames(s.net.downFrames);
    assert down.rbuf + (down.wire + down.wbuf) == Pending(down) == Frames(s.net.downFrames);
    hide Inv, Frames, Safe;
    WaitingIsMixed(cfg, u);
    UnsafeDownArrived(cfg, t, UpMixed);
  }

  /** An upload's callback on the server may return or raise at any point; frames and stream stay apart in
      every continuation if and only if it has received the whole stream, or the client has gone
      and sends none. */
  lemma {:induction false} ServerUploadEndsEarly(cfg: Config, actions: seq<Action>)
    requires Execute(cfg, actions).At? && Execute(cfg, actions).s.server == SStreaming(Upload)
    ensures var s := Execute(cfg, actions).s;
            Safe(cfg, ServerFinishes(s), UpMixed) <==> s.received == s.stream || s.client.CGone?
  {
    RunKeepsInvariant(cfg, actions);
    var s := Execute(cfg, actions).s;
    var t := ServerFinishes(s);
    UploadUnderWay(cfg, s);
    hide Execute, Safe;
    if s.received == s.stream {
      StepKeeps(cfg, s, ServerFinish);
      SoundIsSafe(cfg, t, UpMixed);
    } else if s.client.CGone? {
      GoneStaysSound(cfg, s);
      SoundIsSafe(cfg, t, UpMixed);
    } else {
      hide Inv;
      if s.net.upRaw != [] {
        ResumedUpTakesRaw(cfg, t);
      } else if s.client.CWaiting? {
        WaitingUploadMixes(cfg, s);
      } else if s.client.CGotReady? {
        StartedIsMixed(cfg, t);
      } else {
        ProducedIsMixed(cfg, t);
      }
    }
  }

  // ---- a download's producer, on the server ----------------------------------------------------------------

  /** A frame that comes behind `s.net.downRaw` is taken for the rest of the stream. */
  lemma {:induction false} DownloadReadsFrame(cfg: Config, s: State, p: Bytes)
    requires s.client == CStreaming(Download) && s.server.SReplying? && s.gate && Sendable(cfg, p, Final)
    requires s.net.down.wbuf == [] && |s.received| + |s.net.down.wire| == s.produced < |s.stream|
    ensures !Safe(cfg, s, Overread)
  {
    hide Frame;
    assert Frame(p) != [] by { FrameIsNotEmpty(p); }
    var t := Step(cfg, s, ServerFinal(p));
    assert t.net.down.wbuf == Frame(p);
    var n := |Frame(p)|;
    var u := Step(cfg, t, FlushDown(n));
    assert |u.net.down.wire| == |s.net.down.wire| + n;
    var k := |s.net.down.wire| + 1;
    UnsafeNow(cfg, Step(cfg, u, Consume(k)), Overread);
    UnsafeLater(cfg, u, Consume(k), Overread);
    UnsafeLater(cfg, t, FlushDown(n), Overread);
    UnsafeLater(cfg, s, ServerFinal(p), Overread);
  }

  lemma {:induction false} FrameIsNotEmpty(p: Bytes)
    requires |p| < LENGTH_BOUND
    ensures Frame(p) != []
  {
    assert |Frame(p)| >= HEADER_SIZE;
  }

  lemma {:induction false} DownloadUnderWay(cfg: Config, s: State)
    requires Inv(cfg, s) && s.server == SStreaming(Download)
    ensures s.produced <= |s.stream| && (s.produced < |s.stream| ==> s.client == CStreaming(Download))
    ensures s.produced < |s.stream| ==>
              && s.net.down.wire == s.net.downRaw && s.net.down.wbuf == []
              && |s.received| + |s.net.downRaw| == s.produced
  {
    assert See(cfg, s).Placed() && Moving(s);
    hide Apart, Frames, First;
    if s.produced < |s.stream| {
      assert See(cfg, s).NothingDown();
      TightEmpty(cfg, s.net.downFrames);
      OnlyRaw(cfg, s.net.down, s.net.downRaw, s.net.downFrames);
    }
  }

  /** A download's callback on the server may return or raise at any point; its client takes no frame for the
      stream, in any continuation, if and only if the whole stream has been produced. */
  lemma {:induction false} ServerDownloadEndsEarly(cfg: Config, actions: seq<Action>, p: Bytes)
    requires Execute(cfg, actions).At? && Execute(cfg, actions).s.server == SStreaming(Download)
    requires Sendable(cfg, p, Final)
    ensures var s := Execute(cfg, actions).s;
            Safe(cfg, ServerFinishes(s), Overread) <==> s.produced == |s.stream|
  {
    RunKeepsInvariant(cfg, actions);
    var s := Execute(cfg, actions).s;
    DownloadUnderWay(cfg, s);
    hide Execute, Safe;
    if s.produced == |s.stream| {
      StepKeeps(cfg, s, ServerFinish);
      SoundIsSafe(cfg, ServerFinishes(s), Overread);
    } else {
      DownloadReadsFrame(cfg, ServerFinishes(s), p);
    }
  }

  // ---- an upload's producer, on the client ------------------------------------------------------------------

  lemma {:induction false} UploadReadsFrame(cfg: Config, s: State, p: Bytes)
    requires s.client.CFinishing? && s.server == SStreaming(Upload) && Sendable(cfg, p, Other)
    requires s.net.up.wbuf == [] && |s.received| + |s.net.up.wire| == s.produced < |s.stream|
    ensures !Safe(cfg, s, Overread)
  {
    hide Frame;
    assert Frame(p) != [] by { FrameIsNotEmpty(p); }
    var t := Step(cfg, s, ClientSend(p));
    assert t.net.up.wbuf == Frame(p);
    var n := |Frame(p)|;
    var u := Step(cfg, t, FlushUp(n));
    assert |u.net.up.wire| == |s.net.up.wire| + n;
    var k := |s.net.up.wire| + 1;
    UnsafeNow(cfg, Step(cfg, u, Consume(k)), Overread);
    UnsafeLater(cfg, u, Consume(k), Overread);
    UnsafeLater(cfg, t, FlushUp(n), Overread);
    UnsafeLater(cfg, s, ClientSend(p), Overread);
  }

  lemma {:induction false} UploadSent(cfg: Config, s: State)
    requires Inv(cfg, s) && s.client == CStreaming(Upload)
    ensures s.produced <= |s.stream|
    ensures s.produced < |s.stream| ==>
              && s.server == SStreaming(Upload) && !s.answered && s.net.up.wire == s.net.upRaw && s.net.up.wbuf == []
              && |s.received| + |s.net.upRaw| == s.produced
  {
    TightEmpty(cfg, s.net.upFrames);
    OnlyRaw(cfg, s.net.up, s.net.upRaw, s.net.upFrames);
    hide Frames, First;
  }

  /** An upload's callback on the client may return at any point; the server takes no frame for the
      stream, in any continuation, if and only if the whole stream has been produced. */
  lemma {:induction false} ClientUploadEndsEarly(cfg: Config, actions: seq<Action>, p: Bytes)
    requires Execute(cfg, actions).At? && Execute(cfg, actions).s.client == CStreaming(Upload)
    requires Sendable(cfg, p, Other)
    ensures var s := Execute(cfg, actions).s;
            Safe(cfg, ClientFinishes(s), Overread) <==> s.produced == |s.stream|
  {
    RunKeepsInvariant(cfg, actions);
    var s := Execute(cfg, actions).s;
    UploadSent(cfg, s);
    hide Execute, Safe;
    if s.produced == |s.stream| {
      StepKeeps(cfg, s, ClientFinish);
      SoundIsSafe(cfg, ClientFinishes(s), Overread);
    } else {
      UploadReadsFrame(cfg, ClientFinishes(s), p);
    }
  }

  // ---- a download's consumer, on the client -----------------------------------------------------------------

  lemma {:induction false} ResumedDownTakesRaw(cfg: Config, s: State)
    requires s.net.downRaw != [] && s.net.down.wire != [] && !s.net.down.paused
    ensures !Safe(cfg, s, DownMixed)
  {
    UnsafeNow(cfg, Step(cfg, s, TakeDown(1)), DownMixed);
    UnsafeLater(cfg, s, TakeDown(1), DownMixed);
  }

  /** The server has still something to produce, and the client's reader runs. */
  predicate Unsent(s: State) {
    !s.client.CStreaming? && s.produced < |s.stream| && s.net.downRaw == [] && !s.net.down.paused
  }

  lemma {:induction false} SentIsMixed(cfg: Config, s: State)
    requires s.server == SStreaming(Download) && Unsent(s)
    ensures !Safe(cfg, s, DownMixed)
  {
    ResumedDownTakesRaw(cfg, Step(cfg, s, Produce(1)));
    UnsafeLater(cfg, s, Produce(1), DownMixed);
  }

  lemma {:induction false} ToldIsMixed(cfg: Config, s: State)
    requires s.server.SGotGo? && Unsent(s)
    ensures !Safe(cfg, s, DownMixed)
  {
    SentIsMixed(cfg, Step(cfg, s, ServerStart));
    UnsafeLater(cfg, s, ServerStart, DownMixed);
  }

  lemma {:induction false} AskedIsMixed(cfg: Config, s: State)
    requires s.server.SAwaitGo? && Unsent(s) && Within(s.net.upFrames, cfg.limit) && GoFirst(cfg, s.net.upFrames)
    requires s.net.up == Channel([], [], Frames(s.net.upFrames), false)
    ensures !Safe(cfg, s, DownMixed)
  {
    var p, rest := s.net.upFrames[0], s.net.upFrames[1..];
    FirstOfFrame(p, Frames(rest), cfg.limit);
    hide First, Frames;
    ToldIsMixed(cfg, Step(cfg, s, ServerParse));
    UnsafeLater(cfg, s, ServerParse, DownMixed);
  }

  lemma {:induction false} DownloadTaken(cfg: Config, s: State)
    requires Inv(cfg, s) && s.client == CStreaming(Download)
    ensures s.received <= s.stream && |s.received| + |s.net.downRaw| == s.produced <= |s.stream|
    ensures |s.net.downRaw| <= |s.net.down.wire|
    ensures s.produced < |s.stream| ==> s.server.SAwaitGo? || s.server.SGotGo? || s.server == SStreaming(Download)
    ensures s.produced < |s.stream| ==> !s.answered
    ensures s.server.SAwaitGo? ==> !s.net.up.paused && s.net.upRaw == [] && GoFirst(cfg, s.net.upFrames)
  {}

  lemma {:induction false} AskedDownloadMixes(cfg: Config, s: State)
    requires Inv(cfg, s) && s.client == CStreaming(Download) && s.server.SAwaitGo? && s.stream != []
    requires s.net.downRaw == [] && s.received != s.stream
    ensures !Safe(cfg, ClientFinishes(s), DownMixed)
  {
    DownloadTaken(cfg, s);
    var t, up := ClientFinishes(s), s.net.up;
    var u := t.(net := t.net.(up := Arrived(up)));
    assert Apart(cfg, up, [], s.net.upFrames) && Pending(up) == [] + Frames(s.net.upFrames);
    assert up.rbuf + (up.wire + up.wbuf) == Pending(up) == Frames(s.net.upFrames);
    hide Inv, Frames, Safe;
    AskedIsMixed(cfg, u);
    UnsafeUpArrived(cfg, t, DownMixed);
  }

  /** A download's callback on the client may return at any point; frames and stream stay apart in
      every continuation if and only if it has received the whole stream. */
  lemma {:induction false} ClientDownloadEndsEarly(cfg: Config, actions: seq<Action>)
    requires Execute(cfg, actions).At? && Execute(cfg, actions).s.client == CStreaming(Download)
    ensures var s := Execute(cfg, actions).s;
            Safe(cfg, ClientFinishes(s), DownMixed) <==> s.received == s.stream
  {
    RunKeepsInvariant(cfg, actions);
    var s := Execute(cfg, actions).s;
    var t := ClientFinishes(s);
    DownloadTaken(cfg, s);
    hide Execute, Safe;
    if s.received == s.stream {
      StepKeeps(cfg, s, ClientFinish);
      SoundIsSafe(cfg, t, DownMixed);
    } else {
      hide Inv;
      if s.net.downRaw != [] {
        ResumedDownTakesRaw(cfg, t);
      } else if s.server.SAwaitGo? {
        AskedDownloadMixes(cfg, s);
      } else if s.server.SGotGo? {
        ToldIsMixed(cfg, t);
      } else {
        SentIsMixed(cfg, t);
      }
    }
  }
}
