/** The invariant of the handshake, in two parts: what the bytes under way are, and where the two
    ends can be at the same time. */
module HandshakeInvariant {
  import opened Framing
  import opened Handshake

  // ---- bytes ------------------------------------------------------------------------------------

  function Pending(ch: Channel): Bytes {
    ch.rbuf + ch.wire + ch.wbuf
  }

  /** The bytes under way are the raw bytes not yet consumed and then whole frames; raw bytes
      are never in the sender's or the receiver's buffer, and their reader is parked. */
  predicate Apart(cfg: Config, ch: Channel, raw: Bytes, frames: seq<Bytes>) {
    && Within(frames, cfg.limit)
    && Pending(ch) == raw + Frames(frames)
    && (raw != [] ==> ch.paused && ch.rbuf == [] && |raw| <= |ch.wire|)
  }

  predicate Sound(cfg: Config, net: Net) {
    && Apart(cfg, net.up, net.upRaw, net.upFrames) && Apart(cfg, net.down, net.downRaw, net.downFrames)
    && net.upSent == net.upGot + net.upFrames && net.downSent == net.downGot + net.downFrames
  }

  /** `raw` is the stretch of the stream that comes after what the consumer has received. */
  predicate NextOf(s: State, raw: Bytes) {
    |s.received| + |raw| <= |s.stream| && raw == s.stream[|s.received|..][..|raw|]
  }

  predicate Moving(s: State) {
    s.received <= s.stream && s.produced <= |s.stream| && NextOf(s, s.net.upRaw) && NextOf(s, s.net.downRaw)
  }

  // ---- pending frames ---------------------------------------------------------------------------

  /** The kinds of the pending frames that are not ordinary, oldest first. */
  function Specials(cfg: Config, frames: seq<Bytes>): seq<Kind> {
    if frames == [] then []
    else
      var k := cfg.kindOf(frames[0]);
      (if k.Other? then [] else [k]) + Specials(cfg, frames[1..])
  }

  /** No ordinary frame is pending behind the last special one. */
  predicate Tight(cfg: Config, frames: seq<Bytes>) {
    frames != [] ==> !cfg.kindOf(frames[|frames| - 1]).Other?
  }

  predicate GoFirst(cfg: Config, frames: seq<Bytes>) {
    frames != [] && cfg.kindOf(frames[0]).Go?
  }

  // ---- where the two ends can be ------------------------------------------------------------------

  /** The state without its bytes: lengths, flags and the kinds of the pending frames. */
  datatype Sight = Sight(
    client: Client, server: Server, gate: bool, asked: Direction, accepted: bool, answered: bool, outcome: Outcome,
    total: nat, produced: nat, received: nat, upRaw: nat, downRaw: nat, upPaused: bool, downPaused: bool,
    upKinds: seq<Kind>, downKinds: seq<Kind>, upTight: bool, downTight: bool, goFirst: bool)
  {
    predicate NothingUp() { upKinds == [] && upTight }

    predicate NothingDown() { downKinds == [] && downTight }

    predicate Open() { !upPaused && gate }

    predicate Gated(paused: bool) { upPaused == paused && !gate }

    /** Nothing of this transfer's stream has moved. */
    predicate Untouched() { upRaw == downRaw == produced == received == 0 && !answered }

    predicate Idle() {
      && server.SIdle? && Open() && upRaw == downRaw == 0 && upKinds == [] && downKinds == []
      && received <= produced && (outcome.Completed? ==> received == total)
      && (outcome.Failed? && accepted ==> asked.Upload? && total == 0)
    }

    predicate Waiting() {
      && Untouched() && upTight
      && match server
         case SIdle =>
           && Open()
           && ((!accepted && upKinds == [Request(asked)] && downKinds == [])
               || (!accepted && upKinds == [] && downKinds == [Final])
               || (accepted && asked.Upload? && total == 0 && upKinds == [] && downKinds == [Ready(Upload), Final]))
         case SAccepted(d) => Open() && !accepted && d == asked && upKinds == [] && downKinds == []
         case SReplying =>
           && Open() && upKinds == []
           && (if accepted then asked.Upload? && total == 0 && downKinds == [Ready(Upload)] else downKinds == [])
         case SStreaming(d) =>
           && d.Upload? && asked.Upload? && accepted && Gated(true)
           && upKinds == [] && downKinds == [Ready(Upload)] && downTight
         case SAwaitGo =>
           && asked.Download? && accepted && Gated(false)
           && upKinds == [] && downKinds == [Ready(Download)] && downTight
         case _ => false
    }

    /** After the client has given up, the server goes on as far as it gets without the client. */
    predicate Gone() {
      && Untouched() && upTight && outcome.Failed?
      && match server
         case SIdle => Open() && (upKinds == [] || (upKinds == [Request(asked)] && !accepted && downKinds == []))
         case SAccepted(d) => Open() && !accepted && d == asked && upKinds == []
         case SReplying => Open() && upKinds == []
         case SStreaming(d) => d.Upload? && asked.Upload? && accepted && Gated(true) && upKinds == []
         case SAwaitGo => asked.Download? && accepted && Gated(false) && upKinds == []
         case _ => false
    }

    predicate GotReady(d: Direction) {
      && Untouched() && accepted && d == asked && NothingUp()
      && match server
         case SStreaming(e) => d.Upload? && e.Upload? && Gated(true) && NothingDown()
         case SAwaitGo => d.Download? && Gated(false) && NothingDown()
         case SReplying => d.Upload? && total == 0 && Open() && downKinds == []
         case SIdle => d.Upload? && total == 0 && Open() && downKinds == [Final]
         case _ => false
    }

    predicate Uploading() {
      && downRaw == 0 && NothingUp() && received + upRaw == produced <= total
      && match server
         case SStreaming(d) => d.Upload? && Gated(true) && NothingDown() && !answered
         case SReplying => Open() && received == total && downKinds == [] && !answered
         case SIdle => Open() && received == total && downKinds == (if answered then [] else [Final])
         case _ => false
    }

    predicate Downloading() {
      && upRaw == 0 && received + downRaw == produced <= total
      && upKinds == (if server.SAwaitGo? then [Go] else [])
      && match server
         case SAwaitGo => produced == 0 && Gated(false) && NothingDown() && !answered && goFirst
         case SGotGo => produced == 0 && Gated(false) && NothingDown() && !answered
         case SStreaming(d) => d.Download? && Gated(true) && NothingDown() && !answered
         case SReplying => Open() && produced == total && downKinds == [] && !answered
         case SIdle => Open() && produced == total && downKinds == (if answered then [] else [Final])
         case _ => false
    }

    predicate Finishing() {
      && downRaw == 0 && !answered && received + upRaw == produced == total
      && upKinds == (if server.SAwaitGo? then [Go] else [])
      && match server
         case SAwaitGo => total == 0 && Gated(false) && NothingDown() && goFirst
         case SGotGo => total == 0 && Gated(false) && NothingDown()
         case SStreaming(d) => Gated(true) && NothingDown() && (d.Download? ==> received == total)
         case SReplying => Open() && received == total && downKinds == []
         case SIdle => Open() && received == total && downKinds == [Final]
         case _ => false
    }

    predicate Placed() {
      && (downPaused <==> client.CStreaming?)
      && match client
         case CIdle => Idle()
         case CWaiting => Waiting()
         case CGotReady(d) => GotReady(d)
         case CStreaming(d) => if d.Upload? then Uploading() else Downloading()
         case CFinishing => Finishing()
         case CGone => Gone()
    }
  }

  function See(cfg: Config, s: State): Sight {
    Sight(s.client, s.server, s.gate, s.asked, s.accepted, s.answered, s.outcome,
          |s.stream|, s.produced, |s.received|, |s.net.upRaw|, |s.net.downRaw|,
          s.net.up.paused, s.net.down.paused,
          Specials(cfg, s.net.upFrames), Specials(cfg, s.net.downFrames),
          Tight(cfg, s.net.upFrames), Tight(cfg, s.net.downFrames), GoFirst(cfg, s.net.upFrames))
  }

  predicate Inv(cfg: Config, s: State) {
    Sound(cfg, s.net) && Moving(s) && See(cfg, s).Placed()
  }

  // ---- what each action does to the sight of a state -------------------------------------------------

  function Queue(ks: seq<Kind>, k: Kind): seq<Kind> {
    if k.Other? then ks else ks + [k]
  }

  function Unqueue(ks: seq<Kind>, k: Kind): seq<Kind> {
    if k.Other? || ks == [] then ks else ks[1..]
  }

  lemma {:induction false} SpecialsAppend(cfg: Config, frames: seq<Bytes>, p: Bytes)
    ensures Specials(cfg, frames + [p]) == Queue(Specials(cfg, frames), cfg.kindOf(p))
    ensures Tight(cfg, frames + [p]) <==> !cfg.kindOf(p).Other?
    ensures GoFirst(cfg, frames + [p]) <==> if frames == [] then cfg.kindOf(p).Go? else GoFirst(cfg, frames)
  {
    if frames == [] {
      assert (frames + [p])[1..] == [];
    } else {
      assert (frames + [p])[1..] == frames[1..] + [p];
      SpecialsAppend(cfg, frames[1..], p);
    }
  }

  lemma PopFrame(cfg: Config, frames: seq<Bytes>)
    requires frames != []
    ensures var k := cfg.kindOf(frames[0]);
            && Specials(cfg, Tail(frames)) == Unqueue(Specials(cfg, frames), k)
            && (!k.Other? ==> Specials(cfg, frames) != [] && Specials(cfg, frames)[0] == k)
    ensures Tight(cfg, frames) ==> Tight(cfg, Tail(frames))
  {}

  /** Tight and without special frames is empty. */
  lemma {:induction false} TightEmpty(cfg: Config, frames: seq<Bytes>)
    requires Tight(cfg, frames)
    ensures Specials(cfg, frames) == [] <==> frames == []
  {
    if |frames| > 1 {
      TightEmpty(cfg, frames[1..]);
    }
  }
}
