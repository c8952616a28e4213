/** The raw-fd transfer handshake of `connection.py` and `client.py`: two ends, two byte streams,
    and on each end a reader task that takes bytes into user space whenever it is not paused.

    Frames and raw stream bytes travel as plain bytes, so nothing on the wire tells them apart:
    the safety results say that the handshake keeps them apart. */
module Handshake {
  import opened Framing

  datatype Direction = Upload | Download

  /** What a decoded payload is to the handshake. */
  datatype Kind = Request(dir: Direction) | Ready(dir: Direction) | Go | Final | Other

  /** JSON decoding is any function from payloads to kinds. */
  datatype Config = Config(limit: nat, kindOf: Bytes -> Kind)

  /** One direction of the connection: the sender's transport buffer, the kernel's bytes, and
      the receiver's stream buffer with the flag that parks its reader. */
  datatype Channel = Channel(wbuf: Bytes, wire: Bytes, rbuf: Bytes, paused: bool)

  /** `CGone`: the preparation failed or was cancelled after the request had gone out. */
  datatype Client = CIdle | CWaiting | CGotReady(dir: Direction) | CStreaming(dir: Direction) | CFinishing | CGone

  datatype Server = SIdle | SAccepted(dir: Direction) | SAwaitGo | SGotGo | SStreaming(dir: Direction)
                  | SReplying | SBroken

  datatype Outcome = Unknown | Completed | Failed

  /** Both directions, `up` from client to server, and their history: raw bytes and payloads
      sent and not yet consumed, and all payloads sent and parsed. */
  datatype Net = Net(
    up: Channel, down: Channel,
    upRaw: Bytes, downRaw: Bytes, upFrames: seq<Bytes>, downFrames: seq<Bytes>,
    upSent: seq<Bytes>, downSent: seq<Bytes>, upGot: seq<Bytes>, downGot: seq<Bytes>)

  /** `gate` is the server's writer gate, `asked` the direction of the current transfer, `stream`
      what its producer has to send, and `received` what the consumer's callback has read from the
      descriptor.  `accepted` says that the server said ready, `answered` that the final response
      came before the client's callback returned, and `outcome` what `transfer` reported. */
  datatype State = State(
    client: Client, server: Server, gate: bool,
    asked: Direction, stream: Bytes, produced: nat, received: Bytes,
    accepted: bool, answered: bool, outcome: Outcome, net: Net)

  function Init(): State {
    var empty := Channel([], [], [], false);
    State(CIdle, SIdle, true, Upload, [], 0, [], false, false, Unknown,
          Net(empty, empty, [], [], [], [], [], [], [], []))
  }

  datatype Action =
    | FlushUp(n: nat) | FlushDown(n: nat)
    | TakeUp(n: nat) | TakeDown(n: nat)
    | ClientSend(p: Bytes)
    | ClientRequest(p: Bytes, stream: Bytes)
    | ClientParse
    | ClientAbandon
    | ClientStart(p: Bytes)
    | ClientFinish
    | ServerSend(p: Bytes)
    | ServerParse
    | ServerReject
    | ServerReady(p: Bytes)
    | ServerStart
    | ServerFinish
    | ServerFinal(p: Bytes)
    | Produce(n: nat)
    | Consume(n: nat)

  predicate Sendable(cfg: Config, p: Bytes, k: Kind) {
    |p| <= cfg.limit && |p| < LENGTH_BOUND && cfg.kindOf(p) == k
  }

  /** When an action can happen.  `ClientSend` is the assumption on the client: it sends no other
      frame between a transfer request and the end of its part in the stream, and none after it
      has abandoned a transfer. */
  predicate Enabled(cfg: Config, s: State, a: Action) {
    match a
    case FlushUp(n) => 0 < n <= |s.net.up.wbuf|
    case FlushDown(n) => 0 < n <= |s.net.down.wbuf|
    case TakeUp(n) => !s.net.up.paused && 0 < n <= |s.net.up.wire|
    case TakeDown(n) => !s.net.down.paused && 0 < n <= |s.net.down.wire|
    case ClientSend(p) => (s.client.CIdle? || s.client.CFinishing?) && Sendable(cfg, p, Other)
    case ClientRequest(p, _) =>
      s.client.CIdle? && (Sendable(cfg, p, Request(Upload)) || Sendable(cfg, p, Request(Download)))
    case ClientParse => First(s.net.down.rbuf, cfg.limit).Payload?
    case ClientAbandon => s.client.CWaiting? || s.client.CGotReady?
    case ClientStart(p) => s.client.CGotReady? && (s.client.dir.Download? ==> Sendable(cfg, p, Go))
    case ClientFinish =>
      s.client.CStreaming? &&
      (if s.client.dir.Upload? then s.produced == |s.stream| else |s.received| == |s.stream|)
    case ServerSend(p) => s.gate && Sendable(cfg, p, Other)
    case ServerParse => First(s.net.up.rbuf, cfg.limit).Payload?
    case ServerReject => s.server.SAccepted?
    case ServerReady(p) => s.server.SAccepted? && Sendable(cfg, p, Ready(s.server.dir))
    case ServerStart => s.server.SGotGo?
    case ServerFinish =>
      s.server.SStreaming? &&
      (if s.server.dir.Upload? then |s.received| == |s.stream| else s.produced == |s.stream|)
    case ServerFinal(p) => s.server.SReplying? && s.gate && Sendable(cfg, p, Final)
    case Produce(n) =>
      && 0 < n <= |s.stream| - s.produced
      && (s.client == CStreaming(Upload) || s.server == SStreaming(Download))
    case Consume(n) =>
      && 0 < n <= |s.stream| - |s.received|
      && ((s.server == SStreaming(Upload) && n <= |s.net.up.wire|) ||
          (s.client == CStreaming(Download) && n <= |s.net.down.wire|))
  }

  function Flush(ch: Channel, n: nat): Channel
    requires n <= |ch.wbuf|
  {
    ch.(wire := ch.wire + ch.wbuf[..n], wbuf := ch.wbuf[n..])
  }

  function Take(ch: Channel, n: nat): Channel
    requires n <= |ch.wire|
  {
    ch.(rbuf := ch.rbuf + ch.wire[..n], wire := ch.wire[n..])
  }

  function Write(ch: Channel, p: Bytes): Channel
    requires |p| < LENGTH_BOUND
  {
    ch.(wbuf := ch.wbuf + Frame(p))
  }

  /** A raw write goes straight to the descriptor, past the transport's buffer. */
  function RawWrite(ch: Channel, data: Bytes): Channel {
    ch.(wire := ch.wire + data)
  }

  function RawRead(ch: Channel, n: nat): Channel
    requires n <= |ch.wire|
  {
    ch.(wire := ch.wire[n..])
  }

  /** Removes the message the framing reader just returned. */
  function Pop(ch: Channel, p: Bytes): Channel
    requires HEADER_SIZE + |p| <= |ch.rbuf|
  {
    ch.(rbuf := ch.rbuf[HEADER_SIZE + |p|..])
  }

  function Tail<T>(xs: seq<T>): seq<T> {
    if xs == [] then [] else xs[1..]
  }

  function Drop(raw: Bytes, n: nat): Bytes {
    if n <= |raw| then raw[n..] else []
  }

  function ClientWrites(net: Net, p: Bytes): Net
    requires |p| < LENGTH_BOUND
  {
    net.(up := Write(net.up, p), upFrames := net.upFrames + [p], upSent := net.upSent + [p])
  }

  function ServerWrites(net: Net, p: Bytes): Net
    requires |p| < LENGTH_BOUND
  {
    net.(down := Write(net.down, p), downFrames := net.downFrames + [p], downSent := net.downSent + [p])
  }

  function ClientPops(net: Net, p: Bytes): Net
    requires HEADER_SIZE + |p| <= |net.down.rbuf|
  {
    net.(down := Pop(net.down, p), downFrames := Tail(net.downFrames), downGot := net.downGot + [p])
  }

  function ServerPops(net: Net, p: Bytes): Net
    requires HEADER_SIZE + |p| <= |net.up.rbuf|
  {
    net.(up := Pop(net.up, p), upFrames := Tail(net.upFrames), upGot := net.upGot + [p])
  }

  function PauseUp(net: Net, paused: bool): Net {
    net.(up := net.up.(paused := paused))
  }

  function PauseDown(net: Net, paused: bool): Net {
    net.(down := net.down.(paused := paused))
  }

  function Requests(s: State, p: Bytes, d: Direction, stream: Bytes): State
    requires |p| < LENGTH_BOUND
  {
    s.(net := ClientWrites(s.net, p), client := CWaiting, asked := d, stream := stream, produced := 0, received := [],
       accepted := false, answered := false, outcome := Unknown)
  }

  /** `_on_message` and what the waiting transfer makes of it: a final response that is there
      before the stream starts is reported as a rejection, one that comes during the callback
      is kept for its end. */
  function ReactClient(c: Client, k: Kind): Client {
    match k
    case Ready(d) => if c.CWaiting? then CGotReady(d) else c
    case Final => if c.CIdle? || c.CStreaming? || c.CGone? then c else CIdle
    case _ => c
  }

  function ReactOutcome(c: Client, k: Kind, o: Outcome): Outcome {
    if !k.Final? || c.CIdle? || c.CStreaming? || c.CGone? then o
    else if c.CFinishing? then Completed
    else Failed
  }

  function ClientReads(cfg: Config, s: State, p: Bytes): State
    requires HEADER_SIZE + |p| <= |s.net.down.rbuf|
  {
    var k := cfg.kindOf(p);
    s.(client := ReactClient(s.client, k), outcome := ReactOutcome(s.client, k, s.outcome),
       answered := s.answered || (s.client.CStreaming? && k.Final?), net := ClientPops(s.net, p))
  }

  /** `serve`: a frame awaited by a transfer is its go, any other frame is dispatched. */
  function ServerReacts(v: Server, k: Kind): Server {
    if v.SAwaitGo? then (if k.Go? then SGotGo else SBroken)
    else if k.Request? then (if v.SIdle? then SAccepted(k.dir) else SBroken)
    else v
  }

  function ServerReads(cfg: Config, s: State, p: Bytes): State
    requires HEADER_SIZE + |p| <= |s.net.up.rbuf|
  {
    s.(server := ServerReacts(s.server, cfg.kindOf(p)), net := ServerPops(s.net, p))
  }

  /** The client parks its reader; only then does a download's client say go. */
  function ClientStarts(s: State, p: Bytes): State
    requires s.client.CGotReady? && (s.client.dir.Download? ==> |p| < LENGTH_BOUND)
  {
    var parked := PauseDown(s.net, true);
    s.(client := CStreaming(s.client.dir),
       net := if s.client.dir.Download? then ClientWrites(parked, p) else parked)
  }

  function ClientFinishes(s: State): State {
    var resumed := s.(net := PauseDown(s.net, false));
    if s.answered then resumed.(client := CIdle, outcome := Completed) else resumed.(client := CFinishing)
  }

  /** The writer gate closes; an upload's server parks its reader before it says ready. */
  function ServerReadies(s: State, p: Bytes): State
    requires s.server.SAccepted? && |p| < LENGTH_BOUND
  {
    var gated := s.(gate := false, accepted := true);
    if s.server.dir.Upload? then
      gated.(net := ServerWrites(PauseUp(s.net, true), p), server := SStreaming(Upload))
    else gated.(net := ServerWrites(s.net, p), server := SAwaitGo)
  }

  function ServerFinishes(s: State): State {
    s.(server := SReplying, net := PauseUp(s.net, false), gate := true)
  }

  function Produces(s: State, n: nat): State
    requires n <= |s.stream| - s.produced
  {
    var data := s.stream[s.produced..s.produced + n];
    if s.client == CStreaming(Upload) then
      s.(produced := s.produced + n,
         net := s.net.(up := RawWrite(s.net.up, data), upRaw := s.net.upRaw + data))
    else
      s.(produced := s.produced + n,
         net := s.net.(down := RawWrite(s.net.down, data), downRaw := s.net.downRaw + data))
  }

  function Consumes(s: State, n: nat): State
    requires (s.server == SStreaming(Upload) && n <= |s.net.up.wire|) || n <= |s.net.down.wire|
  {
    if s.server == SStreaming(Upload) && n <= |s.net.up.wire| then
      s.(received := s.received + s.net.up.wire[..n],
         net := s.net.(up := RawRead(s.net.up, n), upRaw := Drop(s.net.upRaw, n)))
    else
      s.(received := s.received + s.net.down.wire[..n],
         net := s.net.(down := RawRead(s.net.down, n), downRaw := Drop(s.net.downRaw, n)))
  }

  function Step(cfg: Config, s: State, a: Action): State
    requires Enabled(cfg, s, a)
  {
    match a
    case FlushUp(n) => s.(net := s.net.(up := Flush(s.net.up, n)))
    case FlushDown(n) => s.(net := s.net.(down := Flush(s.net.down, n)))
    case TakeUp(n) => s.(net := s.net.(up := Take(s.net.up, n)))
    case TakeDown(n) => s.(net := s.net.(down := Take(s.net.down, n)))
    case ClientSend(p) => s.(net := ClientWrites(s.net, p))
    case ClientRequest(p, stream) => Requests(s, p, cfg.kindOf(p).dir, stream)
    case ClientParse => ClientReads(cfg, s, First(s.net.down.rbuf, cfg.limit).data)
    case ClientAbandon => s.(client := CGone, outcome := Failed)
    case ClientStart(p) => ClientStarts(s, p)
    case ClientFinish => ClientFinishes(s)
    case ServerSend(p) => s.(net := ServerWrites(s.net, p))
    case ServerParse => ServerReads(cfg, s, First(s.net.up.rbuf, cfg.limit).data)
    case ServerReject => s.(server := SReplying)
    case ServerReady(p) => ServerReadies(s, p)
    case ServerStart => s.(net := PauseUp(s.net, true), server := SStreaming(Download))
    case ServerFinish => ServerFinishes(s)
    case ServerFinal(p) => s.(net := ServerWrites(s.net, p), server := SIdle)
    case Produce(n) => Produces(s, n)
    case Consume(n) => Consumes(s, n)
  }
}
