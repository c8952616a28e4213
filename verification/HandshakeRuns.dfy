/** Every stream can go through: for either direction there is a run that ends with it delivered. */
module HandshakeRuns {
  import opened Framing
  import opened Handshake
  import opened HandshakeSafety

  /** One payload of each kind that a transfer in direction `d` needs. */
  datatype Lines = Lines(request: Bytes, ready: Bytes, go: Bytes, final: Bytes)

  predicate Spoken(cfg: Config, t: Lines, d: Direction) {
    && Sendable(cfg, t.request, Request(d)) && Sendable(cfg, t.ready, Ready(d))
    && Sendable(cfg, t.go, Go) && Sendable(cfg, t.final, Final)
  }

  predicate Silent(ch: Channel) {
    ch.wbuf == [] && ch.wire == [] && ch.rbuf == []
  }

  /** The state of a run in a transfer of `stream`: where the two ends are, how much has gone
      through, and that nothing is under way. */
  predicate Stands(s: State, client: Client, server: Server, d: Direction, stream: Bytes, moved: nat) {
    && s.client == client && s.server == server && s.asked == d && s.stream == stream
    && moved <= |stream| && s.produced == moved && s.received == stream[..moved] && !s.answered
    && Silent(s.net.up) && Silent(s.net.down)
    && s.net.down.paused == client.CStreaming?
    && s.net.up.paused == server.SStreaming?
    && s.gate == !(server.SStreaming? || server.SAwaitGo? || server.SGotGo?)
  }

  /** One action more. */
  lemma {:induction false} Then(cfg: Config, actions: seq<Action>, a: Action) returns (more: seq<Action>)
    requires Execute(cfg, actions).At? && Enabled(cfg, Execute(cfg, actions).s, a)
    ensures Execute(cfg, more) == At(Step(cfg, Execute(cfg, actions).s, a))
  {
    Extend(cfg, actions, a);
    more := actions + [a];
  }

  /** The client's frame travels and is parsed. */
  lemma {:induction false} FrameUp(cfg: Config, actions: seq<Action>, p: Bytes) returns (more: seq<Action>)
    requires Execute(cfg, actions).At? && |p| <= cfg.limit && |p| < LENGTH_BOUND
    requires Execute(cfg, actions).s.net.up == Channel(Frame(p), [], [], false)
    ensures Execute(cfg, more).At?
    ensures var s, t := Execute(cfg, actions).s, Execute(cfg, more).s;
            t == s.(server := ServerReacts(s.server, cfg.kindOf(p)), net := t.net)
            && t.net.up == Channel([], [], [], false) && t.net.down == s.net.down
            && t.net.upGot == s.net.upGot + [p] && t.net.downGot == s.net.downGot
  {
    assert |Frame(p)| >= HEADER_SIZE && Frame(p) + [] == Frame(p);
    more := DeliverUp(cfg, actions, Frame(p));
    FirstOfFrame(p, [], cfg.limit);
    hide Execute, Frame, First;
    more := Then(cfg, more, ServerParse);
  }

  /** The server's frame travels and is parsed. */
  lemma {:induction false} FrameDown(cfg: Config, actions: seq<Action>, p: Bytes) returns (more: seq<Action>)
    requires Execute(cfg, actions).At? && |p| <= cfg.limit && |p| < LENGTH_BOUND
    requires Execute(cfg, actions).s.net.down == Channel(Frame(p), [], [], false)
    requires !Execute(cfg, actions).s.client.CStreaming?
    ensures Execute(cfg, more).At?
    ensures var s, t := Execute(cfg, actions).s, Execute(cfg, more).s;
            && t == s.(client := ReactClient(s.client, cfg.kindOf(p)),
                       outcome := ReactOutcome(s.client, cfg.kindOf(p), s.outcome), net := t.net)
            && t.net.down == Channel([], [], [], false) && t.net.up == s.net.up
            && t.net.downGot == s.net.downGot + [p] && t.net.upGot == s.net.upGot
  {
    assert |Frame(p)| >= HEADER_SIZE && Frame(p) + [] == Frame(p);
    more := DeliverDown(cfg, actions, Frame(p));
    FirstOfFrame(p, [], cfg.limit);
    hide Execute, Frame, First;
    more := Then(cfg, more, ClientParse);
  }

  /** The request is made and accepted. */
  lemma {:induction false} Accepts(cfg: Config, t: Lines, d: Direction, stream: Bytes) returns (actions: seq<Action>)
    requires Spoken(cfg, t, d)
    ensures Execute(cfg, actions).At? && Stands(Execute(cfg, actions).s, CWaiting, SAccepted(d), d, stream, 0)
  {
    actions := Then(cfg, [], ClientRequest(t.request, stream));
    hide Execute, Frame;
    assert [] + Frame(t.request) == Frame(t.request);
    actions := FrameUp(cfg, actions, t.request);
  }

  /** Where the server is while the client has not started. */
  function Prepared(d: Direction): Server {
    if d.Upload? then SStreaming(Upload) else SAwaitGo
  }

  /** The server says ready. */
  lemma {:induction false} Readies(cfg: Config, t: Lines, d: Direction, stream: Bytes, before: seq<Action>)
    returns (actions: seq<Action>)
    requires Spoken(cfg, t, d) && Execute(cfg, before).At?
    requires Stands(Execute(cfg, before).s, CWaiting, SAccepted(d), d, stream, 0)
    ensures Execute(cfg, actions).At?
    ensures Stands(Execute(cfg, actions).s, CGotReady(d), Prepared(d), d, stream, 0)
  {
    hide Execute, Frame;
    actions := Then(cfg, before, ServerReady(t.ready));
    assert [] + Frame(t.ready) == Frame(t.ready);
    actions := FrameDown(cfg, actions, t.ready);
  }

  /** The client starts, and a download's server after it. */
  lemma {:induction false} Starts(cfg: Config, t: Lines, d: Direction, stream: Bytes, before: seq<Action>)
    returns (actions: seq<Action>)
    requires Spoken(cfg, t, d) && Execute(cfg, before).At?
    requires Stands(Execute(cfg, before).s, CGotReady(d), Prepared(d), d, stream, 0)
    ensures Execute(cfg, actions).At? && Stands(Execute(cfg, actions).s, CStreaming(d), SStreaming(d), d, stream, 0)
  {
    hide Execute, Frame;
    actions := Then(cfg, before, ClientStart(t.go));
    if d.Download? {
      assert [] + Frame(t.go) == Frame(t.go);
      actions := FrameUp(cfg, actions, t.go);
      actions := Then(cfg, actions, ServerStart);
    }
  }

  /** The whole stream is produced and consumed. */
  lemma {:induction false} Streams(cfg: Config, d: Direction, stream: Bytes, before: seq<Action>)
    returns (actions: seq<Action>)
    requires Execute(cfg, before).At?
    requires Stands(Execute(cfg, before).s, CStreaming(d), SStreaming(d), d, stream, 0)
    ensures Execute(cfg, actions).At?
    ensures Stands(Execute(cfg, actions).s, CStreaming(d), SStreaming(d), d, stream, |stream|)
  {
    hide Execute;
    assert stream[..|stream|] == stream && stream[0..|stream|] == stream && stream[..0] == [];
    actions := before;
    if stream != [] {
      actions := Then(cfg, actions, Produce(|stream|));
      assert [] + stream == stream && stream[|stream|..] == [];
      actions := Then(cfg, actions, Consume(|stream|));
    }
  }

  /** Both ends finish, and the final response comes. */
  lemma {:induction false} Ends(cfg: Config, t: Lines, d: Direction, stream: Bytes, before: seq<Action>)
    returns (actions: seq<Action>)
    requires Spoken(cfg, t, d) && Execute(cfg, before).At?
    requires Stands(Execute(cfg, before).s, CStreaming(d), SStreaming(d), d, stream, |stream|)
    ensures Execute(cfg, actions).At? && Stands(Execute(cfg, actions).s, CIdle, SIdle, d, stream, |stream|)
    ensures Execute(cfg, actions).s.outcome.Completed?
  {
    hide Execute, Frame;
    assert stream[..|stream|] == stream;
    actions := Then(cfg, before, ClientFinish);
    actions := Then(cfg, actions, ServerFinish);
    actions := Then(cfg, actions, ServerFinal(t.final));
    assert [] + Frame(t.final) == Frame(t.final);
    actions := FrameDown(cfg, actions, t.final);
  }

  /** For either direction and every stream some run ends with the transfer completed, the stream
      received, and both ends ready for another. */
  lemma {:induction false} TransferCanComplete(cfg: Config, t: Lines, d: Direction, stream: Bytes)
    returns (actions: seq<Action>)
    requires Spoken(cfg, t, d)
    ensures Execute(cfg, actions).At?
    ensures var s := Execute(cfg, actions).s;
            && s.asked == d && s.stream == stream && s.received == stream && s.outcome.Completed?
            && s.client.CIdle? && s.server.SIdle? && s.gate && !s.net.up.paused && !s.net.down.paused
  {
    hide Execute, Spoken, Prepared;
    actions := Accepts(cfg, t, d, stream);
    actions := Readies(cfg, t, d, stream, actions);
    actions := Starts(cfg, t, d, stream, actions);
    actions := Streams(cfg, d, stream, actions);
    actions := Ends(cfg, t, d, stream, actions);
    assert stream[..|stream|] == stream;
  }

  /** An ordinary frame of either end reaches the other one's reader. */
  lemma {:induction false} OrdinaryFramesArrive(cfg: Config, p: Bytes, q: Bytes) returns (actions: seq<Action>)
    requires Sendable(cfg, p, Other) && Sendable(cfg, q, Other)
    ensures Execute(cfg, actions).At?
    ensures var s := Execute(cfg, actions).s; s.net.upGot == [p] && s.net.downGot == [q]
  {
    actions := Then(cfg, [], ClientSend(p));
    hide Execute, Frame;
    assert [] + Frame(p) == Frame(p) && [] + Frame(q) == Frame(q);
    actions := FrameUp(cfg, actions, p);
    actions := Then(cfg, actions, ServerSend(q));
    actions := FrameDown(cfg, actions, q);
  }
}
