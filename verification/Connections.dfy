/** A connection's outbound side in place, and the registry that finds it. */
module Connections {
  import opened Options
  import opened Lifecycles
  import opened WireOrder
  import B = BackChannel

  /** The writer's loop as far as it gets before it must wait for the queue or the gate. */
  function Drained(c: Conn): Conn
    decreases 2 * |c.queue| + if c.hold.Some? then 1 else 0
  {
    if !c.writing then c
    else if c.hold.Some? then (if c.gate then Drained(Write(c)) else c)
    else if c.queue == [] then c
    else Drained(Take(c))
  }

  /** The items ahead of the sentinel. */
  function BeforeStop(items: seq<Item>): seq<Item> {
    if items == [] || items[0].Stop? then [] else [items[0]] + BeforeStop(items[1..])
  }

  /** Behind an open gate the writer writes the item it holds and then, in order, every queued
      item ahead of the sentinel; the sentinel ends it. */
  lemma {:induction false} DrainWritesAll(c: Conn)
    requires c.writing && c.gate
    ensures var d := Drained(c);
            && d.hold.None?
            && d.written == c.written + (if c.hold.Some? then [c.hold.value] else []) + BeforeStop(c.queue)
            && (d.writing <==> Stop !in c.queue)
    decreases 2 * |c.queue| + if c.hold.Some? then 1 else 0
  {
    if c.hold.Some? {
      DrainWritesAll(Write(c));
    } else if c.queue != [] {
      if !c.queue[0].Stop? {
        DrainWritesAll(Take(c));
        assert c.queue == [c.queue[0]] + c.queue[1..];
      }
    }
  }

  /** Everything a writer still has ahead of it, behind what it has written and the sentinel it
      has taken. */
  function Items(c: Conn): seq<Item> {
    c.written + (if c.hold.Some? then [c.hold.value] else []) + (if c.writing then [] else [Stop]) + c.queue
  }

  lemma {:induction false} TurnKeepsItems(c: Conn)
    requires c.writing
    ensures c.hold.Some? ==> Items(Write(c)) == Items(c)
    ensures c.hold.None? && c.queue != [] ==> Items(Take(c)) == Items(c)
  {}

  /** The turns lose, repeat and reorder nothing, write nothing behind a closed gate, and leave out
      none that is possible. */
  lemma {:induction false} DrainKeepsItems(c: Conn)
    ensures var d := Drained(c);
            && d.open == c.open && d.gate == c.gate
            && (c.writing ==> Items(d) == Items(c))
            && (d.writing ==> if d.hold.None? then d.queue == [] else !d.gate)
            && (!c.gate ==>
                  && d.written == c.written
                  && (d.queue == c.queue || (c.hold.None? && c.queue != [] && d.queue == c.queue[1..])))
    decreases 2 * |c.queue| + if c.hold.Some? then 1 else 0
  {
    hide Items;
    if c.writing && c.hold.Some? && c.gate {
      TurnKeepsItems(c);
      DrainKeepsItems(Write(c));
    } else if c.writing && c.hold.None? && c.queue != [] {
      TurnKeepsItems(c);
      DrainKeepsItems(Take(c));
    }
  }

  /** The writer's loop is its own steps one by one, each when it is enabled, until neither is. */
  lemma {:induction false} DrainIsTurns(x: State, s: SessionId, drainOf: SessionId -> Drain)
    returns (turns: seq<Action>)
    requires s in x.conns
    ensures forall a :: a in turns ==> a == Takes(s) || a == Writes(s)
    ensures From(x, turns, drainOf) == At(x.(conns := x.conns[s := Drained(x.conns[s])]))
    ensures var y := x.(conns := x.conns[s := Drained(x.conns[s])]);
            !Enabled(y, Takes(s), drainOf) && !Enabled(y, Writes(s), drainOf)
    decreases 2 * |x.conns[s].queue| + if x.conns[s].hold.Some? then 1 else 0
  {
    var c := x.conns[s];
    assert x.(conns := x.conns[s := c]) == x;
    if Enabled(x, Takes(s), drainOf) || Enabled(x, Writes(s), drainOf) {
      var a := if c.hold.Some? then Writes(s) else Takes(s);
      var y := Step(x, a, drainOf);
      var rest := DrainIsTurns(y, s, drainOf);
      FromHead(x, a, rest, drainOf);
      turns := [a] + rest;
      assert y.conns[s := Drained(c)] == x.conns[s := Drained(c)];
    } else {
      turns := [];
    }
  }

  class Session {
    const id: SessionId
    var lifecycle: Lifecycle

    constructor (id: SessionId)
      ensures this.id == id && lifecycle == NONE
    {
      this.id, lifecycle := id, NONE;
    }
  }

  /** A future that somebody awaits: the frame of a transfer's go, or a dispatch in the executor. */
  class Awaited {
    var done: bool
    var cancelled: bool

    constructor ()
      ensures !done && !cancelled
    {
      done, cancelled := false, false;
    }

    /** A future that is done keeps its result. */
    method Cancel()
      modifies this
      ensures done && cancelled == (old(cancelled) || !old(done))
    {
      if !done {
        done, cancelled := true, true;
      }
    }
  }

  /** What a negotiated connection is bound to. */
  datatype Binding = Binding(protocol: B.Protocol, session: Session)

  class Connection {
    const server: Server
    var binding: Option<Binding>
    var awaitFrame: Option<Awaited>
    var inflight: set<Awaited>
    var open: bool
    var gate: bool
    var queue: seq<Item>
    var hold: Option<Item>
    var writing: bool
    var written: seq<Item>

    function Now(): Conn
      reads this
    {
      Conn(open, gate, queue, hold, writing, written)
    }

    constructor (server: Server)
      ensures Now() == NewConn() && this.server == server && binding.None? && awaitFrame.None? && inflight == {}
    {
      this.server, binding, awaitFrame, inflight := server, None, None, {};
      open, gate, queue, hold, writing, written := true, true, [], None, true, [];
    }

    method Send(data: Data)
      modifies this`queue
      ensures Now() == Queue(old(Now()), Reply(data))
    {
      queue := queue + [Reply(data)];
    }

    method EnqueueOutbound(data: Data)
      modifies this`queue
      ensures Now() == Enqueue(old(Now()), data)
    {
      if open {
        queue := queue + [Note(data)];
      }
    }

    method WriteFrameNow(data: Data)
      modifies this`written
      ensures Now() == old(Now()).(written := old(written) + [Reply(data)])
    {
      written := written + [Reply(data)];
    }

    method DrainOutbound()
      modifies this`queue, this`hold, this`writing, this`written
      ensures Now() == Drained(old(Now()))
      // behind a closed gate nothing is written, and at most one item waits in hand for it
      ensures !gate ==> written == old(written)
      ensures !gate ==> queue == old(queue) || (old(hold).None? && old(queue) != [] && queue == old(queue)[1..])
      // nothing is lost, repeated or overtaken, and no turn that was possible is left out
      ensures old(writing) ==> Items(Now()) == old(Items(Now()))
      ensures writing ==> if hold.None? then queue == [] else !gate
    {
      DrainKeepsItems(Now());
      hide Items;
      while writing
        invariant Drained(Now()) == Drained(old(Now()))
        decreases writing, 2 * |queue| + if hold.Some? then 1 else 0
      {
        if hold.None? {
          if queue == [] {
            return;
          }
          var item := queue[0];
          queue := queue[1..];
          if item.Stop? {
            writing := false;
          } else {
            hold := Some(item);
          }
        } else {
          if !gate {
            return;
          }
          written := written + [hold.value];
          hold := None;
        }
      }
    }

    /** `_close` up to the wait for the writer: after it no notification is queued, no transfer
        waits for its go, every dispatch is detached, and a bound session is closed and owns no
        subscription. */
    method Close()
      requires binding.Some? ==> binding.value.protocol.Valid()
      requires awaitFrame.Some? ==> awaitFrame.value !in inflight
      modifies this`open, this`gate, this`queue, server, inflight
      modifies if awaitFrame.Some? then {awaitFrame.value} else {}
      modifies if binding.Some? then {binding.value.session as object, binding.value.protocol} else {}
      ensures Now() == Queue(old(Now()).(open := false, gate := true), Stop)
      ensures awaitFrame.Some? ==>
                awaitFrame.value.done
                && awaitFrame.value.cancelled == (old(awaitFrame.value.cancelled) || !old(awaitFrame.value.done))
      ensures forall f :: f in inflight ==> f.done && f.cancelled == (old(f.cancelled) || !old(f.done))
      ensures binding.None? ==> server.sessions == old(server.sessions)
      ensures binding.Some? ==>
                var Binding(protocol, session) := binding.value;
                && server.sessions == old(server.sessions) - {session.id} && session.lifecycle.CLOSED?
                && protocol.Valid() && protocol.Now() == B.UnsubscribeAll(old(protocol.Now()), session.id)
    {
      Halt();
      hide B.UnsubscribeAll, B.Protocol.Valid, B.Protocol.Now;
      if binding.Some? {
        assert binding.value.protocol.Now() == old(binding.value.protocol.Now());
        Unbind(binding.value.protocol, binding.value.session);
      }
      queue := queue + [Stop];
    }

    /** `close_session` of a bound connection, once nobody can find it any more. */
    method Unbind(protocol: B.Protocol, session: Session)
      requires protocol.Valid()
      modifies server, session, protocol
      ensures server.sessions == old(server.sessions) - {session.id} && session.lifecycle.CLOSED?
      ensures protocol.Valid() && protocol.Now() == B.UnsubscribeAll(old(protocol.Now()), session.id)
    {
      server.Unregister(session.id);
      session.lifecycle := CLOSED;
      var removed := protocol.RemoveAllOf(session.id);
    }

    /** Marks the connection closed, releases its writer and lets go of whatever it awaits. */
    method Halt()
      requires awaitFrame.Some? ==> awaitFrame.value !in inflight
      modifies this`open, this`gate, inflight, if awaitFrame.Some? then {awaitFrame.value} else {}
      ensures !open && gate
      ensures awaitFrame.Some? ==>
                awaitFrame.value.done
                && awaitFrame.value.cancelled == (old(awaitFrame.value.cancelled) || !old(awaitFrame.value.done))
      ensures forall f :: f in inflight ==> f.done && f.cancelled == (old(f.cancelled) || !old(f.done))
    {
      open, gate := false, true;
      if awaitFrame.Some? {
        awaitFrame.value.Cancel();
      }
      CancelInflight();
    }

    method CancelInflight()
      modifies inflight
      ensures forall f :: f in inflight ==> f.done && f.cancelled == (old(f.cancelled) || !old(f.done))
    {
      var todo := inflight;
      while todo != {}
        invariant todo <= inflight
        invariant forall f :: f in inflight - todo ==> f.done && f.cancelled == (old(f.cancelled) || !old(f.done))
        invariant forall f :: f in todo ==> f.done == old(f.done) && f.cancelled == old(f.cancelled)
        modifies inflight
        decreases todo
      {
        var f :| f in todo;
        f.Cancel();
        todo := todo - {f};
      }
    }
  }

  class Server {
    var sessions: map<SessionId, Connection>

    constructor ()
      ensures sessions == map[]
    {
      sessions := map[];
    }

    method Register(session: SessionId, conn: Connection)
      modifies this
      ensures sessions == old(sessions)[session := conn]
    {
      sessions := sessions[session := conn];
    }

    method Unregister(session: SessionId)
      modifies this
      ensures sessions == old(sessions) - {session}
    {
      sessions := sessions - {session};
    }

    method ConnFor(session: SessionId) returns (conn: Option<Connection>)
      ensures conn == if session in sessions then Some(sessions[session]) else None
    {
      conn := if session in sessions then Some(sessions[session]) else None;
    }
  }
}
