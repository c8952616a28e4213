/** Results that span the modules: what the wire shows of the outbound queue, and what must have
    happened before a protected method runs. */
module Guarantees {
  import opened Options
  import opened Filters
  import opened Delivery
  import Auth
  import AuthProofs
  import AuthSafety
  import Dispatch
  import Dialogues

  /** In every interleaving of the protocol's locked blocks, its drain thread and the connections,
      a session's connection writes its messages in the order in which they were enqueued, each
      at most once, and while the connection is open only the queue, the drain thread, the event
      loop and the connection's own queue hold any back. */
  lemma {:induction false} WrittenInEnqueueOrder(
    actions: seq<Action>, drainOf: SessionId -> W.Drain, d: W.Drain, s: SessionId)
    returns (places: seq<nat>)
    requires Execute(actions, drainOf, d).At?
    requires s in Execute(actions, drainOf, d).st.x.conns && drainOf(s) == d
    ensures var st := Execute(actions, drainOf, d).st;
            var log, conn := st.run.log, st.x.conns[s];
            var written := W.Notes(conn.written);
            && Increasing(places) && Indexes(places, |log|) && |places| == |written|
            && (forall i :: 0 <= i < |places| ==> log[places[i]].session == s && log[places[i]].data == written[i])
            && (conn.open ==>
                  Payloads(Filter(st.run.out, ForSession(s))) ==
                  written + W.Held(conn.hold) + W.Notes(conn.queue) + W.Posted(st.x.loop, s)
                  + W.InHand(W.HandOf(st.x, d), s))
  {
    var st := Execute(actions, drainOf, d).st;
    RunKeeps(actions, drainOf, d);
    assert s in Bound(st.x, drainOf, d);
    W.WrittenIsPrefixOfPolled(st.hops, drainOf, s);
    BackChannelSafety.OutboundIsConserved(st.steps);
    places := WrittenPlaces(st.run.log, st.run.delivered, st.run.queued, st.run.out, s, W.Notes(st.x.conns[s].written));
  }

  lemma {:induction false} WrittenPlaces(
    log: seq<B.Entry>, delivered: seq<nat>, queued: seq<nat>, out: seq<B.Entry>, s: SessionId, written: seq<B.Payload>)
    returns (places: seq<nat>)
    requires Indexes(delivered, |log|) && out == Pick(log, delivered) && Increasing(delivered + queued)
    requires written <= Payloads(Filter(out, ForSession(s)))
    ensures Increasing(places) && Indexes(places, |log|) && |places| == |written|
    ensures forall i :: 0 <= i < |places| ==> log[places[i]].session == s && log[places[i]].data == written[i]
  {
    var all := Filter(delivered, KeepAt(log, ForSession(s)));
    IncreasingApart(delivered, queued);
    FilterPicked(log, delivered, ForSession(s));
    FilterIncreasing(delivered, KeepAt(log, ForSession(s)));
    places := all[..|written|];
    forall i | 0 <= i < |places|
      ensures places[i] < |log| && log[places[i]].session == s && log[places[i]].data == written[i]
    {
      assert all[i] in all;
      assert Pick(log, all)[i] == log[all[i]];
    }
  }

  /** With the stack installed, over every dialogue on a session, a method that is not `pre_auth`
      runs, negotiates or gets a subscription only for an identity that a verifier accepted in
      the session's last attempt, with its second factor if one was demanded. */
  lemma {:induction false} OnlyTheAuthenticatedAreServed(
    c: Dispatch.Config, requirements: AuthProofs.Requirements, peer: Option<Auth.Peer>,
    moves: seq<Dialogues.Move>, n: nat, e: Dispatch.Effect)
    requires Dialogues.Installed(c) && Dialogues.StackedDialogue(requirements, peer, moves) && n < |moves|
    requires e in Dispatch.EffectsAt(c, Dialogues.Turns(moves), n) && (e.Handled? || e.Subscribed? || e.Negotiated?)
    requires !c.methods[moves[n].turn.w.target.value.name].preAuth
    ensures Dialogues.AllDecodable(Dialogues.Controls(moves[..n]))
    ensures var h := AuthProofs.After(requirements, peer, Dialogues.Controls(moves[..n]));
            h.session.lifecycle.ESTABLISHED? && AuthProofs.EarnedIdentity(h.attempt, h.start, h.session.internal)
  {
    hide Dispatch.LifecycleAfter, AuthProofs.After, Dialogues.Stacked, Dialogues.Controls;
    var turns := Dialogues.Turns(moves);
    Dialogues.Prefix(requirements, peer, moves, n);
    Dialogues.LifecyclesAgree(c, requirements, peer, moves[..n]);
    assert turns[..n] == Dialogues.Turns(moves[..n]);
    Dispatch.GateHolds(c, Dispatch.LifecycleOf(c, turns[..n]), turns[n].w, turns[n].a, e);
    AuthSafety.EstablishedByVerifier(requirements, peer, Dialogues.Controls(moves[..n]));
  }
}
