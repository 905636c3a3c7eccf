/**
 Every client of the registry has a connection of its own, and what the registry does to the client's
 stream are steps of that connection: whatever is proved about one connection holds for every client of
 every run of the coordinator (src/actors/client_coordinator_actor.rs:345-373, 506-636, 949-981).
 */
module ClientLinks {
  import opened Basics
  import opened PositionStream
  import opened StreamRounds
  import opened ClientCoordinator
  import opened ClientIsolation
  import L = StreamLink

  // ----- one turn -----------------------------------------------------------------------------

  function ShownBy(sc: Scene): NodeId -> bool {
    (n: NodeId) => n in sc.cache && sc.visible(n)
  }

  predicate Handed(frames: seq<Frame>, mailbox: Mailbox) {
    frames != [] && mailbox(frames[0].seqNo) == Delivered
  }

  /** What a turn is on the connection: forget what is not shown, and send the chunk that was handed over. */
  function TurnSteps(sc: Scene, now: nat, frames: seq<Frame>, mailbox: Mailbox): seq<L.Step> {
    if Handed(frames, mailbox) then [L.Forget(ShownBy(sc)), L.Send(frames[0].seqNo, now, frames[0].nodes)]
    else [L.Forget(ShownBy(sc))]
  }

  function AfterTurn(l: L.Link, st': Stream, frames: seq<Frame>, mailbox: Mailbox): L.Link {
    if Handed(frames, mailbox) then
      l.(server := st', sent := l.sent[frames[0].seqNo := frames[0].nodes], lastSeq := frames[0].seqNo)
    else l.(server := st')
  }

  lemma ForgetStep(l: L.Link, sc: Scene)
    ensures L.Enabled(l, L.Forget(ShownBy(sc)))
    ensures L.Next(l, L.Forget(ShownBy(sc))) == l.(server := Pruned(l.server, sc))
  {
    assert AfterRetain(l.server, ShownBy(sc)).acked == Pruned(l.server, sc).acked;
  }

  lemma SendStep(l: L.Link, sc: Scene, ids: seq<NodeId>, seqNo: nat, now: nat)
    requires l.lastSeq < seqNo && NoDuplicates(ids) && Elements(ids) <= sc.cache.Keys
    ensures L.Enabled(l, L.Send(seqNo, now, Entries(sc, ids, seqNo)))
  {
  }

  lemma OneStep(l: L.Link, a: L.Step)
    requires L.Enabled(l, a)
    ensures L.Chain(l, [a], L.Next(l, a))
  {
    assert [a][1..] == [];
  }

  lemma TwoSteps(l: L.Link, a: L.Step, b: L.Step)
    requires L.Enabled(l, a) && L.Enabled(L.Next(l, a), b)
    ensures L.Chain(l, [a, b], L.Next(L.Next(l, a), b))
  {
    assert [a, b][1..] == [b];
    OneStep(L.Next(l, a), b);
  }

  /** A turn is a forgetting step and, when the chunk is handed over, an enabled send of that chunk. */
  lemma TurnIsLinkSteps(l: L.Link, c: Client, id: ClientId, cx: Context, seqNo: nat, mailbox: Mailbox,
                        st': Stream, seqNo': nat, frames: seq<Frame>)
    requires Turn(c, id, cx, seqNo, mailbox, st', seqNo', frames)
    requires l.server == c.stream && l.lastSeq <= seqNo
    ensures L.Chain(l, TurnSteps(SceneFor(cx, c), cx.now, frames, mailbox), AfterTurn(l, st', frames, mailbox))
    ensures AfterTurn(l, st', frames, mailbox).lastSeq <= seqNo'
  {
    var sc := SceneFor(cx, c);
    var forget := L.Forget(ShownBy(sc));
    ForgetStep(l, sc);
    if Handed(frames, mailbox) {
      var ids :| Offers(sc, Pruned(c.stream, sc), id, cx, seqNo, mailbox, ids, st', seqNo', frames);
      SendStep(L.Next(l, forget), sc, ids, seqNo', cx.now);
      TwoSteps(l, forget, L.Send(seqNo', cx.now, frames[0].nodes));
    } else {
      OneStep(l, forget);
    }
  }

  // ----- the registry with its connections ----------------------------------------------------

  /** The registry, and for each client what was handed to it, what arrived and what it holds. */
  datatype Wired = Wired(reg: Registry, links: map<ClientId, L.Link>)

  const FreshWired := Wired(FreshRegistry, map[])

  datatype Event =
    | Server(action: Action)
    | Receive(id: ClientId, seqNo: nat)

  function LinksAfter(w: Wired, a: Action, r': Registry, frames: seq<Frame>): map<ClientId, L.Link> {
    match a
    case Join => w.links[w.reg.nextId := L.FreshLink]
    case Leave(id) => w.links - {id}
    case Configure(_, _, _, _) => w.links
    case Pump(id, cx, mailbox) =>
      if Skips(w.reg.hub, id, cx) || id !in w.links || id !in r'.hub.clients then w.links
      else w.links[id := AfterTurn(w.links[id], r'.hub.clients[id].stream, frames, mailbox)]
    case Ack(id, seqNo) =>
      if id !in w.links then w.links else w.links[id := L.Next(w.links[id], L.Ack(seqNo))]
  }

  /** The registry acts, or a chunk handed over arrives; an acknowledgement in flight is of a chunk that arrived. */
  ghost predicate Happens(w: Wired, e: Event, w': Wired) {
    match e
    case Server(a) =>
      && (a.Ack? && a.id in w.links ==> L.Enabled(w.links[a.id], L.Ack(a.seqNo)))
      && exists frames :: Acts(w.reg, a, w'.reg, frames) && w'.links == LinksAfter(w, a, w'.reg, frames)
    case Receive(id, seqNo) =>
      && id in w.links && L.Enabled(w.links[id], L.Deliver(seqNo))
      && w' == w.(links := w.links[id := L.Next(w.links[id], L.Deliver(seqNo))])
  }

  ghost predicate LinkOk(w: Wired, id: ClientId) {
    id in w.reg.hub.clients ==>
      && id in w.links && L.Reached(w.links[id])
      && w.links[id].server == w.reg.hub.clients[id].stream && w.links[id].lastSeq <= w.reg.hub.seqNo
  }

  /** Every client's stream is the server's end of a connection that some run of link steps reaches. */
  ghost predicate AllLinked(w: Wired) {
    && w.links.Keys == w.reg.hub.clients.Keys
    && forall id {:trigger LinkOk(w, id)} :: LinkOk(w, id)
  }

  lemma PumpKeepsLinks(w: Wired, a: Action, w': Wired, frames: seq<Frame>)
    requires AllLinked(w) && a.Pump? && Acts(w.reg, a, w'.reg, frames) && w'.links == LinksAfter(w, a, w'.reg, frames)
    ensures AllLinked(w')
  {
    if !Skips(w.reg.hub, a.id, a.cx) {
      assert LinkOk(w, a.id);
      var l, c, st' := w.links[a.id], w.reg.hub.clients[a.id], w'.reg.hub.clients[a.id].stream;
      TurnIsLinkSteps(l, c, a.id, a.cx, w.reg.hub.seqNo, a.mailbox, st', w'.reg.hub.seqNo, frames);
      L.ReachChain(l, TurnSteps(SceneFor(a.cx, c), a.cx.now, frames, a.mailbox), w'.links[a.id]);
      TurnCounts(c, a.id, a.cx, w.reg.hub.seqNo, a.mailbox, st', w'.reg.hub.seqNo, frames);
    }
    forall id ensures LinkOk(w', id) {
      assert LinkOk(w, id);
    }
  }

  lemma TurnCounts(c: Client, id: ClientId, cx: Context, seqNo: nat, mailbox: Mailbox,
                   st': Stream, seqNo': nat, frames: seq<Frame>)
    requires Turn(c, id, cx, seqNo, mailbox, st', seqNo', frames)
    ensures seqNo <= seqNo'
  {
  }

  lemma AckKeepsLinks(w: Wired, a: Action, w': Wired)
    requires AllLinked(w) && a.Ack? && Acts(w.reg, a, w'.reg, []) && w'.links == LinksAfter(w, a, w'.reg, [])
    requires a.id in w.links ==> L.Enabled(w.links[a.id], L.Ack(a.seqNo))
    ensures AllLinked(w')
  {
    assert LinkOk(w, a.id);
    if a.id in w.links {
      L.ReachStep(w.links[a.id], L.Ack(a.seqNo));
    }
    forall id ensures LinkOk(w', id) {
      assert LinkOk(w, id);
    }
  }

  lemma ServerKeepsLinks(w: Wired, a: Action, w': Wired, frames: seq<Frame>)
    requires AllLinked(w) && Acts(w.reg, a, w'.reg, frames) && w'.links == LinksAfter(w, a, w'.reg, frames)
    requires a.Ack? && a.id in w.links ==> L.Enabled(w.links[a.id], L.Ack(a.seqNo))
    ensures AllLinked(w')
  {
    if a.Pump? {
      PumpKeepsLinks(w, a, w', frames);
    } else if a.Ack? {
      AckKeepsLinks(w, a, w');
    } else {
      L.ReachFresh();
      forall id ensures LinkOk(w', id) {
        assert LinkOk(w, id);
      }
    }
  }

  lemma HappensKeepsLinks(w: Wired, e: Event, w': Wired)
    requires AllLinked(w) && Happens(w, e, w')
    ensures AllLinked(w')
  {
    if e.Server? {
      var frames :| Acts(w.reg, e.action, w'.reg, frames) && w'.links == LinksAfter(w, e.action, w'.reg, frames);
      ServerKeepsLinks(w, e.action, w', frames);
    } else {
      assert LinkOk(w, e.id);
      L.ReachStep(w.links[e.id], L.Deliver(e.seqNo));
      forall id ensures LinkOk(w', id) {
        assert LinkOk(w, id);
      }
    }
  }

  ghost predicate IsWiredRun(states: seq<Wired>, events: seq<Event>) {
    && |states| == |events| + 1 && states[0] == FreshWired
    && forall i :: 0 <= i < |events| ==> Happens(states[i], events[i], states[i + 1])
  }

  /** At every point of every run of the coordinator, every client has its connection. */
  lemma {:induction false} EveryClientIsLinked(states: seq<Wired>, events: seq<Event>, n: nat)
    requires IsWiredRun(states, events) && n <= |events|
    ensures AllLinked(states[n])
  {
    if n > 0 {
      EveryClientIsLinked(states, events, n - 1);
      assert Happens(states[n - 1], events[n - 1], states[n - 1 + 1]);
      HappensKeepsLinks(states[n - 1], events[n - 1], states[n]);
    }
  }

  /** Belief is sound for every client: it holds what the server believes, or something newer. */
  lemma EveryBeliefIsSound(states: seq<Wired>, events: seq<Event>, n: nat, id: ClientId, node: NodeId)
    requires IsWiredRun(states, events) && n <= |events|
    requires id in states[n].reg.hub.clients && node in states[n].reg.hub.clients[id].stream.acked
    ensures id in states[n].links && node in states[n].links[id].holds
    ensures var believed, held := states[n].reg.hub.clients[id].stream.acked[node], states[n].links[id].holds[node];
            held == believed || held.seqNo > believed.seqNo
  {
    EveryClientIsLinked(states, events, n);
    assert LinkOk(states[n], id);
    L.ReachedInv(states[n].links[id]);
    L.SameRecord(states[n].links[id], node);
  }
}
