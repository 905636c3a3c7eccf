/**
 The client registry and the pump that feeds every client its next chunk
 (src/actors/client_coordinator_actor.rs), with the identity test of
 crates/visionclaw-domain/src/utils/visibility_filter.rs.

 What a mailbox answers to the frame with a given sequence number is a parameter (`Mailbox`), and so
 is the order in which a hash map hands out its keys.
 */
module ClientCoordinator {
  import opened Basics
  import opened PositionStream
  import opened StreamRounds

  type ClientId = nat

  /** The session's public key, or an anonymous session. */
  type Identity = Option<string>

  datatype Delivery = Delivered | Full | Closed
  type Mailbox = nat -> Delivery

  datatype NodeVisibility = NodeVisibility(wireId: NodeId, isPublic: bool, owner: Option<string>)

  /** The visibility switch and the last classification snapshot. */
  datatype Policy = Policy(on: bool, loaded: bool, privateNodes: seq<NodeVisibility>)

  datatype Context = Context(
    cache: map<NodeId, Point>,
    policy: Policy,
    analytics: map<NodeId, Analytics>,
    chunkNodes: nat,
    threshold: real,
    ackTimeout: nat,
    now: nat)

  datatype Client = Client(pubkey: Identity, filterOn: bool, allowed: set<NodeId>, stream: Stream)

  const FreshClient := Client(None, false, {}, FreshStream)

  datatype Frame = Frame(client: ClientId, seqNo: nat, nodes: seq<Entry>)

  datatype BroadcastResult = BroadcastResult(sent: nat, congested: seq<ClientId>, closed: seq<ClientId>)

  /** Record the outcome of handing one frame to one client. */
  function Settle(r: BroadcastResult, id: ClientId, d: Delivery): BroadcastResult {
    match d
    case Delivered => r.(sent := r.sent + 1)
    case Full => r.(congested := r.congested + [id])
    case Closed => r.(closed := r.closed + [id])
  }

  function Among(ids: set<ClientId>, mailbox: ClientId -> Delivery, d: Delivery): set<ClientId> {
    set id | id in ids && mailbox(id) == d
  }

  /** One outcome for each client that was offered something, under the heading its mailbox gave. */
  ghost predicate Accounts(r: BroadcastResult, ids: set<ClientId>, mailbox: ClientId -> Delivery) {
    && r.sent == |Among(ids, mailbox, Delivered)|
    && NoDuplicates(r.congested) && Elements(r.congested) == Among(ids, mailbox, Full)
    && NoDuplicates(r.closed) && Elements(r.closed) == Among(ids, mailbox, Closed)
  }

  lemma AmongNext(ids: set<ClientId>, mailbox: ClientId -> Delivery, id: ClientId, d: Delivery)
    ensures Among(ids + {id}, mailbox, d) == Among(ids, mailbox, d) + if mailbox(id) == d then {id} else {}
  {
  }

  lemma ListNext(list: seq<ClientId>, ids: set<ClientId>, id: ClientId)
    requires NoDuplicates(list) && Elements(list) == ids && id !in ids
    ensures NoDuplicates(list + [id]) && Elements(list + [id]) == ids + {id}
  {
    forall i | 0 <= i < |list| ensures list[i] != id {
      assert list[i] in Elements(list);
    }
  }

  lemma AccountsDelivered(r: BroadcastResult, ids: set<ClientId>, mailbox: ClientId -> Delivery, id: ClientId)
    requires Accounts(r, ids, mailbox) && id !in ids && mailbox(id) == Delivered
    ensures Accounts(r.(sent := r.sent + 1), ids + {id}, mailbox)
  {
    AmongNext(ids, mailbox, id, Delivered);
    AmongNext(ids, mailbox, id, Full);
    AmongNext(ids, mailbox, id, Closed);
  }

  lemma AccountsFull(r: BroadcastResult, ids: set<ClientId>, mailbox: ClientId -> Delivery, id: ClientId)
    requires Accounts(r, ids, mailbox) && id !in ids && mailbox(id) == Full
    ensures Accounts(r.(congested := r.congested + [id]), ids + {id}, mailbox)
  {
    AmongNext(ids, mailbox, id, Delivered);
    AmongNext(ids, mailbox, id, Full);
    AmongNext(ids, mailbox, id, Closed);
    ListNext(r.congested, Among(ids, mailbox, Full), id);
  }

  lemma AccountsClosed(r: BroadcastResult, ids: set<ClientId>, mailbox: ClientId -> Delivery, id: ClientId)
    requires Accounts(r, ids, mailbox) && id !in ids && mailbox(id) == Closed
    ensures Accounts(r.(closed := r.closed + [id]), ids + {id}, mailbox)
  {
    AmongNext(ids, mailbox, id, Delivered);
    AmongNext(ids, mailbox, id, Full);
    AmongNext(ids, mailbox, id, Closed);
    ListNext(r.closed, Among(ids, mailbox, Closed), id);
  }

  lemma AccountsNext(r: BroadcastResult, ids: set<ClientId>, mailbox: ClientId -> Delivery, id: ClientId)
    requires Accounts(r, ids, mailbox) && id !in ids
    ensures Accounts(Settle(r, id, mailbox(id)), ids + {id}, mailbox)
  {
    match mailbox(id)
    case Delivered => AccountsDelivered(r, ids, mailbox, id);
    case Full => AccountsFull(r, ids, mailbox, id);
    case Closed => AccountsClosed(r, ids, mailbox, id);
  }

  /** What the result of a pump must say: one outcome for each frame offered. */
  function SettleBatch(r: BroadcastResult, frames: seq<Frame>, mailbox: Mailbox): BroadcastResult {
    if frames == [] then r else Settle(r, frames[0].client, mailbox(frames[0].seqNo))
  }

  function SettleAll(batches: seq<seq<Frame>>, mailbox: Mailbox): BroadcastResult {
    if batches == [] then BroadcastResult(0, [], [])
    else SettleBatch(SettleAll(batches[..|batches| - 1], mailbox), batches[|batches| - 1], mailbox)
  }

  // ----- who may see what ---------------------------------------------------------------------

  /** Keep iff public or owned by the caller; everything else drops. */
  predicate IsDroppedFor(n: NodeVisibility, caller: Identity) {
    !n.isPublic && !(caller.Some? && n.owner.Some? && caller.value == n.owner.value)
  }

  function PrivateIds(nodes: seq<NodeVisibility>, caller: Identity): set<NodeId> {
    set n | n in nodes && IsDroppedFor(n, caller) :: n.wireId
  }

  /** What this identity may not see. */
  function Hidden(p: Policy, caller: Identity): set<NodeId> {
    if p.on && p.privateNodes != [] then PrivateIds(p.privateNodes, caller) else {}
  }

  predicate VisibleTo(cx: Context, c: Client, id: NodeId) {
    (!c.filterOn || id in c.allowed) && id !in Hidden(cx.policy, c.pubkey)
  }

  const NoAnalytics := Analytics(0, 0, 0, 0)

  /** What planning reads for one client. */
  function SceneFor(cx: Context, c: Client): Scene {
    Scene(cx.cache,
          (id: NodeId) => VisibleTo(cx, c, id),
          (id: NodeId) => if id in cx.analytics then cx.analytics[id] else NoAnalytics,
          cx.threshold)
  }

  // ----- one pump -----------------------------------------------------------------------------

  datatype Hub = Hub(clients: map<ClientId, Client>, seqNo: nat)

  predicate Skips(h: Hub, id: ClientId, cx: Context) {
    id !in h.clients || IsWaiting(h.clients[id].stream, cx.now, cx.ackTimeout)
  }

  /**
   A turn of a client that is not waiting: forget what may no longer be shown, then either there is
   nothing to say or one chunk is offered under the next number. Only a delivered chunk is recorded.
   */
  ghost predicate Turn(c: Client, id: ClientId, cx: Context, seqNo: nat, mailbox: Mailbox,
                       st': Stream, seqNo': nat, frames: seq<Frame>)
  {
    var sc := SceneFor(cx, c);
    var st := Pruned(c.stream, sc);
    if CandidateIds(st, sc) == {} then st' == st && seqNo' == seqNo && frames == []
    else exists ids :: Offers(sc, st, id, cx, seqNo, mailbox, ids, st', seqNo', frames)
  }

  ghost predicate Offers(sc: Scene, st: Stream, id: ClientId, cx: Context, seqNo: nat, mailbox: Mailbox,
                         ids: seq<NodeId>, st': Stream, seqNo': nat, frames: seq<Frame>)
  {
    && IsPlan(st, sc, ChunkSize(cx.chunkNodes), ids)
    && ids != []
    && Elements(ids) <= sc.cache.Keys
    && seqNo' == seqNo + 1
    && frames == [Frame(id, seqNo', Entries(sc, ids, seqNo'))]
    && st' == (if mailbox(seqNo') == Delivered then AfterSend(st, seqNo', cx.now, Entries(sc, ids, seqNo')) else st)
  }

  /** Pumping client `id` of the registry. */
  ghost predicate Pumps(h: Hub, id: ClientId, cx: Context, mailbox: Mailbox, h': Hub, frames: seq<Frame>) {
    if Skips(h, id, cx) then h' == h && frames == []
    else
      && id in h'.clients
      && Turn(h.clients[id], id, cx, h.seqNo, mailbox, h'.clients[id].stream, h'.seqNo, frames)
      && h'.clients == h.clients[id := h.clients[id].(stream := h'.clients[id].stream)]
  }

  /** Pumping the clients of `order` one after the other, `hubs[i]` being the registry before turn `i`. */
  ghost predicate PumpsAll(hubs: seq<Hub>, order: seq<ClientId>, cx: Context, mailbox: Mailbox,
                           batches: seq<seq<Frame>>) {
    && |hubs| == |order| + 1 && |batches| == |order|
    && forall i :: 0 <= i < |order| ==> Pumps(hubs[i], order[i], cx, mailbox, hubs[i + 1], batches[i])
  }

  lemma ExtendPumps(hubs: seq<Hub>, order: seq<ClientId>, cx: Context, mailbox: Mailbox, batches: seq<seq<Frame>>,
                    h: Hub, id: ClientId, frames: seq<Frame>)
    requires PumpsAll(hubs, order, cx, mailbox, batches)
    requires Pumps(hubs[|order|], id, cx, mailbox, h, frames)
    ensures PumpsAll(hubs + [h], order + [id], cx, mailbox, batches + [frames])
  {
  }

  // ----- agent actions ------------------------------------------------------------------------

  datatype AgentAction = AgentAction(source: nat, target: NodeId, kind: nat, timestamp: nat)

  /** The actions whose target is not hidden, in order. */
  function Kept(events: seq<AgentAction>, hidden: set<NodeId>): seq<AgentAction> {
    if events == [] then []
    else
      var front := Kept(events[..|events| - 1], hidden);
      if events[|events| - 1].target in hidden then front else front + [events[|events| - 1]]
  }

  /** `at` lists exactly the positions of `events` with a visible target, in order, and `kept` reads them. */
  ghost predicate Picks(events: seq<AgentAction>, hidden: set<NodeId>, at: seq<nat>, kept: seq<AgentAction>) {
    && |at| == |kept|
    && (forall i, j :: 0 <= i < j < |at| ==> at[i] < at[j])
    && (forall i :: 0 <= i < |at| ==> at[i] < |events| && kept[i] == events[at[i]] && events[at[i]].target !in hidden)
    && (forall p :: 0 <= p < |events| && events[p].target !in hidden ==> p in at)
  }

  lemma PicksStep(events: seq<AgentAction>, hidden: set<NodeId>, at: seq<nat>, kept: seq<AgentAction>, e: AgentAction)
    requires Picks(events, hidden, at, kept)
    ensures e.target in hidden ==> Picks(events + [e], hidden, at, kept)
    ensures e.target !in hidden ==> Picks(events + [e], hidden, at + [|events|], kept + [e])
  {
    var at' := at + [|events|];
    assert at'[|at|] == |events|;
    forall p | p in at ensures p in at' {
    }
  }

  /** `Kept` read position by position: exactly the visible positions, in increasing order. */
  lemma {:induction false} KeptPositions(events: seq<AgentAction>, hidden: set<NodeId>) returns (at: seq<nat>)
    ensures Picks(events, hidden, at, Kept(events, hidden))
  {
    if events == [] {
      at := [];
    } else {
      var front, e := events[..|events| - 1], events[|events| - 1];
      assert events == front + [e];
      at := KeptPositions(front, hidden);
      PicksStep(front, hidden, at, Kept(front, hidden), e);
      if e.target !in hidden {
        at := at + [|front|];
      }
    }
  }

  /** Client `id` was offered exactly the actions it may see, and no frame when there are none. */
  ghost predicate OfferedRightly(offered: map<ClientId, seq<AgentAction>>, id: ClientId, c: Client,
                                 events: seq<AgentAction>, p: Policy)
  {
    var mine := Kept(events, Hidden(p, c.pubkey));
    if mine == [] then id !in offered else id in offered && offered[id] == mine
  }

  /** Everyone in `served` was offered rightly, and nobody else anything. */
  ghost predicate AllOffered(offered: map<ClientId, seq<AgentAction>>, clients: map<ClientId, Client>,
                             served: set<ClientId>, events: seq<AgentAction>, p: Policy)
    requires served <= clients.Keys
  {
    && offered.Keys <= served
    && forall id :: id in served ==> OfferedRightly(offered, id, clients[id], events, p)
  }

  lemma OfferNext(offered: map<ClientId, seq<AgentAction>>, clients: map<ClientId, Client>, served: set<ClientId>,
                  events: seq<AgentAction>, p: Policy, id: ClientId)
    requires served <= clients.Keys && AllOffered(offered, clients, served, events, p)
    requires id in clients && id !in served
    ensures var mine := Kept(events, Hidden(p, clients[id].pubkey));
            AllOffered(if mine == [] then offered else offered[id := mine], clients, served + {id}, events, p)
  {
  }

  /** The frame of one identity, computed once and remembered. */
  method FrameFor(frames: map<Identity, seq<AgentAction>>, events: seq<AgentAction>, p: Policy, who: Identity)
    returns (frames': map<Identity, seq<AgentAction>>, frame: seq<AgentAction>)
    requires forall w :: w in frames ==> frames[w] == Kept(events, Hidden(p, w))
    ensures forall w :: w in frames' ==> frames'[w] == Kept(events, Hidden(p, w))
    ensures frame == Kept(events, Hidden(p, who))
  {
    frames' := frames;
    if who !in frames {
      var hidden := if p.on && p.privateNodes != [] then PrivateIds(p.privateNodes, who) else {};
      var kept := KeepVisible(events, hidden);
      frames' := frames[who := kept];
    }
    frame := frames'[who];
  }

  method KeepVisible(events: seq<AgentAction>, hidden: set<NodeId>) returns (kept: seq<AgentAction>)
    ensures kept == Kept(events, hidden)
  {
    kept := [];
    for i := 0 to |events|
      invariant kept == Kept(events[..i], hidden)
    {
      assert events[..i + 1][..i] == events[..i];
      if events[i].target !in hidden {
        kept := kept + [events[i]];
      }
    }
    assert events[..|events|] == events;
  }

  // ----- the object ---------------------------------------------------------------------------

  /** The memo only holds what computing the set afresh would give. */
  ghost predicate Faithful(dropSets: map<Identity, set<NodeId>>, p: Policy) {
    forall who :: who in dropSets ==> dropSets[who] == PrivateIds(p.privateNodes, who)
  }

  method LookUpHidden(dropSets: map<Identity, set<NodeId>>, p: Policy, who: Identity)
    returns (dropSets': map<Identity, set<NodeId>>, hidden: set<NodeId>)
    requires Faithful(dropSets, p)
    ensures Faithful(dropSets', p)
    ensures hidden == Hidden(p, who)
  {
    dropSets', hidden := dropSets, {};
    if p.on && p.privateNodes != [] {
      if who !in dropSets' {
        dropSets' := dropSets'[who := PrivateIds(p.privateNodes, who)];
      }
      hidden := dropSets'[who];
    }
  }

  /** Forget what may no longer be shown and plan the next chunk, both with the memoised set. */
  method PlanShown(stream: ClientStream, client: Client, cx: Context, hidden: set<NodeId>) returns (ids: seq<NodeId>)
    requires hidden == Hidden(cx.policy, client.pubkey) && stream.View() == client.stream
    modifies stream
    ensures stream.View() == Pruned(client.stream, SceneFor(cx, client))
    ensures IsPlan(stream.View(), SceneFor(cx, client), ChunkSize(cx.chunkNodes), ids)
  {
    var visible := (n: NodeId) => (!client.filterOn || n in client.allowed) && n !in hidden;
    stream.RetainNodes((n: NodeId) => n in cx.cache && visible(n));
    assert stream.View().acked == Pruned(client.stream, SceneFor(cx, client)).acked;
    var sc := SceneFor(cx, client).(visible := visible);
    ids := stream.Plan(sc, cx.chunkNodes);
    PlanCongruent(stream.View(), sc, SceneFor(cx, client), ChunkSize(cx.chunkNodes), ids);
  }

  /** The turn of one client that is not waiting. */
  method TakeTurn(client: Client, id: ClientId, cx: Context, hidden: set<NodeId>, seqNo: nat, mailbox: Mailbox,
                  result: BroadcastResult)
    returns (st': Stream, seqNo': nat, result': BroadcastResult, frames: seq<Frame>)
    requires hidden == Hidden(cx.policy, client.pubkey)
    ensures Turn(client, id, cx, seqNo, mailbox, st', seqNo', frames)
    ensures result' == SettleBatch(result, frames, mailbox)
  {
    seqNo', result', frames := seqNo, result, [];
    var sc := SceneFor(cx, client);
    var stream := new ClientStream.Of(client.stream);
    var ids := PlanShown(stream, client, cx, hidden);
    ghost var st := stream.View();
    PlanSize(st, sc, ChunkSize(cx.chunkNodes), ids);
    if ids != [] {
      seqNo' := seqNo + 1;
      var entries := Entries(sc, ids, seqNo');
      frames := [Frame(id, seqNo', entries)];
      result' := Settle(result, id, mailbox(seqNo'));
      if result'.sent > result.sent {
        stream.RecordSent(seqNo', cx.now, entries);
      }
      assert Offers(sc, st, id, cx, seqNo, mailbox, ids, stream.View(), seqNo', frames);
    }
    st' := stream.View();
  }

  function FramesTo(batches: seq<seq<Frame>>, mailbox: Mailbox, d: Delivery): seq<ClientId> {
    if batches == [] then []
    else
      var front, last := FramesTo(batches[..|batches| - 1], mailbox, d), batches[|batches| - 1];
      if last != [] && mailbox(last[0].seqNo) == d then front + [last[0].client] else front
  }

  /** A pump reports, for each frame offered, what its mailbox answered: how many went, and who was full or gone. */
  lemma {:induction false} SettledAsAnswered(batches: seq<seq<Frame>>, mailbox: Mailbox)
    ensures var r := SettleAll(batches, mailbox);
            && r.sent == |FramesTo(batches, mailbox, Delivered)|
            && r.congested == FramesTo(batches, mailbox, Full) && r.closed == FramesTo(batches, mailbox, Closed)
  {
    if batches != [] {
      SettledAsAnswered(batches[..|batches| - 1], mailbox);
    }
  }

  lemma SettleAppend(batches: seq<seq<Frame>>, frames: seq<Frame>, mailbox: Mailbox)
    ensures SettleAll(batches + [frames], mailbox) == SettleBatch(SettleAll(batches, mailbox), frames, mailbox)
  {
    assert (batches + [frames])[..|batches|] == batches;
  }

  class ClientManager {
    var clients: map<ClientId, Client>
    var nextId: nat
    var totalConnections: nat
    var activeConnections: nat

    ghost predicate Valid()
      reads this
    {
      activeConnections == |clients| && nextId >= 1 && forall id :: id in clients ==> 1 <= id < nextId
    }

    constructor ()
      ensures Valid() && clients == map[] && nextId == 1
    {
      clients, nextId, totalConnections, activeConnections := map[], 1, 0, 0;
    }

    /** A new client gets an id never used before and an empty stream. */
    method RegisterClient() returns (id: ClientId)
      requires Valid()
      modifies this
      ensures Valid() && id == old(nextId) && nextId == id + 1 && id !in old(clients)
      ensures clients == old(clients)[id := Client(None, false, {}, Stream(map[], [], 0))]
    {
      id := nextId;
      nextId := nextId + 1;
      clients := clients[id := FreshClient];
      totalConnections := totalConnections + 1;
      activeConnections := |clients|;
    }

    method UnregisterClient(id: ClientId) returns (found: bool)
      requires Valid()
      modifies this
      ensures Valid() && nextId == old(nextId) && clients == old(clients) - {id}
      ensures found <==> id in old(clients)
    {
      found := id in clients;
      if found {
        clients := clients - {id};
        activeConnections := |clients|;
      }
    }

    /** The client acknowledged chunk `seqNo`; only its own stream can change. */
    method Acknowledge(id: ClientId, seqNo: nat) returns (r: Option<nat>)
      requires Valid()
      modifies this
      ensures Valid() && nextId == old(nextId)
      ensures id !in old(clients) ==> clients == old(clients) && r == None
      ensures id in old(clients) ==>
        clients == old(clients)[id := old(clients)[id].(stream := AfterAck(old(clients)[id].stream, seqNo))]
      ensures id in old(clients) ==>
        r == match Find(old(clients)[id].stream.inFlight, seqNo) { case None => None case Some(f) => Some(|f.nodes|) }
    {
      if id !in clients {
        return None;
      }
      var stream := new ClientStream.Of(clients[id].stream);
      r := stream.Acknowledge(seqNo);
      clients := clients[id := clients[id].(stream := stream.View())];
    }

    /**
     Pump one client. `dropSets` memoises the private-node set of each identity met so far; what is
     pumped does not mention it, so the memo cannot be told from computing the set per client.
     */
    method PumpOne(id: ClientId, cx: Context, seqNo: nat, mailbox: Mailbox,
                   dropSets: map<Identity, set<NodeId>>, result: BroadcastResult)
      returns (seqNo': nat, dropSets': map<Identity, set<NodeId>>, result': BroadcastResult, frames: seq<Frame>)
      requires Valid() && Faithful(dropSets, cx.policy)
      modifies this
      ensures Valid() && nextId == old(nextId) && clients.Keys == old(clients).Keys
      ensures Faithful(dropSets', cx.policy)
      ensures Pumps(Hub(old(clients), seqNo), id, cx, mailbox, Hub(clients, seqNo'), frames)
      ensures result' == SettleBatch(result, frames, mailbox)
    {
      seqNo', dropSets', result', frames := seqNo, dropSets, result, [];
      if id !in clients || IsWaiting(clients[id].stream, cx.now, cx.ackTimeout) {
        return;
      }
      var client := clients[id];
      var hidden: set<NodeId>;
      dropSets', hidden := LookUpHidden(dropSets, cx.policy, client.pubkey);
      var st: Stream;
      st, seqNo', result', frames := TakeTurn(client, id, cx, hidden, seqNo, mailbox, result);
      clients := clients[id := client.(stream := st)];
    }

    /** Pump every client, in whatever order the registry lists them. */
    method PumpAll(cx: Context, seqNo: nat, mailbox: Mailbox)
      returns (seqNo': nat, result: BroadcastResult, batches: seq<seq<Frame>>, order: seq<ClientId>,
               ghost hubs: seq<Hub>)
      requires Valid()
      modifies this
      ensures Valid() && nextId == old(nextId)
      ensures (cx.policy.on && !cx.policy.loaded) || cx.cache == map[] || old(clients) == map[] ==>
        clients == old(clients) && seqNo' == seqNo && batches == [] && order == []
      ensures (cx.policy.on ==> cx.policy.loaded) && cx.cache != map[] && old(clients) != map[] ==>
        NoDuplicates(order) && Elements(order) == old(clients).Keys
      ensures PumpsAll(hubs, order, cx, mailbox, batches)
      ensures hubs[0] == Hub(old(clients), seqNo) && hubs[|order|] == Hub(clients, seqNo')
      ensures result == SettleAll(batches, mailbox)
    {
      seqNo', result, batches, order := seqNo, BroadcastResult(0, [], []), [], [];
      hubs := [Hub(clients, seqNo)];
      if cx.cache == map[] || clients == map[] {
        return;
      }
      if cx.policy.on && !cx.policy.loaded {
        return;
      }
      var dropSets: map<Identity, set<NodeId>> := map[];
      var todo := clients.Keys;
      while todo != {}
        invariant Valid() && nextId == old(nextId) && clients.Keys == old(clients).Keys
        invariant Serving(order, clients.Keys, todo)
        invariant Faithful(dropSets, cx.policy)
        invariant PumpsAll(hubs, order, cx, mailbox, batches) && result == SettleAll(batches, mailbox)
        invariant hubs[0] == Hub(old(clients), seqNo) && hubs[|order|] == Hub(clients, seqNo')
      {
        var id :| id in todo;
        var frames: seq<Frame>;
        seqNo', dropSets, result, frames := PumpOne(id, cx, seqNo', mailbox, dropSets, result);
        ExtendPumps(hubs, order, cx, mailbox, batches, Hub(clients, seqNo'), id, frames);
        ServeOne(order, clients.Keys, todo, id);
        todo := todo - {id};
        SettleAppend(batches, frames, mailbox);
        hubs, order, batches := hubs + [Hub(clients, seqNo')], order + [id], batches + [frames];
      }
    }

    /**
     Offer every client the agent actions it may see, as one frame; a client that may see none gets
     no frame, and nothing goes out while the policy is on but unloaded. Frames are memoised per
     identity; `offered` says what each client was offered.
     */
    method BroadcastAgentActions(events: seq<AgentAction>, policy: Policy, mailbox: ClientId -> Delivery)
      returns (result: BroadcastResult, offered: map<ClientId, seq<AgentAction>>)
      ensures policy.on && !policy.loaded ==> offered == map[]
      ensures (policy.on ==> policy.loaded) ==> AllOffered(offered, clients, clients.Keys, events, policy)
      ensures Accounts(result, offered.Keys, mailbox)
    {
      result, offered := BroadcastResult(0, [], []), map[];
      if events == [] || (policy.on && !policy.loaded) {
        return;
      }
      var frames: map<Identity, seq<AgentAction>> := map[];
      var todo := clients.Keys;
      while todo != {}
        invariant todo <= clients.Keys
        invariant forall who :: who in frames ==> frames[who] == Kept(events, Hidden(policy, who))
        invariant AllOffered(offered, clients, clients.Keys - todo, events, policy)
        invariant Accounts(result, offered.Keys, mailbox)
      {
        var id :| id in todo;
        var frame: seq<AgentAction>;
        frames, frame := FrameFor(frames, events, policy, clients[id].pubkey);
        OfferNext(offered, clients, clients.Keys - todo, events, policy, id);
        todo := todo - {id};
        assert clients.Keys - todo == clients.Keys - todo - {id} + {id};
        if frame != [] {
          AccountsNext(result, offered.Keys, mailbox, id);
          result := Settle(result, id, mailbox(id));
          ghost var before := offered.Keys;
          offered := offered[id := frame];
          assert offered.Keys == before + {id};
        }
      }
    }

    /** Pump one client after its acknowledgement. */
    method PumpClient(id: ClientId, cx: Context, seqNo: nat, mailbox: Mailbox)
      returns (seqNo': nat, result: BroadcastResult, frames: seq<Frame>)
      requires Valid()
      modifies this
      ensures Valid() && nextId == old(nextId)
      ensures (cx.policy.on && !cx.policy.loaded) || cx.cache == map[] ==>
        clients == old(clients) && seqNo' == seqNo && frames == []
      ensures (cx.policy.on ==> cx.policy.loaded) && cx.cache != map[] ==>
        Pumps(Hub(old(clients), seqNo), id, cx, mailbox, Hub(clients, seqNo'), frames)
      ensures result == SettleBatch(BroadcastResult(0, [], []), frames, mailbox)
    {
      seqNo', result, frames := seqNo, BroadcastResult(0, [], []), [];
      if cx.cache == map[] || (cx.policy.on && !cx.policy.loaded) {
        return;
      }
      var memo: map<Identity, set<NodeId>>;
      seqNo', memo, result, frames := PumpOne(id, cx, seqNo, mailbox, map[], result);
    }
  }

  /** Each of `all` but those of `todo` has had its turn, once. */
  ghost predicate Serving(order: seq<ClientId>, all: set<ClientId>, todo: set<ClientId>) {
    todo <= all && NoDuplicates(order) && Elements(order) == all - todo
  }

  lemma ServeOne(order: seq<ClientId>, all: set<ClientId>, todo: set<ClientId>, id: ClientId)
    requires Serving(order, all, todo) && id in todo
    ensures Serving(order + [id], all, todo - {id})
  {
    forall i, j | 0 <= i < j < |order + [id]| ensures (order + [id])[i] != (order + [id])[j] {
      assert order[i] in Elements(order);
    }
    assert Elements(order + [id]) == Elements(order) + {id};
  }
}
