/**
 What the shared registry guarantees each of its clients, over any interleaving of connections,
 disconnections, identity and filter changes, pumps and acknowledgements
 (src/actors/client_coordinator_actor.rs:345-373, 506-636, 949-981).
 */
module ClientIsolation {
  import opened Basics
  import opened PositionStream
  import opened StreamRounds
  import opened ClientCoordinator
  import L = StreamLink

  // ----- one turn -----------------------------------------------------------------------------

  /**
   What a client may be told about: with its own filter on, the nodes it allows; with the policy on, every
   node but those recorded as private by anybody else than the session's own identity.
   */
  ghost predicate MayKnow(cx: Context, c: Client, id: NodeId) {
    && (c.filterOn ==> id in c.allowed)
    && (cx.policy.on ==> forall n :: n in cx.policy.privateNodes && n.wireId == id ==>
          n.isPublic || (n.owner.Some? && c.pubkey == n.owner))
  }

  /** The visibility test of a turn says exactly that. */
  lemma VisibleIffMayKnow(cx: Context, c: Client, id: NodeId)
    ensures VisibleTo(cx, c, id) <==> MayKnow(cx, c, id)
    ensures id in Hidden(cx.policy, c.pubkey) <==> !MayKnow(cx, c.(filterOn := false), id)
  {
    if id in Hidden(cx.policy, c.pubkey) {
      var n :| n in cx.policy.privateNodes && IsDroppedFor(n, c.pubkey) && n.wireId == id;
    } else if cx.policy.on {
      forall n | n in cx.policy.privateNodes && n.wireId == id ensures !IsDroppedFor(n, c.pubkey) {
        assert IsDroppedFor(n, c.pubkey) ==> n.wireId in PrivateIds(cx.policy.privateNodes, c.pubkey);
      }
    }
  }

  /** A frame carries only cached nodes, as they are now, and only those this client may be told about. */
  lemma FrameShowsOnlyVisible(c: Client, id: ClientId, cx: Context, seqNo: nat, mailbox: Mailbox,
                              st': Stream, seqNo': nat, frames: seq<Frame>, f: Frame, e: Entry)
    requires Turn(c, id, cx, seqNo, mailbox, st', seqNo', frames) && f in frames && e in f.nodes
    ensures f.client == id && f.seqNo == seqNo + 1
    ensures c.filterOn ==> e.id in c.allowed
    ensures e.id in cx.cache && MayKnow(cx, c, e.id)
    ensures e.held == Held(cx.cache[e.id], AnalyticsOf(cx, e.id), f.seqNo)
  {
    var sc := SceneFor(cx, c);
    var ids :| Offers(sc, Pruned(c.stream, sc), id, cx, seqNo, mailbox, ids, st', seqNo', frames);
    assert f == frames[0];
    var i :| 0 <= i < |f.nodes| && f.nodes[i] == e;
    assert e.id == ids[i] && e.id in ids;
    assert e.id in CandidateIds(Pruned(c.stream, sc), sc);
    VisibleIffMayKnow(cx, c, e.id);
  }

  /** The analytics of a node, or none. */
  function AnalyticsOf(cx: Context, id: NodeId): Analytics {
    if id in cx.analytics then cx.analytics[id] else Analytics(0, 0, 0, 0)
  }

  /** The client acknowledged the node with its present analytics and no farther off than the threshold. */
  ghost predicate IsUpToDate(cx: Context, c: Client, id: NodeId)
    requires id in cx.cache
  {
    && id in c.stream.acked && c.stream.acked[id].key == AnalyticsOf(cx, id)
    && (var d2 := Dist2(cx.cache[id], c.stream.acked[id].pos); d2 <= cx.threshold * cx.threshold || d2 <= 0.0)
  }

  /** What a turn weighs up: exactly the cached nodes this client may be told about and is not up to date on. */
  lemma TurnCandidates(cx: Context, c: Client, id: NodeId)
    ensures id in CandidateIds(Pruned(c.stream, SceneFor(cx, c)), SceneFor(cx, c)) <==>
              id in cx.cache && MayKnow(cx, c, id) && !IsUpToDate(cx, c, id)
  {
    VisibleIffMayKnow(cx, c, id);
    PruneKeepsCandidates(c.stream, SceneFor(cx, c));
  }

  /** A turn says nothing exactly when the client is up to date on all it may be told about. */
  lemma TurnSilentIff(c: Client, id: ClientId, cx: Context, seqNo: nat, mailbox: Mailbox,
                      st': Stream, seqNo': nat, frames: seq<Frame>)
    requires Turn(c, id, cx, seqNo, mailbox, st', seqNo', frames)
    ensures frames == [] <==> forall x :: x in cx.cache && MayKnow(cx, c, x) ==> IsUpToDate(cx, c, x)
  {
    var sc := SceneFor(cx, c);
    forall x ensures x in CandidateIds(Pruned(c.stream, sc), sc)
                 <==> x in cx.cache && MayKnow(cx, c, x) && !IsUpToDate(cx, c, x) {
      TurnCandidates(cx, c, x);
    }
  }

  /**
   A turn forgets what the client may be told no more and what left the graph, and that only; whatever was
   forgotten is news again when it may be told again.
   */
  lemma TurnForgets(c: Client, id: ClientId, cx: Context, seqNo: nat, mailbox: Mailbox,
                    st': Stream, seqNo': nat, frames: seq<Frame>, x: NodeId)
    requires Turn(c, id, cx, seqNo, mailbox, st', seqNo', frames)
    ensures x in st'.acked <==> x in c.stream.acked && x in cx.cache && MayKnow(cx, c, x)
    ensures x in st'.acked ==> st'.acked[x] == c.stream.acked[x]
  {
    VisibleIffMayKnow(cx, c, x);
  }

  lemma ForgottenIsNews(cx: Context, c: Client, x: NodeId)
    requires x in cx.cache && MayKnow(cx, c, x) && x !in c.stream.acked
    ensures x in CandidateIds(Pruned(c.stream, SceneFor(cx, c)), SceneFor(cx, c))
  {
    TurnCandidates(cx, c, x);
  }

  /** What a turn has to say to this client. */
  ghost function News(cx: Context, c: Client): set<NodeId> {
    set x | x in cx.cache && MayKnow(cx, c, x) && !IsUpToDate(cx, c, x)
  }

  /** A frame is as full as the news and the chunk size allow, a size of zero counting as one. */
  lemma FrameIsFull(c: Client, id: ClientId, cx: Context, seqNo: nat, mailbox: Mailbox,
                    st': Stream, seqNo': nat, frames: seq<Frame>)
    requires Turn(c, id, cx, seqNo, mailbox, st', seqNo', frames) && frames != []
    ensures |frames| == 1 && |frames[0].nodes| == Min(if cx.chunkNodes == 0 then 1 else cx.chunkNodes, |News(cx, c)|)
    ensures forall i, j :: 0 <= i < j < |frames[0].nodes| ==> frames[0].nodes[i].id != frames[0].nodes[j].id
  {
    var sc := SceneFor(cx, c);
    var st := Pruned(c.stream, sc);
    var ids :| Offers(sc, st, id, cx, seqNo, mailbox, ids, st', seqNo', frames);
    PlanSize(st, sc, ChunkSize(cx.chunkNodes), ids);
    forall x ensures x in CandidateIds(st, sc) <==> x in News(cx, c) {
      TurnCandidates(cx, c, x);
    }
    assert CandidateIds(st, sc) == News(cx, c);
  }

  /** A pump leaves a client alone for as long as its last chunk may still be answered, and not longer. */
  lemma PumpedUnlessWaiting(h: Hub, id: ClientId, cx: Context, mailbox: Mailbox, h': Hub, frames: seq<Frame>)
    requires Pumps(h, id, cx, mailbox, h', frames) && id in h.clients && cx.ackTimeout > 0
    ensures var st := h.clients[id].stream;
            var waits := st.inFlight != [] &&
              cx.now < st.inFlight[|st.inFlight| - 1].sentAt + Doubled(cx.ackTimeout, Min(st.timeouts, 3));
            && (waits ==> h' == h && frames == [])
            && (!waits ==>
                  && id in h'.clients
                  && Turn(h.clients[id], id, cx, h.seqNo, mailbox, h'.clients[id].stream, h'.seqNo, frames))
  {
    WaitsUntil(h.clients[id].stream, cx.now, cx.ackTimeout);
  }

  /** With the policy on, a private node reaches no session but its owner's. */
  lemma PrivateNodeStaysPrivate(c: Client, id: ClientId, cx: Context, seqNo: nat, mailbox: Mailbox,
                                st': Stream, seqNo': nat, frames: seq<Frame>, n: NodeVisibility)
    requires Turn(c, id, cx, seqNo, mailbox, st', seqNo', frames)
    requires cx.policy.on && n in cx.policy.privateNodes && !n.isPublic
    requires c.pubkey == None || n.owner == None || c.pubkey != n.owner
    ensures forall f, e :: f in frames && e in f.nodes ==> e.id != n.wireId
  {
    forall f, e | f in frames && e in f.nodes ensures e.id != n.wireId {
      FrameShowsOnlyVisible(c, id, cx, seqNo, mailbox, st', seqNo', frames, f, e);
    }
  }

  /** Forgetting twice is forgetting once. */
  lemma PruneTwice(st: Stream, sc: Scene)
    ensures Pruned(Pruned(st, sc), sc) == Pruned(st, sc)
  {
    assert Pruned(Pruned(st, sc), sc).acked == Pruned(st, sc).acked;
  }

  /**
   A chunk the mailbox refuses leaves the client's in-flight list, backoff and candidates as they
   were, and the very same chunk is planned again.
   */
  lemma UndeliveredChangesNothing(c: Client, id: ClientId, cx: Context, seqNo: nat, mailbox: Mailbox,
                                  st': Stream, seqNo': nat, frames: seq<Frame>, ids: seq<NodeId>)
    requires Turn(c, id, cx, seqNo, mailbox, st', seqNo', frames)
    requires frames != [] && mailbox(frames[0].seqNo) != Delivered
    ensures st'.inFlight == c.stream.inFlight && st'.timeouts == c.stream.timeouts
    ensures CandidateIds(st', SceneFor(cx, c)) == CandidateIds(c.stream, SceneFor(cx, c))
    ensures IsPlan(Pruned(st', SceneFor(cx, c)), SceneFor(cx, c), ChunkSize(cx.chunkNodes), ids) <==>
            IsPlan(Pruned(c.stream, SceneFor(cx, c)), SceneFor(cx, c), ChunkSize(cx.chunkNodes), ids)
  {
    var sc := SceneFor(cx, c);
    PruneTwice(c.stream, sc);
    PruneKeepsCandidates(c.stream, sc);
  }

  /** The chunk numbers of a stream are bounded, in order, and at most eight are in flight. */
  ghost predicate Tidy(st: Stream, n: nat) {
    && (forall id :: id in st.acked ==> st.acked[id].seqNo <= n)
    && (forall f :: f in st.inFlight ==> f.seqNo <= n && forall e :: e in f.nodes ==> e.held.seqNo <= n)
    && L.Increasing(st.inFlight)
    && |st.inFlight| <= IN_FLIGHT_HISTORY
  }

  /** What a turn can do to a stream: at most one new chunk, under the one new number. */
  ghost predicate TurnEffect(st: Stream, id: ClientId, seqNo: nat, st': Stream, seqNo': nat, frames: seq<Frame>) {
    && Tidy(st', seqNo')
    && (forall f :: f in st'.inFlight ==> f in st.inFlight || f.seqNo > seqNo)
    && seqNo' == seqNo + |frames|
    && |frames| <= 1
    && (frames != [] ==> frames[0].client == id && frames[0].seqNo == seqNo')
  }

  lemma SendEffect(st: Stream, n: nat, now: nat, es: seq<Entry>)
    requires Tidy(st, n) && forall e :: e in es ==> e.held.seqNo <= n + 1
    ensures Tidy(AfterSend(st, n + 1, now, es), n + 1)
    ensures forall f :: f in AfterSend(st, n + 1, now, es).inFlight ==> f in st.inFlight || f.seqNo > n
  {
    var fs := AfterSend(st, n + 1, now, es).inFlight;
    forall f | f in fs ensures f in st.inFlight || f == InFlight(n + 1, now, es) {
    }
  }

  lemma TurnHasEffect(c: Client, id: ClientId, cx: Context, seqNo: nat, mailbox: Mailbox,
                      st': Stream, seqNo': nat, frames: seq<Frame>)
    requires Turn(c, id, cx, seqNo, mailbox, st', seqNo', frames) && Tidy(c.stream, seqNo)
    ensures TurnEffect(c.stream, id, seqNo, st', seqNo', frames)
  {
    var sc := SceneFor(cx, c);
    var p := Pruned(c.stream, sc);
    assert Tidy(p, seqNo);
    if CandidateIds(p, sc) != {} {
      var ids :| Offers(sc, p, id, cx, seqNo, mailbox, ids, st', seqNo', frames);
      SendEffect(p, seqNo, cx.now, Entries(sc, ids, seqNo'));
    }
  }

  // ----- whole runs ---------------------------------------------------------------------------

  datatype Registry = Registry(hub: Hub, nextId: nat)

  const FreshRegistry := Registry(Hub(map[], 0), 1)

  datatype Action =
    | Join
    | Leave(id: ClientId)
    | Configure(id: ClientId, pubkey: Identity, filterOn: bool, allowed: set<NodeId>)
    | Pump(id: ClientId, cx: Context, mailbox: Mailbox)
    | Ack(id: ClientId, seqNo: nat)

  function Replaced(r: Registry, id: ClientId, client: Client): Registry {
    r.(hub := r.hub.(clients := r.hub.clients[id := client]))
  }

  ghost predicate Acts(r: Registry, a: Action, r': Registry, frames: seq<Frame>) {
    match a
    case Join =>
      r' == Registry(r.hub.(clients := r.hub.clients[r.nextId := FreshClient]), r.nextId + 1) && frames == []
    case Leave(id) =>
      r' == r.(hub := r.hub.(clients := r.hub.clients - {id})) && frames == []
    case Configure(id, pubkey, filterOn, allowed) =>
      && frames == []
      && r' == if id !in r.hub.clients then r
               else Replaced(r, id, Client(pubkey, filterOn, allowed, r.hub.clients[id].stream))
    case Pump(id, cx, mailbox) =>
      Pumps(r.hub, id, cx, mailbox, r'.hub, frames) && r'.nextId == r.nextId
    case Ack(id, seqNo) =>
      && frames == []
      && r' == if id !in r.hub.clients then r
               else Replaced(r, id, r.hub.clients[id].(stream := AfterAck(r.hub.clients[id].stream, seqNo)))
  }

  /** No chunk number is in flight for two clients. */
  ghost predicate Disjoint(a: Stream, b: Stream) {
    forall f, g :: f in a.inFlight && g in b.inFlight ==> f.seqNo != g.seqNo
  }

  ghost predicate Sound(r: Registry) {
    && (forall id :: id in r.hub.clients ==> id < r.nextId && Tidy(r.hub.clients[id].stream, r.hub.seqNo))
    && (forall a, b :: a in r.hub.clients && b in r.hub.clients && a != b
          ==> Disjoint(r.hub.clients[a].stream, r.hub.clients[b].stream))
  }

  lemma TidyMonotone(st: Stream, n: nat, m: nat)
    requires Tidy(st, n) && n <= m
    ensures Tidy(st, m)
  {
  }

  /** Two clients after one of them, or neither, got a stream whose chunks are its old ones or new. */
  lemma StayDisjoint(a: Stream, a': Stream, b: Stream, n: nat)
    requires Disjoint(a, b) && Tidy(b, n)
    requires forall f :: f in a'.inFlight ==> f in a.inFlight || f.seqNo > n
    ensures Disjoint(a', b) && Disjoint(b, a')
  {
  }

  /** Replacing one client's stream by one whose chunks are its old ones or new is sound. */
  lemma ReplaceKeepsSound(r: Registry, id: ClientId, c: Client, seqNo': nat)
    requires Sound(r) && id in r.hub.clients && r.hub.seqNo <= seqNo'
    requires Tidy(c.stream, seqNo')
    requires forall f :: f in c.stream.inFlight ==> f in r.hub.clients[id].stream.inFlight || f.seqNo > r.hub.seqNo
    ensures Sound(Registry(Hub(r.hub.clients[id := c], seqNo'), r.nextId))
  {
    var r' := Registry(Hub(r.hub.clients[id := c], seqNo'), r.nextId);
    forall x | x in r'.hub.clients ensures x < r'.nextId && Tidy(r'.hub.clients[x].stream, seqNo') {
      if x != id { TidyMonotone(r.hub.clients[x].stream, r.hub.seqNo, seqNo'); }
    }
    forall a, b | a in r'.hub.clients && b in r'.hub.clients && a != b
      ensures Disjoint(r'.hub.clients[a].stream, r'.hub.clients[b].stream)
    {
      assert Disjoint(r.hub.clients[a].stream, r.hub.clients[b].stream);
      if a == id {
        StayDisjoint(r.hub.clients[id].stream, c.stream, r.hub.clients[b].stream, r.hub.seqNo);
      } else if b == id {
        StayDisjoint(r.hub.clients[id].stream, c.stream, r.hub.clients[a].stream, r.hub.seqNo);
      }
    }
  }

  lemma AckEffect(st: Stream, n: nat, seqNo: nat)
    requires Tidy(st, n)
    ensures Tidy(AfterAck(st, seqNo), n)
    ensures forall f :: f in AfterAck(st, seqNo).inFlight ==> f in st.inFlight
  {
    var found := Find(st.inFlight, seqNo);
    if found.Some? {
      L.NewerIncreasing(st.inFlight, seqNo);
      var after := AfterAck(st, seqNo);
      forall id | id in after.acked ensures after.acked[id].seqNo <= n {
        L.CommitSource(st.acked, found.value.nodes, id);
      }
    }
  }

  lemma StepKeepsSound(r: Registry, a: Action, r': Registry, frames: seq<Frame>)
    requires Sound(r) && Acts(r, a, r', frames)
    ensures Sound(r')
    ensures r'.hub.seqNo == r.hub.seqNo + |frames|
    ensures forall f :: f in frames ==> f.seqNo == r'.hub.seqNo
  {
    match a
    case Join =>
      JoinKeepsSound(r, r');
    case Leave(id) =>
    case Configure(id, pubkey, filterOn, allowed) =>
      if id in r.hub.clients {
        ReplaceKeepsSound(r, id, Client(pubkey, filterOn, allowed, r.hub.clients[id].stream), r.hub.seqNo);
      }
    case Ack(id, seqNo) =>
      if id in r.hub.clients {
        AckEffect(r.hub.clients[id].stream, r.hub.seqNo, seqNo);
        ReplaceKeepsSound(r, id, r'.hub.clients[id], r.hub.seqNo);
      }
    case Pump(id, cx, mailbox) =>
      if !Skips(r.hub, id, cx) {
        TurnHasEffect(r.hub.clients[id], id, cx, r.hub.seqNo, mailbox, r'.hub.clients[id].stream, r'.hub.seqNo, frames);
        ReplaceKeepsSound(r, id, r'.hub.clients[id], r'.hub.seqNo);
      }
  }

  lemma JoinKeepsSound(r: Registry, r': Registry)
    requires Sound(r)
    requires r' == Registry(r.hub.(clients := r.hub.clients[r.nextId := FreshClient]), r.nextId + 1)
    ensures Sound(r')
  {
    forall a, b | a in r'.hub.clients && b in r'.hub.clients && a != b
      ensures Disjoint(r'.hub.clients[a].stream, r'.hub.clients[b].stream)
    {
      assert a != r.nextId && b != r.nextId ==> Disjoint(r.hub.clients[a].stream, r.hub.clients[b].stream);
    }
  }

  ghost predicate IsRunOf(states: seq<Registry>, actions: seq<Action>, frames: seq<seq<Frame>>) {
    && |states| == |actions| + 1 && |frames| == |actions|
    && states[0] == FreshRegistry
    && forall i :: 0 <= i < |actions| ==> Acts(states[i], actions[i], states[i + 1], frames[i])
  }

  /** At every point of every run no chunk number is in flight for two clients. */
  lemma {:induction false} RunIsSound(states: seq<Registry>, actions: seq<Action>, frames: seq<seq<Frame>>, n: nat)
    requires IsRunOf(states, actions, frames) && n <= |actions|
    ensures Sound(states[n])
  {
    if n > 0 {
      RunIsSound(states, actions, frames, n - 1);
      assert Acts(states[n - 1], actions[n - 1], states[n - 1 + 1], frames[n - 1]);
      StepKeepsSound(states[n - 1], actions[n - 1], states[n], frames[n - 1]);
    }
  }

  lemma {:induction false} SeqGrows(states: seq<Registry>, actions: seq<Action>, frames: seq<seq<Frame>>, i: nat,
                                    j: nat)
    requires IsRunOf(states, actions, frames) && i <= j <= |actions|
    ensures states[i].hub.seqNo <= states[j].hub.seqNo
    decreases j - i
  {
    if i < j {
      RunIsSound(states, actions, frames, i);
      assert Acts(states[i], actions[i], states[i + 1], frames[i]);
      StepKeepsSound(states[i], actions[i], states[i + 1], frames[i]);
      SeqGrows(states, actions, frames, i + 1, j);
    }
  }

  /** Chunk numbers strictly increase over the whole run, hence for every client. */
  lemma FramesIncrease(states: seq<Registry>, actions: seq<Action>, frames: seq<seq<Frame>>,
                       i: nat, j: nat, f: Frame, g: Frame)
    requires IsRunOf(states, actions, frames) && i < j < |actions|
    requires f in frames[i] && g in frames[j]
    ensures f.seqNo < g.seqNo
  {
    RunIsSound(states, actions, frames, i);
    assert Acts(states[i], actions[i], states[i + 1], frames[i]);
    StepKeepsSound(states[i], actions[i], states[i + 1], frames[i]);
    RunIsSound(states, actions, frames, j);
    assert Acts(states[j], actions[j], states[j + 1], frames[j]);
    StepKeepsSound(states[j], actions[j], states[j + 1], frames[j]);
    SeqGrows(states, actions, frames, i + 1, j);
  }

  /** Nobody's action changes what is kept about anybody else. */
  lemma OthersUntouched(r: Registry, a: Action, r': Registry, frames: seq<Frame>, other: ClientId)
    requires Sound(r) && Acts(r, a, r', frames) && other in r.hub.clients
    requires a.Join? || a.id != other
    ensures other in r'.hub.clients && r'.hub.clients[other] == r.hub.clients[other]
    ensures NoneFor(frames, other)
  {
    if a.Pump? && !Skips(r.hub, a.id, a.cx) {
      TurnHasEffect(r.hub.clients[a.id], a.id, a.cx, r.hub.seqNo, a.mailbox,
                    r'.hub.clients[a.id].stream, r'.hub.seqNo, frames);
    }
  }

  predicate NoneFor(frames: seq<Frame>, id: ClientId) {
    forall f :: f in frames ==> f.client != id
  }

  predicate NotBy(a: Action, id: ClientId) {
    a.Join? || a.id != id
  }

  lemma StepUntouched(states: seq<Registry>, actions: seq<Action>, frames: seq<seq<Frame>>, k: nat, other: ClientId)
    requires IsRunOf(states, actions, frames) && k < |actions| && other in states[k].hub.clients
    requires NotBy(actions[k], other)
    ensures other in states[k + 1].hub.clients && states[k + 1].hub.clients[other] == states[k].hub.clients[other]
    ensures NoneFor(frames[k], other)
  {
    RunIsSound(states, actions, frames, k);
    OthersUntouched(states[k], actions[k], states[k + 1], frames[k], other);
  }

  /** However long the others go on, a client that does nothing and is not pumped stays as it was and gets nothing. */
  lemma {:induction false} UntouchedForLong(states: seq<Registry>, actions: seq<Action>, frames: seq<seq<Frame>>,
                                            i: nat, j: nat, other: ClientId)
    requires IsRunOf(states, actions, frames) && i <= j <= |actions| && other in states[i].hub.clients
    requires forall k :: i <= k < j ==> NotBy(actions[k], other)
    ensures other in states[j].hub.clients && states[j].hub.clients[other] == states[i].hub.clients[other]
    ensures forall k :: i <= k < j ==> NoneFor(frames[k], other)
  {
    if i < j {
      UntouchedForLong(states, actions, frames, i, j - 1, other);
      StepUntouched(states, actions, frames, j - 1, other);
    }
  }
}
