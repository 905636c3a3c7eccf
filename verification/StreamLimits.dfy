/**
 Limits of the stream: how seldom a client that never acknowledges is sent to, and the two places
 where the streaming policy falls short of "every node is eventually delivered"
 (src/actors/position_stream.rs:22-31).
 */
module StreamLimits {
  import opened Basics
  import opened PositionStream
  import opened StreamRounds
  import opened StreamLink

  // ----- backoff ------------------------------------------------------------------------------

  /** One send to a silent client; what it was believed to hold may have been cut down just before. */
  datatype Sending = Sending(acked: map<NodeId, Held>, seqNo: nat, now: nat, nodes: seq<Entry>)

  /** Sends to a client that never acknowledges, each made only once the wait is over. */
  ghost predicate SilentRun(timeout: nat, states: seq<Stream>, sends: seq<Sending>) {
    && |states| == |sends| + 1
    && states[0].inFlight == [] && states[0].timeouts == 0
    && (forall i, j :: 0 <= i < j < |sends| ==> sends[i].now <= sends[j].now)
    && forall i :: 0 <= i < |sends| ==>
         && !IsWaiting(states[i], sends[i].now, timeout)
         && states[i + 1] == AfterSend(states[i].(acked := sends[i].acked),
                                       sends[i].seqNo, sends[i].now, sends[i].nodes)
  }

  /** After `n` sends the list holds the last eight and the wait has doubled `n - 1` times. */
  lemma {:induction false} SilentState(timeout: nat, states: seq<Stream>, sends: seq<Sending>, n: nat)
    requires SilentRun(timeout, states, sends) && 1 <= n <= |sends|
    ensures |states[n].inFlight| == Min(n, 8)
    ensures states[n].timeouts == Min(n - 1, U32_MAX)
    ensures states[n].inFlight[|states[n].inFlight| - 1].sentAt == sends[n - 1].now
  {
    if n > 1 { SilentState(timeout, states, sends, n - 1); }
  }

  lemma SilentGap(timeout: nat, states: seq<Stream>, sends: seq<Sending>, n: nat)
    requires SilentRun(timeout, states, sends) && 1 <= n < |sends|
    ensures n == 1 ==> sends[n].now >= sends[n - 1].now + timeout
    ensures n == 2 ==> sends[n].now >= sends[n - 1].now + 2 * timeout
    ensures n == 3 ==> sends[n].now >= sends[n - 1].now + 4 * timeout
    ensures n >= 4 ==> sends[n].now >= sends[n - 1].now + 8 * timeout
  {
    SilentState(timeout, states, sends, n);
  }

  /**
   Rate bound: the n-th send to a silent client (counting from 1, n >= 4) comes no earlier than
   seven timeouts after the first, plus eight for each send beyond the fourth.
   */
  lemma {:induction false} SilentRate(timeout: nat, states: seq<Stream>, sends: seq<Sending>, n: nat)
    requires SilentRun(timeout, states, sends) && 4 <= n <= |sends|
    ensures sends[n - 1].now >= sends[0].now + 7 * timeout + 8 * timeout * (n - 4)
  {
    SilentGap(timeout, states, sends, n - 1);
    if n == 4 {
      SilentGap(timeout, states, sends, 1);
      SilentGap(timeout, states, sends, 2);
    } else {
      SilentRate(timeout, states, sends, n - 1);
      assert 8 * timeout * (n - 4) == 8 * timeout * (n - 5) + 8 * timeout;
    }
  }

  /** An honoured acknowledgement resets the wait, whatever it had grown to. */
  lemma AckResetsWait(st: Stream, seqNo: nat, timeout: nat)
    requires exists f :: f in st.inFlight && f.seqNo == seqNo
    ensures EffectiveTimeout(AfterAck(st, seqNo), timeout) == timeout
  {
  }

  // ----- a quiet stream can leave a stale client ----------------------------------------------

  const K0 := Analytics(0, 0, 0, 0)

  function At(x: real): Point { Point(x, 0.0, 0.0) }

  function Rec(id: NodeId, x: real, seqNo: nat): Entry { Entry(id, Held(At(x), K0, seqNo)) }

  function SceneOf(cache: map<NodeId, Point>): Scene { Scene(cache, (id: NodeId) => true, (id: NodeId) => K0, 1.0) }

  /** The only candidate is the plan. */
  lemma SinglePlan(st: Stream, sc: Scene, k: nat, id: NodeId)
    requires k >= 1 && CandidateIds(st, sc) == {id}
    ensures IsPlan(st, sc, k, [id])
  {
    assert Elements([id]) == {id};
    assert |{id}| == 1;
  }

  const C1 := [Rec(1, 0.0, 1)]
  const C2 := [Rec(1, 100.0, 2)]
  const C3 := [Rec(2, 0.0, 3)]
  const S1 := Link(Stream(map[], [InFlight(1, 0, C1)], 0), map[1 := C1], 1, map[], {}, {})
  const S2 := S1.(holds := map[1 := C1[0].held], received := {1})
  const S3 := S2.(server := Stream(map[1 := C1[0].held], [], 0), honoured := {1})
  const S4 := S3.(server := Stream(S3.server.acked, [InFlight(2, 1, C2)], 0),
                  sent := map[1 := C1, 2 := C2], lastSeq := 2)
  const S5 := S4.(holds := map[1 := C2[0].held], received := {1, 2})
  const S6 := S5.(server := Stream(S3.server.acked, [InFlight(2, 1, C2), InFlight(3, 2, C3)], 1),
                  sent := map[1 := C1, 2 := C2, 3 := C3], lastSeq := 3)
  const S7 := S6.(holds := map[1 := C2[0].held, 2 := C3[0].held], received := {1, 2, 3})
  const S8 := S7.(server := Stream(map[1 := C1[0].held, 2 := C3[0].held], [], 0), honoured := {1, 3})
  const Away := SceneOf(map[1 := At(100.0)])
  const Back := SceneOf(map[1 := At(0.0), 2 := At(0.0)])

  lemma SingleChunk(id: NodeId, x: real, seqNo: nat)
    ensures IsChunk(seqNo, [Rec(id, x, seqNo)])
  {
  }

  lemma StaleSends()
    ensures IsStepOf(FreshLink, Send(1, 0, C1), S1)
    ensures IsStepOf(S3, Send(2, 1, C2), S4)
    ensures IsStepOf(S5, Send(3, 2, C3), S6)
  {
    SingleChunk(1, 0.0, 1);
    SingleChunk(1, 100.0, 2);
    SingleChunk(2, 0.0, 3);
  }

  lemma StaleDeliveries()
    ensures IsStepOf(S1, Deliver(1), S2)
    ensures IsStepOf(S4, Deliver(2), S5)
    ensures IsStepOf(S6, Deliver(3), S7)
  {
    CommitOne(map[], C1);
    CommitOne(map[1 := C1[0].held], C2);
    CommitOne(map[1 := C2[0].held], C3);
  }

  lemma StaleAcks()
    ensures IsStepOf(S2, Ack(1), S3)
    ensures IsStepOf(S7, Ack(3), S8)
  {
    AckOfLastSend(FreshStream, 1, 0, C1);
    CommitOne(map[], C1);
    StaleSends();
    AckOfLastSend(S5.server, 3, 2, C3);
    CommitOne(S3.server.acked, C3);
  }

  lemma StalePlans()
    ensures IsPlan(S3.server, Away, 10, [1]) && C2 == Entries(Away, [1], 2)
    ensures IsPlan(S5.server, Back, 10, [2]) && C3 == Entries(Back, [2], 3)
    ensures CandidateIds(S8.server, Back) == {}
  {
    assert CandidateIds(S3.server, Away) == {1};
    SinglePlan(S3.server, Away, 10, 1);
    assert CandidateIds(S5.server, Back) == {2};
    SinglePlan(S5.server, Back, 10, 2);
  }

  const StaleStates := [FreshLink, S1, S2, S3, S4, S5, S6, S7, S8]

  ghost function StaleSteps(): seq<Step> {
    [Send(1, 0, C1), Deliver(1), Ack(1), Send(2, 1, C2), Deliver(2), Send(3, 2, C3), Deliver(3), Ack(3)]
  }

  lemma StaleRun()
    ensures IsRunOf(StaleStates, StaleSteps())
  {
    forall i | 0 <= i < 8 ensures IsStepOf(StaleStates[i], StaleSteps()[i], StaleStates[i + 1]) {
      StaleStep(i);
    }
  }

  lemma StaleStep(i: nat)
    requires i < 8
    ensures IsStepOf(StaleStates[i], StaleSteps()[i], StaleStates[i + 1])
  {
    if i in {0, 3, 5} {
      StaleSends();
    } else if i in {1, 4, 6} {
      StaleDeliveries();
    } else {
      assert i == 2 || i == 7;
      StaleAcks();
    }
  }

  /**
   The promise that an empty plan means the client already holds the latest positions fails here:
   node 1 goes away and comes back while the acknowledgement of its excursion is lost. Both later
   chunks are the server's own plans, every chunk is delivered, the stream ends quiet with nothing in
   flight, and the client shows node 1 a hundred units from where it is.
   */
  lemma QuietButStale()
    ensures IsRunOf(StaleStates, StaleSteps())
    ensures StaleStates[3] == S3 && StaleSteps()[3] == Send(2, 1, Entries(Away, [1], 2))
    ensures IsPlan(S3.server, Away, 10, [1])
    ensures StaleStates[5] == S5 && StaleSteps()[5] == Send(3, 2, Entries(Back, [2], 3))
    ensures IsPlan(S5.server, Back, 10, [2])
    ensures StaleStates[8] == S8 && S8.received == S8.sent.Keys && S8.server.inFlight == []
    ensures CandidateIds(S8.server, Back) == {}
    ensures 1 in Shown(Back) && 1 in S8.holds
    ensures Dist2(S8.holds[1].pos, Back.cache[1]) > Back.threshold * Back.threshold
  {
    StaleRun();
    StalePlans();
  }

  lemma CommitOne(m: map<NodeId, Held>, es: seq<Entry>)
    requires |es| == 1
    ensures CommitAll(m, es) == Commit(m, es[0])
  {
    assert CommitAll(m, es[..0]) == m;
  }

  // ----- below four nodes a chunk has no fair share -------------------------------------------

  const Four: set<NodeId> := {0, 1, 2, 3}

  /** All four nodes are acknowledged, and node 0 was last seen at the origin. */
  ghost predicate Starving(st: Stream, n: nat) {
    && st.acked.Keys == Four
    && st.acked[0].pos == At(0.0)
    && (forall id :: id in Four ==> st.acked[id].pos == At(st.acked[id].pos.x))
    && SeqsBelow(st, n)
  }

  /** Node 0 has moved two units, once; each of the others is three units from where it was seen. */
  ghost function Crowd(st: Stream): Scene
    requires st.acked.Keys == Four
  {
    SceneOf(map id | id in Four :: if id == 0 then At(2.0) else At(st.acked[id].pos.x + 3.0))
  }

  /** The chunk a crowded server picks: never node 0. */
  function Crowded(k: nat): seq<NodeId> {
    if k == 1 then [1] else if k == 2 then [1, 2] else [1, 2, 3]
  }

  function CrowdedSet(k: nat): set<NodeId> {
    if k == 1 then {1} else if k == 2 then {1, 2} else {1, 2, 3}
  }

  lemma CrowdedElements(k: nat)
    requires 1 <= k <= 3
    ensures Elements(Crowded(k)) == CrowdedSet(k) && |CrowdedSet(k)| == k && NoDuplicates(Crowded(k))
    ensures CrowdedSet(k) <= Four && 0 !in CrowdedSet(k)
    ensures FairShare(k) == 0
  {
  }

  lemma DistAlong(a: real, b: real, d: real)
    requires a - b == d
    ensures Dist2(At(a), At(b)) == d * d
  {
    var p, q := At(a), At(b);
    assert p.x - q.x == d && p.y - q.y == 0.0 && p.z - q.z == 0.0;
  }

  lemma CrowdDist(st: Stream, n: nat, id: NodeId)
    requires Starving(st, n) && id in Four
    ensures Dist2(Crowd(st).cache[id], st.acked[id].pos) == if id == 0 then 4.0 else 9.0
  {
    if id == 0 {
      DistAlong(2.0, 0.0, 2.0);
    } else {
      var x := st.acked[id].pos.x;
      DistAlong(x + 3.0, x, 3.0);
    }
  }

  /** A node acknowledged elsewhere is a candidate, ranked by how far it moved. */
  lemma FarIsCandidate(st: Stream, cache: map<NodeId, Point>, id: NodeId, d2: real)
    requires id in cache && id in st.acked && Dist2(cache[id], st.acked[id].pos) == d2 && d2 > 1.0
    ensures IsCandidate(st, SceneOf(cache), id)
    ensures Rank(st, SceneOf(cache), id).disp == Finite(d2) && Rank(st, SceneOf(cache), id).id == id
  {
  }

  lemma CrowdRank(st: Stream, n: nat, id: NodeId)
    requires Starving(st, n) && id in Four
    ensures IsCandidate(st, Crowd(st), id)
    ensures Rank(st, Crowd(st), id).disp == Finite(if id == 0 then 4.0 else 9.0) && Rank(st, Crowd(st), id).id == id
  {
    CrowdDist(st, n, id);
    FarIsCandidate(st, Crowd(st).cache, id, if id == 0 then 4.0 else 9.0);
  }

  lemma CrowdOrder(st: Stream, n: nat, k: nat, a: NodeId, b: NodeId)
    requires Starving(st, n) && 1 <= k <= 3
    requires a in CrowdedSet(k) && b in Four && (b !in CrowdedSet(k) || a < b)
    ensures Before(ByMove, Rank(st, Crowd(st), a), Rank(st, Crowd(st), b))
  {
    CrowdRank(st, n, a);
    CrowdRank(st, n, b);
  }

  lemma CrowdChoice(st: Stream, n: nat, k: nat)
    requires Starving(st, n) && 1 <= k <= 3
    ensures CandidateIds(st, Crowd(st)) == Four
    ensures ChosenBy(st, Crowd(st), k, CrowdedSet(k), {})
  {
    forall id | id in Four ensures IsCandidate(st, Crowd(st), id) {
      CrowdRank(st, n, id);
    }
    CrowdedElements(k);
    forall a, b | a in CrowdedSet(k) && b in Four && b !in CrowdedSet(k)
      ensures Before(ByMove, Rank(st, Crowd(st), a), Rank(st, Crowd(st), b))
    {
      CrowdOrder(st, n, k, a, b);
    }
  }

  lemma CrowdPlan(st: Stream, n: nat, k: nat)
    requires Starving(st, n) && 1 <= k <= 3
    ensures IsPlan(st, Crowd(st), k, Crowded(k))
  {
    CrowdedElements(k);
    CrowdChoice(st, n, k);
    CrowdSorted(st, n, k);
    CrowdedPlan(st, Crowd(st), k);
  }

  lemma CrowdedPlan(st: Stream, sc: Scene, k: nat)
    requires 1 <= k <= 3 && CandidateIds(st, sc) == Four && ChosenBy(st, sc, k, CrowdedSet(k), {})
    requires Elements(Crowded(k)) == CrowdedSet(k) <= sc.cache.Keys && NoDuplicates(Crowded(k))
    requires SortedByMove(st, sc, Crowded(k))
    ensures IsPlan(st, sc, k, Crowded(k))
  {
    assert |Four| == 4;
    assert Elements(Crowded(k)) == CrowdedSet(k) + {};
    FullPlan(st, sc, k, Crowded(k), CrowdedSet(k), {});
  }

  lemma FullPlan(st: Stream, sc: Scene, k: nat, ids: seq<NodeId>, movers: set<NodeId>, waited: set<NodeId>)
    requires k >= 1 && |CandidateIds(st, sc)| > k && ChosenBy(st, sc, k, movers, waited)
    requires NoDuplicates(ids) && Elements(ids) == movers + waited && SortedByMove(st, sc, ids)
    ensures IsPlan(st, sc, k, ids)
  {
  }

  lemma CrowdSorted(st: Stream, n: nat, k: nat)
    requires Starving(st, n) && 1 <= k <= 3
    ensures Elements(Crowded(k)) <= Crowd(st).cache.Keys && SortedByMove(st, Crowd(st), Crowded(k))
  {
    var ids := Crowded(k);
    CrowdedElements(k);
    forall i, j | 0 <= i < j < |ids|
      ensures Before(ByMove, Rank(st, Crowd(st), ids[i]), Rank(st, Crowd(st), ids[j]))
    {
      CrowdOrder(st, n, k, ids[i], ids[j]);
    }
  }

  lemma StarvingKept(st: Stream, n: nat, ids: seq<NodeId>, after: Stream)
    requires Starving(st, n) && Elements(ids) <= Four && 0 !in Elements(ids)
    requires HoldsChunk(st.acked, after.acked, Crowd(st), ids, n) && after.inFlight == []
    ensures Starving(after, n + 1)
  {
    assert after.acked.Keys == Four;
    forall id | id in Four ensures after.acked[id].pos == At(after.acked[id].pos.x) && after.acked[id].seqNo < n + 1 {
      assert id in Elements(ids) || after.acked[id] == st.acked[id];
    }
  }

  /** In this round node 0 needs sending and is not sent. */
  ghost predicate Overlooks(k: nat, st: Stream, r: Round, after: Stream)
    requires k >= 1
  {
    && IsStep(k, st, r, after)
    && Shown(r.sc) == Four
    && 0 in CandidateIds(st, r.sc)
    && 0 !in Elements(r.ids)
  }

  lemma CrowdShown(st: Stream)
    requires st.acked.Keys == Four
    ensures Shown(Crowd(st)) == Four && Pruned(st, Crowd(st)) == st
  {
    assert Pruned(st, Crowd(st)).acked == st.acked;
  }

  lemma PlanOverlooks(st: Stream, n: nat, k: nat, ids: seq<NodeId>) returns (r: Round, after: Stream)
    requires Starving(st, n) && k >= 1 && IsPlan(st, Crowd(st), k, ids)
    requires CandidateIds(st, Crowd(st)) == Four && Elements(ids) <= Four && 0 !in Elements(ids)
    ensures Overlooks(k, st, r, after) && Starving(after, n + 1)
  {
    r := Round(Crowd(st), n, 0, ids);
    CrowdShown(st);
    after := AfterRound(st, r);
    RoundEffect(st, k, r);
    StarvingKept(st, n, ids, after);
  }

  lemma CrowdRound(st: Stream, n: nat, k: nat) returns (r: Round, after: Stream)
    requires Starving(st, n) && 1 <= k <= 3
    ensures Overlooks(k, st, r, after) && Starving(after, n + 1)
  {
    CrowdPlan(st, n, k);
    CrowdedElements(k);
    CrowdChoice(st, n, k);
    r, after := PlanOverlooks(st, n, k, Crowded(k));
  }

  /** From a starving stream on, for any number of rounds, node 0 needs sending every time and is never sent. */
  lemma {:induction false} StarvesOn(st: Stream, n: nat, k: nat, m: nat)
    returns (states: seq<Stream>, rounds: seq<Round>)
    requires Starving(st, n) && 1 <= k <= 3
    ensures |rounds| == m && |states| == m + 1 && states[0] == st
    ensures forall i :: 0 <= i < m ==> Overlooks(k, states[i], rounds[i], states[i + 1])
    decreases m
  {
    if m == 0 {
      states, rounds := [st], [];
    } else {
      var r, after := CrowdRound(st, n, k);
      var states', rounds' := StarvesOn(after, n + 1, k, m - 1);
      ConsStep((a, x, b) => Overlooks(k, a, x, b), st, r, states', rounds');
      states, rounds := [st] + states', [r] + rounds';
    }
  }

  /** Putting one more step in front of a chain of steps gives a chain of steps. */
  lemma ConsStep(step: (Stream, Round, Stream) -> bool, st: Stream, r: Round, states: seq<Stream>, rounds: seq<Round>)
    requires |states| == |rounds| + 1 && step(st, r, states[0])
    requires forall i :: 0 <= i < |rounds| ==> step(states[i], rounds[i], states[i + 1])
    ensures forall i :: 0 <= i <= |rounds| ==> step(([st] + states)[i], ([r] + rounds)[i], ([st] + states)[i + 1])
  {
    forall i | 0 <= i <= |rounds|
      ensures step(([st] + states)[i], ([r] + rounds)[i], ([st] + states)[i + 1])
    {
      assert i > 0 ==> step(states[i - 1], rounds[i - 1], states[i - 1 + 1]);
    }
  }

  // ----- from a fresh stream to a starving one ------------------------------------------------

  /** Exactly these nodes are acknowledged, all at the origin, and nothing is in flight. */
  ghost predicate Seated(st: Stream, ids: set<NodeId>, n: nat) {
    && st.acked.Keys == ids && st.inFlight == [] && SeqsBelow(st, n)
    && forall id :: id in ids ==> st.acked[id].pos == At(0.0) && st.acked[id].key == K0
  }

  ghost function Origin(ids: set<NodeId>): Scene {
    SceneOf(map id | id in ids :: At(0.0))
  }

  lemma OnlyNewcomer(st: Stream, ids: set<NodeId>, id: NodeId, n: nat)
    requires Seated(st, ids, n) && id !in ids
    ensures Pruned(st, Origin(ids + {id})) == st && CandidateIds(st, Origin(ids + {id})) == {id}
  {
    var sc := Origin(ids + {id});
    assert Pruned(st, sc).acked == st.acked;
    DistAlong(0.0, 0.0, 0.0);
    forall x ensures x in CandidateIds(st, sc) <==> x == id {
    }
  }

  /** A round in which one more node appears, at the origin. */
  lemma SeatOne(st: Stream, ids: set<NodeId>, id: NodeId, n: nat, k: nat) returns (r: Round, after: Stream)
    requires Seated(st, ids, n) && id !in ids && k >= 1
    ensures IsStep(k, st, r, after) && Seated(after, ids + {id}, n + 1)
  {
    var sc := Origin(ids + {id});
    OnlyNewcomer(st, ids, id, n);
    SinglePlan(st, sc, k, id);
    r := Round(sc, n, 0, [id]);
    after := AfterRound(st, r);
    RoundEffect(st, k, r);
    NowSeated(st, ids, id, n, after);
  }

  lemma NowSeated(st: Stream, ids: set<NodeId>, id: NodeId, n: nat, after: Stream)
    requires Seated(st, ids, n) && HoldsChunk(st.acked, after.acked, Origin(ids + {id}), [id], n)
    requires after.inFlight == []
    ensures Seated(after, ids + {id}, n + 1)
  {
    assert Elements([id]) == {id};
  }

  lemma ExtendRun(k: nat, states: seq<Stream>, rounds: seq<Round>, r: Round, after: Stream)
    requires k >= 1 && IsRun(k, states, rounds) && IsStep(k, states[|rounds|], r, after)
    ensures IsRun(k, states + [after], rounds + [r])
  {
    var states', rounds' := states + [after], rounds + [r];
    forall i | 0 <= i < |rounds'| ensures IsStep(k, states'[i], rounds'[i], states'[i + 1]) {
      assert i < |rounds| ==> IsStep(k, states[i], rounds[i], states[i + 1]);
    }
  }

  /** A run from a fresh stream that seats the first `m` nodes, one a round. */
  ghost predicate SeatingRun(k: nat, states: seq<Stream>, rounds: seq<Round>, m: nat)
    requires k >= 1
  {
    |rounds| == m && IsRun(k, states, rounds) && states[0] == FreshStream && Seated(states[m], Range(0, m), m + 1)
  }

  lemma SeatNext(k: nat, states: seq<Stream>, rounds: seq<Round>, m: nat)
    returns (states': seq<Stream>, rounds': seq<Round>)
    requires k >= 1 && SeatingRun(k, states, rounds, m)
    ensures SeatingRun(k, states', rounds', m + 1)
  {
    var ids := Range(0, m);
    var r, after := SeatOne(states[m], ids, m, m + 1, k);
    ExtendRun(k, states, rounds, r, after);
    states', rounds' := states + [after], rounds + [r];
    assert ids + {m} == Range(0, m + 1);
  }

  lemma SeatNone(k: nat)
    requires k >= 1
    ensures SeatingRun(k, [FreshStream], [], 0)
  {
  }

  lemma SeatedStarves(st: Stream, ids: set<NodeId>)
    requires Seated(st, ids, 5) && ids == Four
    ensures Starving(st, 5)
  {
  }

  lemma SeatFour(k: nat) returns (states: seq<Stream>, rounds: seq<Round>)
    requires k >= 1
    ensures |rounds| == 4 && IsRun(k, states, rounds) && states[0] == FreshStream && Starving(states[4], 5)
  {
    SeatNone(k);
    states, rounds := SeatNext(k, [FreshStream], [], 0);
    states, rounds := SeatNext(k, states, rounds, 1);
    states, rounds := SeatNext(k, states, rounds, 2);
    states, rounds := SeatNext(k, states, rounds, 3);
    assert Range(0, 4) == Four;
    SeatedStarves(states[4], Range(0, 4));
  }

  /**
   With fewer than four nodes per chunk the fair share is empty and the bounded wait is lost: for any
   number of rounds there is a run from a fresh stream in which, from its fifth round on, node 0 needs
   sending every time and is never sent.
   */
  lemma StarvedBelowFour(k: nat, m: nat) returns (states: seq<Stream>, rounds: seq<Round>)
    requires 1 <= k <= 3
    ensures |rounds| == m + 4 && IsRun(k, states, rounds) && states[0] == FreshStream
    ensures forall i :: 4 <= i < m + 4 ==> Overlooks(k, states[i], rounds[i], states[i + 1])
  {
    var states0, rounds0 := SeatFour(k);
    var states1, rounds1 := StarvesOn(states0[4], 5, k, m);
    states, rounds := states0 + states1[1..], rounds0 + rounds1;
    forall i | 0 <= i < |rounds|
      ensures IsStep(k, states[i], rounds[i], states[i + 1])
      ensures i >= 4 ==> Overlooks(k, states[i], rounds[i], states[i + 1])
    {
      if i < 4 {
        assert IsStep(k, states0[i], rounds0[i], states0[i + 1]);
      } else {
        assert Overlooks(k, states1[i - 4], rounds1[i - 4], states1[i - 4 + 1]);
      }
    }
  }
}
