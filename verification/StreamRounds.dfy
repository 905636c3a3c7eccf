/**
 What a client that acknowledges every chunk is guaranteed: the initial sync converges in the least
 possible number of rounds, and no candidate waits longer than its seniors divided by the fair share.
 A round is what one pump plus its acknowledgement does: forget what may no longer be shown, plan,
 send, acknowledge (src/actors/client_coordinator_actor.rs:597-631, 634-636).
 */
module StreamRounds {
  import opened Basics
  import opened PositionStream

  /** The forgetting step of a pump: only shown nodes stay acknowledged. */
  function Pruned(st: Stream, sc: Scene): Stream {
    AfterRetain(st, id => id in sc.cache && sc.visible(id))
  }

  /** Every sequence number the stream has seen is below `n`, as the global counter guarantees. */
  ghost predicate SeqsBelow(st: Stream, n: nat) {
    && n > 0
    && (forall id :: id in st.acked ==> st.acked[id].seqNo < n)
    && (forall f :: f in st.inFlight ==> f.seqNo < n)
  }

  /** One acknowledged round: the scene it saw, its sequence number, its time, and what it sent. */
  datatype Round = Round(sc: Scene, seqNo: nat, now: nat, ids: seq<NodeId>)

  function AfterRound(st: Stream, r: Round): Stream
    requires Elements(r.ids) <= r.sc.cache.Keys
  {
    AfterAck(AfterSend(Pruned(st, r.sc), r.seqNo, r.now, Entries(r.sc, r.ids, r.seqNo)), r.seqNo)
  }

  ghost predicate IsRound(st: Stream, k: nat, r: Round)
    requires k >= 1
  {
    SeqsBelow(st, r.seqNo) && IsPlan(Pruned(st, r.sc), r.sc, k, r.ids)
  }

  /** A run: `states[i]` is the stream before round `i`, and the last state is where it ends. */
  ghost predicate IsRun(k: nat, states: seq<Stream>, rounds: seq<Round>)
    requires k >= 1
  {
    && |states| == |rounds| + 1
    && forall i :: 0 <= i < |rounds| ==> IsStep(k, states[i], rounds[i], states[i + 1])
  }

  ghost predicate IsStep(k: nat, st: Stream, r: Round, after: Stream)
    requires k >= 1
  {
    IsRound(st, k, r) && after == AfterRound(st, r)
  }

  // ----- what one round does ------------------------------------------------------------------

  /** A node no record mentions keeps what it had. */
  lemma {:induction false} CommitElse(m: map<NodeId, Held>, es: seq<Entry>, id: NodeId)
    requires forall e :: e in es ==> e.id != id
    ensures id in CommitAll(m, es) <==> id in m
    ensures id in m ==> CommitAll(m, es)[id] == m[id]
  {
    if es != [] {
      assert es[|es| - 1] in es;
      CommitElse(m, es[..|es| - 1], id);
    }
  }

  /** The only record of a node is what is held for it, unless something newer was. */
  lemma {:induction false} CommitAt(m: map<NodeId, Held>, es: seq<Entry>, i: nat)
    requires i < |es| && forall j :: 0 <= j < |es| && j != i ==> es[j].id != es[i].id
    requires es[i].id in m ==> m[es[i].id].seqNo <= es[i].held.seqNo
    ensures es[i].id in CommitAll(m, es) && CommitAll(m, es)[es[i].id] == es[i].held
  {
    var front := es[..|es| - 1];
    if i < |es| - 1 {
      CommitAt(m, front, i);
    } else {
      CommitElse(m, front, es[i].id);
    }
  }

  /** The last chunk sent is found under its number, and acknowledging it empties the list. */
  lemma AckOfLastSend(st: Stream, seqNo: nat, now: nat, nodes: seq<Entry>)
    requires forall f :: f in st.inFlight ==> f.seqNo < seqNo
    ensures AfterAck(AfterSend(st, seqNo, now, nodes), seqNo) == Stream(CommitAll(st.acked, nodes), [], 0)
  {
    var fs := AfterSend(st, seqNo, now, nodes).inFlight;
    assert fs[|fs| - 1] in fs;
    assert forall f :: f in fs ==> f in st.inFlight || f == InFlight(seqNo, now, nodes);
    HeadElement(Newer(fs, seqNo));
  }

  /** What committing a freshly sent chunk of `ids` leaves in the acknowledged map. */
  ghost predicate HoldsChunk(m: map<NodeId, Held>, after: map<NodeId, Held>, sc: Scene, ids: seq<NodeId>, seqNo: nat) {
    && Elements(ids) <= sc.cache.Keys
    && after.Keys == m.Keys + Elements(ids)
    && (forall id :: id in Elements(ids) ==> after[id] == Held(sc.cache[id], sc.analytics(id), seqNo))
    && (forall id :: id in m && id !in Elements(ids) ==> after[id] == m[id])
  }

  lemma CommitChunk(m: map<NodeId, Held>, sc: Scene, ids: seq<NodeId>, seqNo: nat)
    requires NoDuplicates(ids) && Elements(ids) <= sc.cache.Keys
    requires forall id :: id in m ==> m[id].seqNo <= seqNo
    ensures HoldsChunk(m, CommitAll(m, Entries(sc, ids, seqNo)), sc, ids, seqNo)
  {
    var es := Entries(sc, ids, seqNo);
    var after := CommitAll(m, es);
    forall id | id in Elements(ids)
      ensures id in after && after[id] == Held(sc.cache[id], sc.analytics(id), seqNo)
    {
      var i :| 0 <= i < |ids| && ids[i] == id;
      CommitAt(m, es, i);
    }
    forall id | id !in Elements(ids)
      ensures (id in after <==> id in m) && (id in m ==> after[id] == m[id])
    {
      CommitElse(m, es, id);
    }
  }

  /** After a round the client holds the chosen nodes as they were, and everything shown before. */
  lemma RoundEffect(st: Stream, k: nat, r: Round)
    requires k >= 1 && IsRound(st, k, r)
    ensures HoldsChunk(Pruned(st, r.sc).acked, AfterRound(st, r).acked, r.sc, r.ids, r.seqNo)
    ensures AfterRound(st, r).inFlight == [] && AfterRound(st, r).timeouts == 0
  {
    var p := Pruned(st, r.sc);
    AckOfLastSend(p, r.seqNo, r.now, Entries(r.sc, r.ids, r.seqNo));
    CommitChunk(p.acked, r.sc, r.ids, r.seqNo);
  }

  /** Forgetting nodes that are not shown changes no candidate. */
  lemma PruneKeepsCandidates(st: Stream, sc: Scene)
    ensures CandidateIds(Pruned(st, sc), sc) == CandidateIds(st, sc)
    ensures forall id :: id in Shown(sc) ==> Age(Pruned(st, sc), id) == Age(st, id)
  {
    forall id | id in sc.cache ensures IsCandidate(Pruned(st, sc), sc, id) <==> IsCandidate(st, sc, id) {
      if sc.visible(id) && id in st.acked {
        assert Pruned(st, sc).acked[id] == st.acked[id];
      }
    }
  }

  lemma PruneKeepsSeniors(st: Stream, sc: Scene, x: NodeId)
    requires x in Shown(sc)
    ensures Seniors(Pruned(st, sc), Shown(sc), x) == Seniors(st, Shown(sc), x)
  {
    PruneKeepsCandidates(st, sc);
  }

  // ----- convergence --------------------------------------------------------------------------

  /** Nodes just committed as they are now are settled; no other node changes status. */
  lemma ChunkSettles(p: Stream, after: Stream, sc: Scene, ids: seq<NodeId>, seqNo: nat)
    requires HoldsChunk(p.acked, after.acked, sc, ids, seqNo)
    ensures CandidateIds(after, sc) == CandidateIds(p, sc) - Elements(ids)
  {
    forall id | id in sc.cache
      ensures IsCandidate(after, sc, id) <==> IsCandidate(p, sc, id) && id !in Elements(ids)
    {
      if id in Elements(ids) {
        assert Dist2(sc.cache[id], after.acked[id].pos) == 0.0;
      }
    }
  }

  /** In an unchanging scene a round settles exactly the nodes it sent. */
  lemma RoundSettles(st: Stream, k: nat, r: Round, after: Stream)
    requires k >= 1 && IsStep(k, st, r, after)
    ensures Settles(CandidateIds(st, r.sc), r.ids, CandidateIds(after, r.sc), k)
  {
    RoundEffect(st, k, r);
    PruneKeepsCandidates(st, r.sc);
    PlanSize(Pruned(st, r.sc), r.sc, k, r.ids);
    ChunkSettles(Pruned(st, r.sc), after, r.sc, r.ids, r.seqNo);
    DistinctElements(r.ids);
  }

  /** `ids` lists `min(k, all)` elements of `all`, each once, and `left` is the others. */
  ghost predicate Settles(all: set<NodeId>, ids: seq<NodeId>, left: set<NodeId>, k: nat) {
    && NoDuplicates(ids)
    && Elements(ids) <= all
    && left == all - Elements(ids)
    && |ids| == Min(k, |all|)
    && |left| == |all| - |ids|
  }

  /** Everything sent by a list of chunks, in order. */
  ghost function Delivered(chunks: seq<seq<NodeId>>): seq<NodeId> {
    if chunks == [] then [] else Delivered(chunks[..|chunks| - 1]) + chunks[|chunks| - 1]
  }

  lemma JoinLists(a: seq<NodeId>, b: seq<NodeId>)
    requires NoDuplicates(a) && NoDuplicates(b) && Elements(a) !! Elements(b)
    ensures NoDuplicates(a + b) && Elements(a + b) == Elements(a) + Elements(b)
  {
    forall i, j | 0 <= i < j < |a + b| ensures (a + b)[i] != (a + b)[j] {
      assert i < |a| ==> a[i] in Elements(a);
      assert j >= |a| ==> b[j - |a|] in Elements(b);
    }
  }

  /** `sent` is part of `all`, each element once, `left` is the others, and `sent` has `min(all, budget)`. */
  ghost predicate Progress(all: set<NodeId>, sent: seq<NodeId>, left: set<NodeId>, budget: int) {
    && NoDuplicates(sent)
    && left <= all
    && Elements(sent) == all - left
    && |left| == |all| - |sent|
    && |sent| == if |all| <= budget then |all| else budget
  }

  lemma ProgressStep(all: set<NodeId>, sent: seq<NodeId>, left: set<NodeId>, budget: int,
                     ids: seq<NodeId>, left': set<NodeId>, k: nat)
    requires Progress(all, sent, left, budget) && Settles(left, ids, left', k)
    ensures Progress(all, sent + ids, left', budget + k)
  {
    JoinLists(sent, ids);
  }

  /** `left[i]` is what still needs sending before chunk `i`. */
  ghost predicate SettleRun(k: nat, left: seq<set<NodeId>>, chunks: seq<seq<NodeId>>) {
    && |left| == |chunks| + 1
    && forall i :: 0 <= i < |chunks| ==> Settles(left[i], chunks[i], left[i + 1], k)
  }

  /**
   Progress of the sync: after `m` chunks, exactly `min(n, m * k)` of the `n` initial candidates have
   been delivered, none of them twice, and only the others remain.
   */
  lemma {:induction false} SyncProgress(k: nat, left: seq<set<NodeId>>, chunks: seq<seq<NodeId>>, m: nat)
    requires SettleRun(k, left, chunks) && m <= |chunks|
    ensures Progress(left[0], Delivered(chunks[..m]), left[m], Times(m, k))
  {
    if m == 0 {
      assert Elements<NodeId>([]) == {};
    } else {
      SyncProgress(k, left, chunks, m - 1);
      ProgressStep(left[0], Delivered(chunks[..m - 1]), left[m - 1], Times(m - 1, k), chunks[m - 1], left[m], k);
      assert chunks[..m][..m - 1] == chunks[..m - 1];
    }
  }

  lemma SettleRunConverges(k: nat, left: seq<set<NodeId>>, chunks: seq<seq<NodeId>>)
    requires k >= 1 && SettleRun(k, left, chunks)
    requires forall i :: 0 <= i < |chunks| ==> chunks[i] != []
    ensures left[|chunks|] == {} <==> |chunks| == Portions(|left[0]|, k)
    ensures left[|chunks|] == {} ==> NoDuplicates(Delivered(chunks)) && Elements(Delivered(chunks)) == left[0]
  {
    var m := |chunks|;
    SyncProgress(k, left, chunks, m);
    assert chunks[..m] == chunks;
    if m > 0 {
      SyncProgress(k, left, chunks, m - 1);
      NeededRound(left[0], Delivered(chunks[..m - 1]), left[m - 1], Times(m - 1, k), chunks[m - 1], left[m], k);
    }
    QuietIff(k, m, left[0], Delivered(chunks), left[m]);
  }

  lemma QuietIff(k: nat, m: nat, all: set<NodeId>, sent: seq<NodeId>, left: set<NodeId>)
    requires k >= 1 && Progress(all, sent, left, Times(m, k))
    requires m > 0 ==> |all| > Times(m - 1, k)
    ensures left == {} <==> m == Portions(|all|, k)
    ensures left == {} ==> NoDuplicates(sent) && Elements(sent) == all
  {
    PortionsIff(|all|, k, m);
    assert left == {} <==> |all| <= Times(m, k);
  }

  ghost function Chunks(rounds: seq<Round>): seq<seq<NodeId>> {
    seq(|rounds|, i requires 0 <= i < |rounds| => rounds[i].ids)
  }

  /**
   Convergence: when nothing changes and every round sends something, the stream goes quiet after
   exactly `ceil(n / k)` rounds and not before, having delivered each initial candidate exactly once.
   */
  lemma SyncConverges(k: nat, sc: Scene, states: seq<Stream>, rounds: seq<Round>)
    requires k >= 1 && IsRun(k, states, rounds)
    requires forall i :: 0 <= i < |rounds| ==> rounds[i].sc == sc && rounds[i].ids != []
    ensures CandidateIds(states[|rounds|], sc) == {} <==>
            |rounds| == Portions(|CandidateIds(states[0], sc)|, k)
    ensures CandidateIds(states[|rounds|], sc) == {} ==>
            && NoDuplicates(Delivered(Chunks(rounds)))
            && Elements(Delivered(Chunks(rounds))) == CandidateIds(states[0], sc)
  {
    var left := seq(|states|, i requires 0 <= i < |states| => CandidateIds(states[i], sc));
    forall i | 0 <= i < |rounds| ensures Settles(left[i], Chunks(rounds)[i], left[i + 1], k) {
      RoundSettles(states[i], k, rounds[i], states[i + 1]);
    }
    SettleRunConverges(k, left, Chunks(rounds));
  }

  /** A round that sends something was needed: the budget before it did not cover everything. */
  lemma NeededRound(all: set<NodeId>, sent: seq<NodeId>, left: set<NodeId>, budget: int,
                    ids: seq<NodeId>, left': set<NodeId>, k: nat)
    requires Progress(all, sent, left, budget) && Settles(left, ids, left', k) && ids != []
    ensures |all| > budget
  {
    assert ids[0] in Elements(ids);
    assert ids[0] in left;
  }

  // ----- fairness -----------------------------------------------------------------------------

  /** Shown nodes that have waited longer than `x`. */
  ghost function Seniors(st: Stream, shown: set<NodeId>, x: NodeId): set<NodeId> {
    set u | u in shown && (Age(st, u) < Age(st, x) || (Age(st, u) == Age(st, x) && u < x))
  }

  /** Serving `waited`, all senior to `x`, leaves `x` with that many fewer seniors. */
  lemma SeniorsShrink(p: Stream, after: Stream, sc: Scene, ids: seq<NodeId>, seqNo: nat, waited: set<NodeId>, x: NodeId)
    requires HoldsChunk(p.acked, after.acked, sc, ids, seqNo)
    requires x in Shown(sc) && x !in Elements(ids) && Age(p, x) < seqNo
    requires waited <= Elements(ids) && waited <= Seniors(p, Shown(sc), x)
    ensures |Seniors(after, Shown(sc), x)| + |waited| <= |Seniors(p, Shown(sc), x)|
  {
    var old', new' := Seniors(p, Shown(sc), x), Seniors(after, Shown(sc), x);
    assert Age(after, x) == Age(p, x);
    forall u | u in new' ensures u in old' - waited {
      assert u in Elements(ids) ==> Age(after, u) == seqNo;
      assert u !in Elements(ids) ==> Age(after, u) == Age(p, u);
    }
    SubsetSize(new', old' - waited);
  }

  /** Whoever comes before `x` by age among shown nodes is senior to it. */
  lemma BeforeByAgeIsSenior(p: Stream, sc: Scene, u: NodeId, x: NodeId)
    requires u in Shown(sc) && x in Shown(sc) && Before(ByAge, Rank(p, sc, u), Rank(p, sc, x))
    ensures u in Seniors(p, Shown(sc), x)
  {
  }

  /** A round that passes `x` over serves a full fair share of nodes senior to it. */
  lemma FairShareServed(p: Stream, sc: Scene, k: nat, movers: set<NodeId>, waited: set<NodeId>, x: NodeId)
    requires k >= 1 && ChosenBy(p, sc, k, movers, waited)
    requires x in CandidateIds(p, sc) && x !in movers && x !in waited
    ensures |waited| == FairShare(k) && waited <= Seniors(p, Shown(sc), x)
  {
    forall u | u in waited ensures u in Seniors(p, Shown(sc), x) {
      BeforeByAgeIsSenior(p, sc, u, x);
    }
  }

  /** Passing a candidate over means the chunk was full. */
  lemma FullChunk(p: Stream, sc: Scene, k: nat, ids: seq<NodeId>, x: NodeId)
    returns (movers: set<NodeId>, waited: set<NodeId>)
    requires k >= 1 && IsPlan(p, sc, k, ids)
    requires x in CandidateIds(p, sc) && x !in Elements(ids)
    ensures ChosenBy(p, sc, k, movers, waited) && Elements(ids) == movers + waited
  {
    movers, waited :| ChosenBy(p, sc, k, movers, waited) && Elements(ids) == movers + waited;
  }

  lemma PlanPassesOver(p: Stream, after: Stream, sc: Scene, k: nat, ids: seq<NodeId>, seqNo: nat, x: NodeId)
    requires k >= 1 && IsPlan(p, sc, k, ids) && HoldsChunk(p.acked, after.acked, sc, ids, seqNo)
    requires x in CandidateIds(p, sc) && x !in Elements(ids) && Age(p, x) < seqNo
    ensures |Seniors(after, Shown(sc), x)| + FairShare(k) <= |Seniors(p, Shown(sc), x)|
  {
    var movers, waited := FullChunk(p, sc, k, ids, x);
    FairShareServed(p, sc, k, movers, waited, x);
    SeniorsShrink(p, after, sc, ids, seqNo, waited, x);
  }

  lemma PassedOver(k: nat, st: Stream, r: Round, after: Stream, x: NodeId)
    requires k >= 1 && IsStep(k, st, r, after)
    requires x in CandidateIds(st, r.sc) && x !in Elements(r.ids)
    ensures |Seniors(after, Shown(r.sc), x)| + FairShare(k) <= |Seniors(st, Shown(r.sc), x)|
  {
    PruneKeepsCandidates(st, r.sc);
    RoundEffect(st, k, r);
    PlanPassesOver(Pruned(st, r.sc), after, r.sc, k, r.ids, r.seqNo, x);
    PruneKeepsSeniors(st, r.sc, x);
  }

  /** A count that drops by `f` every time something is missed cannot be missed `n` times. */
  lemma {:induction false} CountDown(counts: seq<nat>, f: nat, n: nat)
    requires |counts| == n + 1 && forall i :: 0 <= i < n ==> counts[i + 1] + f <= counts[i]
    ensures n * f <= counts[0]
  {
    if n > 0 {
      CountDown(counts[1..], f, n - 1);
      assert n * f == (n - 1) * f + f;
    }
  }

  lemma DivBound(s: nat, f: nat)
    requires f >= 1
    ensures s < (s / f + 1) * f
  {
  }

  /**
   Bounded wait: over acknowledged rounds with a fixed set of shown nodes, whatever moves and however
   far, a node that keeps needing to be sent is sent within `floor(seniors / floor(k / 4)) + 1` rounds.
   */
  lemma BoundedWait(k: nat, shown: set<NodeId>, states: seq<Stream>, rounds: seq<Round>, x: NodeId)
    requires k >= 4 && IsRun(k, states, rounds)
    requires forall i :: 0 <= i < |rounds| ==> Shown(rounds[i].sc) == shown
    requires forall i :: 0 <= i < |rounds| ==> x in CandidateIds(states[i], rounds[i].sc)
    requires |rounds| > |Seniors(states[0], shown, x)| / (k / 4)
    ensures exists i :: 0 <= i <= |Seniors(states[0], shown, x)| / (k / 4) && x in Elements(rounds[i].ids)
  {
    FairShareIsQuarter(k);
    var f := FairShare(k);
    assert f == k / 4;
    var n := |Seniors(states[0], shown, x)| / f + 1;
    DivBound(|Seniors(states[0], shown, x)|, f);
    if forall i :: 0 <= i < n ==> x !in Elements(rounds[i].ids) {
      SeniorsCountDown(k, shown, states, rounds, x, n);
      assert false;
    }
  }

  /** Passed over `n` times, a node has lost `n` fair shares of its seniors. */
  lemma SeniorsCountDown(k: nat, shown: set<NodeId>, states: seq<Stream>, rounds: seq<Round>, x: NodeId, n: nat)
    requires k >= 4 && IsRun(k, states, rounds) && n <= |rounds|
    requires forall i :: 0 <= i < |rounds| ==> Shown(rounds[i].sc) == shown
    requires forall i :: 0 <= i < |rounds| ==> x in CandidateIds(states[i], rounds[i].sc)
    requires forall i :: 0 <= i < n ==> x !in Elements(rounds[i].ids)
    ensures |Seniors(states[0], shown, x)| >= n * FairShare(k)
  {
    var counts := seq(n + 1, i requires 0 <= i < n + 1 => |Seniors(states[i], shown, x)|);
    forall i | 0 <= i < n ensures counts[i + 1] + FairShare(k) <= counts[i] {
      PassedOver(k, states[i], rounds[i], states[i + 1], x);
    }
    CountDown(counts, FairShare(k), n);
  }
}
