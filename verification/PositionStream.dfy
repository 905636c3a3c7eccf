/**
 Per-client acknowledged position streaming (src/actors/position_stream.rs).

 `Stream` is the value of one client's stream state, the `After...` functions say what each
 operation does to it, and `ClientStream` is the object that updates its fields in place.
 Positions are real triples, time is a natural number of clock units, and "infinitely displaced"
 (never sent) is its own constructor of `Displacement`.
 */
module PositionStream {
  import opened Basics

  const IN_FLIGHT_HISTORY: nat := 8
  const FAIR_SHARE_DIVISOR: nat := 4
  const MAX_BACKOFF_DOUBLINGS: nat := 3

  type NodeId = nat

  datatype Point = Point(x: real, y: real, z: real)

  /** The analytics riding on each record, compared bit for bit. */
  datatype Analytics = Analytics(cluster: nat, community: nat, anomaly: nat, centrality: nat)

  datatype Held = Held(pos: Point, key: Analytics, seqNo: nat)

  /** One node record of a chunk: the node and what the client will hold for it. */
  datatype Entry = Entry(id: NodeId, held: Held)

  datatype InFlight = InFlight(seqNo: nat, sentAt: nat, nodes: seq<Entry>)

  datatype Stream = Stream(acked: map<NodeId, Held>, inFlight: seq<InFlight>, timeouts: nat)

  const FreshStream := Stream(map[], [], 0)

  /** What planning reads: cached positions, the client's visibility test, analytics, threshold. */
  datatype Scene = Scene(
    cache: map<NodeId, Point>,
    visible: NodeId -> bool,
    analytics: NodeId -> Analytics,
    threshold: real)

  datatype Displacement = Finite(d2: real) | Infinite

  /** The sort key the planner builds for one candidate. */
  datatype Candidate = Candidate(disp: Displacement, age: nat, id: NodeId)

  datatype Order = ByMove | ByAge

  function Dist2(a: Point, b: Point): real {
    (a.x - b.x) * (a.x - b.x) + (a.y - b.y) * (a.y - b.y) + (a.z - b.z) * (a.z - b.z)
  }

  function Square(d: real): real {
    d * d
  }

  lemma Product(a: real, b: real, p: real)
    requires a > 0.0 && b > 0.0 && p == a * b
    ensures p > 0.0
  {
  }

  lemma SquareSign(d: real)
    ensures Square(-d) == Square(d)
    ensures Square(d) >= 0.0 && (d == 0.0 <==> Square(d) == 0.0)
  {
    if d > 0.0 {
      Product(d, d, Square(d));
    } else if d < 0.0 {
      Product(-d, -d, Square(d));
    }
  }

  lemma SumOfSquares(a: Point, b: Point)
    ensures Dist2(a, b) == Square(a.x - b.x) + Square(a.y - b.y) + Square(a.z - b.z)
  {
  }

  /**
   What the distance is: zero exactly between equal points, at least the square of what any coordinate
   differs by, the square of a move along one axis, and the sum of moves along the three axes in turn.
   */
  lemma DistanceLaws(a: Point, b: Point, d: real)
    ensures Dist2(a, b) == 0.0 <==> a == b
    ensures Dist2(a, b) >= Square(a.x - b.x) && Dist2(a, b) >= Square(a.y - b.y) && Dist2(a, b) >= Square(a.z - b.z)
    ensures Dist2(a, a.(x := a.x + d)) == Dist2(a, a.(y := a.y + d)) == Dist2(a, a.(z := a.z + d)) == Square(d)
    ensures Dist2(a, b) == Dist2(a, a.(x := b.x)) + Dist2(a.(x := b.x), b.(z := a.z)) + Dist2(b.(z := a.z), b)
  {
    SumOfSquares(a, b);
    SquareSign(a.x - b.x);
    SquareSign(a.y - b.y);
    SquareSign(a.z - b.z);
    AlongOneAxis(a, d);
    AxisByAxis(a, b);
  }

  lemma AlongOneAxis(a: Point, d: real)
    ensures Dist2(a, a.(x := a.x + d)) == Dist2(a, a.(y := a.y + d)) == Dist2(a, a.(z := a.z + d)) == Square(d)
  {
  }

  lemma AxisByAxis(a: Point, b: Point)
    ensures Dist2(a, b) == Dist2(a, a.(x := b.x)) + Dist2(a.(x := b.x), b.(z := a.z)) + Dist2(b.(z := a.z), b)
  {
  }

  predicate Within(a: real, b: real, t: real) {
    b - t <= a <= b + t
  }

  /** In no coordinate do the points differ by more than `t`. */
  predicate WithinEach(a: Point, b: Point, t: real) {
    Within(a.x, b.x, t) && Within(a.y, b.y, t) && Within(a.z, b.z, t)
  }

  lemma SquareOver(d: real, t: real)
    requires d > t >= 0.0
    ensures Square(d) > Square(t)
  {
    Product(d - t, d + t, Square(d) - Square(t));
  }

  lemma SquareGrows(d: real, t: real)
    requires t >= 0.0 && Square(d) <= Square(t)
    ensures -t <= d <= t
  {
    SquareSign(d);
    if d > t {
      SquareOver(d, t);
    } else if -d > t {
      SquareOver(-d, t);
    }
  }

  lemma CloseInEach(a: Point, b: Point, t: real)
    requires t >= 0.0 && (Dist2(a, b) <= t * t || Dist2(a, b) <= 0.0)
    ensures WithinEach(a, b, t)
  {
    DistanceLaws(a, b, 0.0);
    SquareSign(t);
    assert Square(t) == t * t;
    SquareGrows(a.x - b.x, t);
    SquareGrows(a.y - b.y, t);
    SquareGrows(a.z - b.z, t);
  }

  /** Strictly larger displacement; never-sent nodes beat every finite one. */
  predicate Farther(a: Displacement, b: Displacement) {
    match (a, b)
    case (Infinite, Finite(_)) => true
    case (Finite(x), Finite(y)) => x > y
    case _ => false
  }

  /** The two strict orders of the planner: biggest move first, longest wait first. Ties by id. */
  predicate Before(o: Order, a: Candidate, b: Candidate) {
    match o
    case ByMove => Farther(a.disp, b.disp) || (a.disp == b.disp && a.id < b.id)
    case ByAge => a.age < b.age || (a.age == b.age && a.id < b.id)
  }

  // ----- candidates ---------------------------------------------------------------------------

  /** Nodes the client may be told about at all. */
  function Shown(sc: Scene): set<NodeId> {
    set id | id in sc.cache && sc.visible(id)
  }

  /** The node is farther than the threshold from what the client acknowledged. */
  predicate Moved(st: Stream, sc: Scene, id: NodeId)
    requires id in sc.cache && id in st.acked
  {
    var d2 := Dist2(sc.cache[id], st.acked[id].pos);
    d2 > sc.threshold * sc.threshold && d2 > 0.0
  }

  predicate IsCandidate(st: Stream, sc: Scene, id: NodeId) {
    && id in sc.cache
    && sc.visible(id)
    && (id !in st.acked || Moved(st, sc, id) || sc.analytics(id) != st.acked[id].key)
  }

  function CandidateIds(st: Stream, sc: Scene): set<NodeId> {
    set id | id in sc.cache && IsCandidate(st, sc, id)
  }

  /** How long a node has waited: the chunk it was last acknowledged in, 0 when never. */
  function Age(st: Stream, id: NodeId): nat {
    if id in st.acked then st.acked[id].seqNo else 0
  }

  function Rank(st: Stream, sc: Scene, id: NodeId): Candidate
    requires id in sc.cache
  {
    if id !in st.acked then Candidate(Infinite, 0, id)
    else if Moved(st, sc, id) then Candidate(Finite(Dist2(sc.cache[id], st.acked[id].pos)), Age(st, id), id)
    else Candidate(Finite(0.0), Age(st, id), id)
  }

  // ----- the declarative plan -----------------------------------------------------------------

  function ChunkSize(chunkNodes: nat): (k: nat)
    ensures k >= 1 && (chunkNodes >= 1 ==> k == chunkNodes) && (chunkNodes == 0 ==> k == 1)
  {
    Max(chunkNodes, 1)
  }

  /** The part of a chunk of `k` reserved for the longest-waiting candidates. */
  function FairShare(k: nat): (f: nat)
    ensures k >= 1 ==> f < k
    ensures k >= 4 ==> f >= 1
  {
    if k == 0 then 0 else Min(k / FAIR_SHARE_DIVISOR, k - 1)
  }

  /** `t` is the `n` first elements of `s` in order `o`. */
  ghost predicate First(o: Order, st: Stream, sc: Scene, s: set<NodeId>, t: set<NodeId>, n: nat)
    requires s <= sc.cache.Keys
  {
    && t <= s
    && |t| == n
    && forall a, b :: a in t && b in s && b !in t ==> Before(o, Rank(st, sc, a), Rank(st, sc, b))
  }

  ghost predicate ChosenBy(st: Stream, sc: Scene, k: nat, movers: set<NodeId>, waited: set<NodeId>)
    requires k >= 1
  {
    var all := CandidateIds(st, sc);
    && First(ByMove, st, sc, all, movers, k - FairShare(k))
    && First(ByAge, st, sc, all - movers, waited, FairShare(k))
  }

  /** Everything when it fits; otherwise the biggest movers plus the longest-waiting of the rest. */
  ghost predicate Chosen(st: Stream, sc: Scene, k: nat, ids: set<NodeId>)
    requires k >= 1
  {
    var all := CandidateIds(st, sc);
    if |all| <= k then ids == all
    else exists movers, waited :: ChosenBy(st, sc, k, movers, waited) && ids == movers + waited
  }

  ghost predicate SortedByMove(st: Stream, sc: Scene, ids: seq<NodeId>)
    requires Elements(ids) <= sc.cache.Keys
  {
    forall i, j :: 0 <= i < j < |ids| ==> Before(ByMove, Rank(st, sc, ids[i]), Rank(st, sc, ids[j]))
  }

  /** What a plan is: the chosen candidates, each once, most displaced first. */
  ghost predicate IsPlan(st: Stream, sc: Scene, k: nat, ids: seq<NodeId>)
    requires k >= 1
  {
    && NoDuplicates(ids)
    && Elements(ids) <= CandidateIds(st, sc)
    && Chosen(st, sc, k, Elements(ids))
    && SortedByMove(st, sc, ids)
  }

  // ----- the specification is exact -----------------------------------------------------------

  lemma BeforeAsymmetric(o: Order, a: Candidate, b: Candidate)
    ensures !(Before(o, a, b) && Before(o, b, a))
  {
  }

  /** At most one set is "the first `n`". */
  lemma FirstUnique(o: Order, st: Stream, sc: Scene, s: set<NodeId>, t: set<NodeId>, u: set<NodeId>, n: nat)
    requires s <= sc.cache.Keys
    requires First(o, st, sc, s, t, n) && First(o, st, sc, s, u, n)
    ensures t == u
  {
    if t != u {
      if t <= u { SubsetOfEqualSize(t, u); }
      if u <= t { SubsetOfEqualSize(u, t); }
      var a :| a in t && a !in u;
      var b :| b in u && b !in t;
      BeforeAsymmetric(o, Rank(st, sc, a), Rank(st, sc, b));
    }
  }

  lemma ChosenUnique(st: Stream, sc: Scene, k: nat, x: set<NodeId>, y: set<NodeId>)
    requires k >= 1
    requires Chosen(st, sc, k, x) && Chosen(st, sc, k, y)
    ensures x == y
  {
    var all := CandidateIds(st, sc);
    if |all| > k {
      var m1, w1 :| ChosenBy(st, sc, k, m1, w1) && x == m1 + w1;
      var m2, w2 :| ChosenBy(st, sc, k, m2, w2) && y == m2 + w2;
      FirstUnique(ByMove, st, sc, all, m1, m2, k - FairShare(k));
      FirstUnique(ByAge, st, sc, all - m1, w1, w2, FairShare(k));
    }
  }

  /** Two strictly sorted listings of the same set are the same list. */
  lemma {:induction false} SortedUnique(st: Stream, sc: Scene, p: seq<NodeId>, q: seq<NodeId>)
    requires Elements(p) == Elements(q) <= sc.cache.Keys
    requires SortedByMove(st, sc, p) && SortedByMove(st, sc, q)
    ensures p == q
  {
    if p == [] {
      HeadElement(q);
    } else {
      assert p[0] in Elements(q);
      assert q[0] in Elements(p) by { assert q != []; }
      var i :| 0 <= i < |q| && q[i] == p[0];
      var j :| 0 <= j < |p| && p[j] == q[0];
      BeforeAsymmetric(ByMove, Rank(st, sc, q[0]), Rank(st, sc, p[0]));
      assert p[0] == q[0];
      TailElements(st, sc, p);
      TailElements(st, sc, q);
      SortedUnique(st, sc, p[1..], q[1..]);
      assert p == [p[0]] + p[1..] && q == [q[0]] + q[1..];
    }
  }

  lemma TailElements(st: Stream, sc: Scene, p: seq<NodeId>)
    requires p != [] && Elements(p) <= sc.cache.Keys && SortedByMove(st, sc, p)
    ensures Elements(p[1..]) == Elements(p) - {p[0]}
    ensures SortedByMove(st, sc, p[1..])
  {
    forall x ensures x in Elements(p[1..]) <==> x in Elements(p) - {p[0]} {
      if x in p[1..] {
        var i :| 0 <= i < |p| - 1 && p[1..][i] == x;
        assert Before(ByMove, Rank(st, sc, p[0]), Rank(st, sc, p[i + 1]));
      }
      if x in p && x != p[0] {
        var i :| 0 <= i < |p| && p[i] == x;
        assert p[1..][i - 1] == x;
      }
    }
  }

  /** The plan is a function of the state: hash-map iteration order cannot show through. */
  lemma PlanUnique(st: Stream, sc: Scene, k: nat, p: seq<NodeId>, q: seq<NodeId>)
    requires k >= 1
    requires IsPlan(st, sc, k, p) && IsPlan(st, sc, k, q)
    ensures p == q
  {
    ChosenUnique(st, sc, k, Elements(p), Elements(q));
    SortedUnique(st, sc, p, q);
  }

  /** The scenes agree on everything planning asks of them. */
  ghost predicate Agree(a: Scene, b: Scene) {
    && a.cache == b.cache
    && a.threshold == b.threshold
    && forall id :: id in a.cache ==> a.visible(id) == b.visible(id) && a.analytics(id) == b.analytics(id)
  }

  lemma RankCongruent(st: Stream, a: Scene, b: Scene, id: NodeId)
    requires Agree(a, b) && id in a.cache
    ensures Rank(st, a, id) == Rank(st, b, id)
    ensures IsCandidate(st, a, id) == IsCandidate(st, b, id)
  {
  }

  lemma FirstCongruent(o: Order, st: Stream, a: Scene, b: Scene, s: set<NodeId>, t: set<NodeId>, n: nat)
    requires Agree(a, b) && s <= a.cache.Keys && First(o, st, a, s, t, n)
    ensures First(o, st, b, s, t, n)
  {
    forall x, y | x in t && y in s && y !in t ensures Before(o, Rank(st, b, x), Rank(st, b, y)) {
      RankCongruent(st, a, b, x);
      RankCongruent(st, a, b, y);
    }
  }

  lemma CandidatesCongruent(st: Stream, a: Scene, b: Scene)
    requires Agree(a, b)
    ensures CandidateIds(st, a) == CandidateIds(st, b)
  {
    forall id | id in a.cache ensures IsCandidate(st, a, id) == IsCandidate(st, b, id) {
      RankCongruent(st, a, b, id);
    }
  }

  lemma ChosenCongruent(st: Stream, a: Scene, b: Scene, k: nat, ids: set<NodeId>)
    requires k >= 1 && Agree(a, b) && Chosen(st, a, k, ids)
    ensures Chosen(st, b, k, ids)
  {
    CandidatesCongruent(st, a, b);
    var all := CandidateIds(st, a);
    if |all| > k {
      var m, w :| ChosenBy(st, a, k, m, w) && ids == m + w;
      FirstCongruent(ByMove, st, a, b, all, m, k - FairShare(k));
      FirstCongruent(ByAge, st, a, b, all - m, w, FairShare(k));
      assert ChosenBy(st, b, k, m, w);
    }
  }

  /** Planning depends on the visibility test only through its answers. */
  lemma PlanCongruent(st: Stream, a: Scene, b: Scene, k: nat, ids: seq<NodeId>)
    requires k >= 1 && Agree(a, b) && IsPlan(st, a, k, ids)
    ensures IsPlan(st, b, k, ids)
  {
    CandidatesCongruent(st, a, b);
    ChosenCongruent(st, a, b, k, Elements(ids));
    forall i, j | 0 <= i < j < |ids|
      ensures ids[i] in b.cache && ids[j] in b.cache && Before(ByMove, Rank(st, b, ids[i]), Rank(st, b, ids[j]))
    {
      assert ids[i] in Elements(ids) && ids[j] in Elements(ids);
      RankCongruent(st, a, b, ids[i]);
      RankCongruent(st, a, b, ids[j]);
    }
  }

  /** A plan holds exactly `min(k, candidates)` nodes. */
  lemma PlanSize(st: Stream, sc: Scene, k: nat, ids: seq<NodeId>)
    requires k >= 1
    requires IsPlan(st, sc, k, ids)
    ensures |ids| == Min(k, |CandidateIds(st, sc)|)
  {
    DistinctElements(ids);
    var all := CandidateIds(st, sc);
    if |all| > k {
      var m, w :| ChosenBy(st, sc, k, m, w) && Elements(ids) == m + w;
      assert m !! w;
    }
  }

  /** What the client acknowledged for a node is what would be sent now, up to the threshold. */
  ghost predicate Current(st: Stream, sc: Scene, id: NodeId)
    requires id in sc.cache
  {
    && id in st.acked
    && sc.analytics(id) == st.acked[id].key
    && (var d2 := Dist2(sc.cache[id], st.acked[id].pos); d2 <= sc.threshold * sc.threshold || d2 <= 0.0)
  }

  lemma CandidateIffNotCurrent(st: Stream, sc: Scene, id: NodeId)
    requires id in Shown(sc)
    ensures id in CandidateIds(st, sc) <==> !Current(st, sc, id)
  {
  }

  /** Nothing is planned exactly when every shown node is current for this client. */
  lemma PlanEmptyIffCurrent(st: Stream, sc: Scene, k: nat, ids: seq<NodeId>)
    requires k >= 1
    requires IsPlan(st, sc, k, ids)
    ensures ids == [] <==> forall id :: id in Shown(sc) ==> Current(st, sc, id)
  {
    PlanSize(st, sc, k, ids);
    forall id | id in Shown(sc) ensures id in CandidateIds(st, sc) <==> !Current(st, sc, id) {
      CandidateIffNotCurrent(st, sc, id);
    }
    if ids != [] {
      assert ids[0] in Elements(ids);
      assert ids[0] in Shown(sc);
    }
  }

  /** In coordinates: with nothing planned no shown node is off by more than the threshold on any axis. */
  lemma QuietInCoordinates(st: Stream, sc: Scene, k: nat, id: NodeId)
    requires k >= 1 && IsPlan(st, sc, k, []) && id in sc.cache && sc.visible(id) && sc.threshold >= 0.0
    ensures id in st.acked && st.acked[id].key == sc.analytics(id)
    ensures WithinEach(sc.cache[id], st.acked[id].pos, sc.threshold)
  {
    PlanEmptyIffCurrent(st, sc, k, []);
    assert id in Shown(sc);
    CloseInEach(sc.cache[id], st.acked[id].pos, sc.threshold);
  }

  /** A node that moved along one axis, and by more than the threshold, is planned or waits for room. */
  lemma MoveIsCandidate(st: Stream, sc: Scene, id: NodeId, d: real)
    requires id in sc.cache && sc.visible(id) && id in st.acked && sc.threshold >= 0.0
    requires d > sc.threshold || d < -sc.threshold
    requires var p := st.acked[id].pos;
             sc.cache[id] in {p.(x := p.x + d), p.(y := p.y + d), p.(z := p.z + d)}
    ensures id in CandidateIds(st, sc)
  {
    var p := st.acked[id].pos;
    DistanceLaws(p, p, d);
    DistanceSymmetric(sc.cache[id], p);
    SquareSign(d);
    assert Square(sc.threshold) == sc.threshold * sc.threshold;
    SquareSign(sc.threshold);
    if Square(d) <= Square(sc.threshold) {
      SquareGrows(d, sc.threshold);
    }
  }

  lemma DistanceSymmetric(a: Point, b: Point)
    ensures Dist2(a, b) == Dist2(b, a)
  {
  }

  /** How a plan is ordered, in terms of the client: what it never had by id, then what it is farthest off in. */
  lemma PlanOrder(st: Stream, sc: Scene, k: nat, ids: seq<NodeId>, i: nat, j: nat)
    requires k >= 1 && IsPlan(st, sc, k, ids) && i < j < |ids|
    ensures ids[i] in sc.cache && ids[j] in sc.cache
    ensures ids[j] !in st.acked ==> ids[i] !in st.acked && ids[i] < ids[j]
    ensures ids[i] in st.acked && ids[j] in st.acked ==>
              var x, y := Offset(st, sc, ids[i]), Offset(st, sc, ids[j]); x > y || (x == y && ids[i] < ids[j])
  {
    assert ids[i] in Elements(ids) && ids[j] in Elements(ids);
  }

  /** How far the client is off, squared; nothing if it is within the threshold. */
  function Offset(st: Stream, sc: Scene, id: NodeId): real
    requires id in sc.cache && id in st.acked
  {
    var d2 := Dist2(sc.cache[id], st.acked[id].pos);
    if d2 <= sc.threshold * sc.threshold then 0.0 else d2
  }

  /** The reserved share is a quarter of the chunk, rounded down. */
  lemma FairShareIsQuarter(k: nat)
    requires k >= 1
    ensures 4 * FairShare(k) <= k < 4 * FairShare(k) + 4
  {
  }

  // ----- what each operation does -------------------------------------------------------------

  /** The wait before an unacknowledged chunk is replaced. */
  function EffectiveTimeout(st: Stream, ackTimeout: nat): (wait: nat)
    ensures ackTimeout <= wait <= 8 * ackTimeout
  {
    match Min(st.timeouts, MAX_BACKOFF_DOUBLINGS)
    case 0 => ackTimeout
    case 1 => 2 * ackTimeout
    case 2 => 4 * ackTimeout
    case _ => 8 * ackTimeout
  }

  /** Each consecutive timeout doubles the wait, up to eight times the timeout. */
  lemma WaitDoubles(st: Stream, ackTimeout: nat)
    ensures st.timeouts == 0 ==> EffectiveTimeout(st, ackTimeout) == ackTimeout
    ensures EffectiveTimeout(st.(timeouts := st.timeouts + 1), ackTimeout)
            == Min(2 * EffectiveTimeout(st, ackTimeout), 8 * ackTimeout)
  {
  }

  predicate IsWaiting(st: Stream, now: nat, ackTimeout: nat) {
    && st.inFlight != []
    && (var sentAt := st.inFlight[|st.inFlight| - 1].sentAt;
        (if now >= sentAt then now - sentAt else 0) < EffectiveTimeout(st, ackTimeout))
  }

  function Doubled(t: nat, n: nat): nat {
    if n == 0 then t else 2 * Doubled(t, n - 1)
  }

  /**
   Exactly how long a chunk is waited for: from its sending for one timeout, doubled once for each chunk
   that timed out before it, three times at most. Nothing is waited for when nothing is in flight.
   */
  lemma WaitsUntil(st: Stream, now: nat, ackTimeout: nat)
    ensures st.inFlight == [] ==> !IsWaiting(st, now, ackTimeout)
    ensures st.inFlight != [] && ackTimeout > 0 ==>
              (IsWaiting(st, now, ackTimeout) <==>
                now < st.inFlight[|st.inFlight| - 1].sentAt + Doubled(ackTimeout, Min(st.timeouts, 3)))
  {
    assert Doubled(ackTimeout, 1) == 2 * Doubled(ackTimeout, 0);
    assert Doubled(ackTimeout, 2) == 2 * Doubled(ackTimeout, 1);
    assert Doubled(ackTimeout, 3) == 2 * Doubled(ackTimeout, 2);
  }

  /** The records of a chunk `seqNo` holding `ids` at their current positions. */
  function Entries(sc: Scene, ids: seq<NodeId>, seqNo: nat): (es: seq<Entry>)
    requires Elements(ids) <= sc.cache.Keys
  {
    seq(|ids|, i requires 0 <= i < |ids| =>
      assert ids[i] in Elements(ids); Entry(ids[i], Held(sc.cache[ids[i]], sc.analytics(ids[i]), seqNo)))
  }

  function AfterSend(st: Stream, seqNo: nat, now: nat, nodes: seq<Entry>): Stream {
    Stream(
      st.acked,
      (if |st.inFlight| >= IN_FLIGHT_HISTORY then st.inFlight[1..] else st.inFlight)
        + [InFlight(seqNo, now, nodes)],
      if st.inFlight != [] then SaturatingInc(st.timeouts, U32_MAX) else st.timeouts)
  }

  /** The chunk on the list under `seqNo`, if any (the first one). */
  function Find(fs: seq<InFlight>, seqNo: nat): (r: Option<InFlight>)
    ensures r.None? <==> forall f :: f in fs ==> f.seqNo != seqNo
    ensures r.Some? ==> r.value in fs && r.value.seqNo == seqNo
  {
    if fs == [] then None
    else if fs[0].seqNo == seqNo then Some(fs[0])
    else Find(fs[1..], seqNo)
  }

  /** The chunks sent after `seqNo`. */
  function Newer(fs: seq<InFlight>, seqNo: nat): (r: seq<InFlight>)
    ensures |r| <= |fs|
    ensures forall f :: f in r <==> f in fs && f.seqNo > seqNo
  {
    if fs == [] then []
    else
      var front := Newer(fs[..|fs| - 1], seqNo);
      assert fs == fs[..|fs| - 1] + [fs[|fs| - 1]];
      if fs[|fs| - 1].seqNo > seqNo then front + [fs[|fs| - 1]] else front
  }

  /** One acknowledged record: an older one never overwrites a newer one. */
  function Commit(m: map<NodeId, Held>, e: Entry): map<NodeId, Held> {
    if e.id in m && m[e.id].seqNo > e.held.seqNo then m else m[e.id := e.held]
  }

  function CommitAll(m: map<NodeId, Held>, es: seq<Entry>): map<NodeId, Held> {
    if es == [] then m else Commit(CommitAll(m, es[..|es| - 1]), es[|es| - 1])
  }

  function AfterAck(st: Stream, seqNo: nat): Stream {
    match Find(st.inFlight, seqNo)
    case None => st
    case Some(f) => Stream(CommitAll(st.acked, f.nodes), Newer(st.inFlight, seqNo), 0)
  }

  /** `at` lists exactly the positions of chunks sent after `seqNo`, in order, and `kept` reads them. */
  ghost predicate Reads(fs: seq<InFlight>, seqNo: nat, at: seq<nat>, kept: seq<InFlight>) {
    && |at| == |kept|
    && (forall i, j :: 0 <= i < j < |at| ==> at[i] < at[j])
    && (forall i :: 0 <= i < |at| ==> at[i] < |fs| && kept[i] == fs[at[i]] && fs[at[i]].seqNo > seqNo)
    && (forall p :: 0 <= p < |fs| && fs[p].seqNo > seqNo ==> p in at)
  }

  lemma ReadsStep(fs: seq<InFlight>, seqNo: nat, at: seq<nat>, kept: seq<InFlight>, f: InFlight)
    requires Reads(fs, seqNo, at, kept)
    ensures f.seqNo <= seqNo ==> Reads(fs + [f], seqNo, at, kept)
    ensures f.seqNo > seqNo ==> Reads(fs + [f], seqNo, at + [|fs|], kept + [f])
  {
    var at' := at + [|fs|];
    assert at'[|at|] == |fs|;
    forall p | p in at ensures p in at' {
    }
  }

  lemma {:induction false} NewerReads(fs: seq<InFlight>, seqNo: nat) returns (at: seq<nat>)
    ensures Reads(fs, seqNo, at, Newer(fs, seqNo))
  {
    at := [];
    if fs != [] {
      var front, f := fs[..|fs| - 1], fs[|fs| - 1];
      assert fs == front + [f];
      at := NewerReads(front, seqNo);
      ReadsStep(front, seqNo, at, Newer(front, seqNo), f);
      if f.seqNo > seqNo {
        at := at + [|front|];
      }
    }
  }

  /**
   An honoured acknowledgement leaves in flight exactly the chunks sent after it, in their order, so a
   client that is merely slow can still acknowledge each of them.
   */
  lemma AckKeepsNewer(st: Stream, seqNo: nat) returns (at: seq<nat>)
    requires exists f :: f in st.inFlight && f.seqNo == seqNo
    ensures Reads(st.inFlight, seqNo, at, AfterAck(st, seqNo).inFlight) && AfterAck(st, seqNo).timeouts == 0
  {
    at := NewerReads(st.inFlight, seqNo);
  }

  function AfterRetain(st: Stream, keep: NodeId -> bool): Stream {
    st.(acked := map id | id in st.acked && keep(id) :: st.acked[id])
  }

  // ----- selection on vectors -----------------------------------------------------------------

  function Ids(v: seq<Candidate>): set<NodeId> {
    set c | c in v :: c.id
  }

  ghost predicate DistinctIds(v: seq<Candidate>) {
    forall i, j :: 0 <= i < j < |v| ==> v[i].id != v[j].id
  }

  lemma {:induction false} DistinctIdCount(v: seq<Candidate>)
    requires DistinctIds(v)
    ensures |Ids(v)| == |v|
  {
    if v != [] {
      var front := v[..|v| - 1];
      DistinctIdCount(front);
      assert v == front + [v[|v| - 1]];
      assert Ids(v) == Ids(front) + {v[|v| - 1].id};
    }
  }

  lemma BeforeTransitive(o: Order, a: Candidate, b: Candidate, c: Candidate)
    requires Before(o, a, b) && Before(o, b, c)
    ensures Before(o, a, c)
  {
  }

  lemma BeforeTotal(o: Order, a: Candidate, b: Candidate)
    requires a.id != b.id
    ensures Before(o, a, b) || Before(o, b, a)
  {
  }

  /** Where the first element of `w[lo..]` in order `o` sits. */
  method FindFirst(o: Order, w: seq<Candidate>, lo: nat) returns (m: nat)
    requires lo < |w| && DistinctIds(w)
    ensures lo <= m < |w|
    ensures forall b :: lo <= b < |w| && b != m ==> Before(o, w[m], w[b])
  {
    m := lo;
    for j := lo + 1 to |w|
      invariant lo <= m < j
      invariant forall b :: lo <= b < j && b != m ==> Before(o, w[m], w[b])
    {
      BeforeTotal(o, w[j], w[m]);
      if Before(o, w[j], w[m]) {
        forall b | lo <= b < j && b != m ensures Before(o, w[j], w[b]) {
          BeforeTransitive(o, w[j], w[m], w[b]);
        }
        m := j;
      }
    }
  }

  /** The first `n` elements are sorted and precede everything after them. */
  ghost predicate Leading(o: Order, w: seq<Candidate>, n: nat) {
    forall a, b :: 0 <= a < n && a < b < |w| ==> Before(o, w[a], w[b])
  }

  lemma SwapLeads(o: Order, w: seq<Candidate>, x: seq<Candidate>, i: nat, m: nat)
    requires i <= m < |w| && DistinctIds(w) && Leading(o, w, i)
    requires forall b :: i <= b < |w| && b != m ==> Before(o, w[m], w[b])
    requires x == w[i := w[m]][m := w[i]]
    ensures multiset(x) == multiset(w) && DistinctIds(x) && Leading(o, x, i + 1)
  {
  }

  /**
   Bring the first `n` elements in order `o` to the front, sorted. With `n == |v|` this is a sort;
   with a smaller `n` it does what `select_nth_unstable_by` promises for index `n - 1`.
   */
  method SelectFirst(o: Order, v: seq<Candidate>, n: nat) returns (w: seq<Candidate>)
    requires n <= |v| && DistinctIds(v)
    ensures multiset(w) == multiset(v) && |w| == |v| && DistinctIds(w) && Leading(o, w, n)
  {
    w := v;
    for i := 0 to n
      invariant |w| == |v| && multiset(w) == multiset(v) && DistinctIds(w) && Leading(o, w, i)
    {
      var m := FindFirst(o, w, i);
      ghost var before := w;
      w := w[i := w[m]][m := w[i]];
      SwapLeads(o, before, w, i, m);
    }
  }

  // ----- the object ---------------------------------------------------------------------------

  /** The vector lists the ids of `s`, each once and with its own rank. */
  ghost predicate Listing(st: Stream, sc: Scene, s: set<NodeId>, v: seq<Candidate>) {
    && s <= sc.cache.Keys
    && DistinctIds(v)
    && Ids(v) == s
    && (forall c :: c in v ==> c.id in s && c == Rank(st, sc, c.id))
  }

  lemma ListingPush(st: Stream, sc: Scene, s: set<NodeId>, v: seq<Candidate>, id: NodeId)
    requires Listing(st, sc, s, v) && id in sc.cache && id !in s
    ensures Listing(st, sc, s + {id}, v + [Rank(st, sc, id)])
  {
    var w := v + [Rank(st, sc, id)];
    assert Ids(w) == Ids(v) + {id};
    forall i, j | 0 <= i < j < |w| ensures w[i].id != w[j].id {
      assert w[i] in v;
      assert w[i].id in Ids(v);
    }
  }

  lemma ListingJoin(st: Stream, sc: Scene, v: seq<Candidate>, w: seq<Candidate>)
    requires Listing(st, sc, Ids(v), v) && Listing(st, sc, Ids(w), w) && Ids(v) !! Ids(w)
    ensures Listing(st, sc, Ids(v) + Ids(w), v + w)
  {
    JoinDistinct(v, w);
    assert Ids(v + w) == Ids(v) + Ids(w);
  }

  lemma SameElements(v: seq<Candidate>, w: seq<Candidate>)
    requires multiset(v) == multiset(w)
    ensures Ids(v) == Ids(w)
    ensures forall c :: c in v <==> c in w
  {
    forall c ensures c in v <==> c in w {
      assert c in multiset(v) <==> c in multiset(w);
    }
  }

  lemma BehindFront(w: seq<Candidate>, n: nat, d: Candidate)
    requires n <= |w| && d in w
    ensures d.id in Ids(w[..n]) || exists j :: n <= j < |w| && w[j] == d
  {
    var j :| 0 <= j < |w| && w[j] == d;
    if j < n {
      assert w[..n][j].id in Ids(w[..n]);
    }
  }

  lemma FrontPrecedes(o: Order, st: Stream, sc: Scene, s: set<NodeId>, w: seq<Candidate>, n: nat, a: NodeId, b: NodeId)
    requires Listing(st, sc, s, w) && n <= |w| && Leading(o, w, n)
    requires a in Ids(w[..n]) && b in s && b !in Ids(w[..n]) && a in sc.cache && b in sc.cache
    ensures Before(o, Rank(st, sc, a), Rank(st, sc, b))
  {
    var i :| 0 <= i < n && w[i].id == a;
    var d :| d in w && d.id == b;
    BehindFront(w, n, d);
    var j :| n <= j < |w| && w[j] == d;
    assert w[i] in w;
  }

  lemma IdsOfBoth(v: seq<Candidate>, w: seq<Candidate>)
    ensures Ids(v + w) == Ids(v) + Ids(w)
  {
    assert forall c :: c in v + w <==> c in v || c in w;
  }

  lemma FrontApart(w: seq<Candidate>, n: nat, a: NodeId)
    requires DistinctIds(w) && n <= |w|
    ensures a in Ids(w[n..]) ==> a !in Ids(w[..n])
  {
    if a in Ids(w[n..]) {
      var j :| 0 <= j < |w| - n && w[n..][j].id == a;
      forall i | 0 <= i < n ensures w[..n][i].id != a {
        assert w[i].id != w[n + j].id;
      }
    }
  }

  lemma Complement(s: set<NodeId>, a: set<NodeId>, b: set<NodeId>)
    requires s == a + b && forall x :: x in b ==> x !in a
    ensures a <= s && b == s - a
  {
  }

  lemma FrontCount(w: seq<Candidate>, n: nat)
    requires DistinctIds(w) && n <= |w|
    ensures |Ids(w[..n])| == n
  {
    DistinctIdCount(w[..n]);
  }

  lemma FrontUnion(w: seq<Candidate>, n: nat)
    requires n <= |w|
    ensures Ids(w) == Ids(w[..n]) + Ids(w[n..])
  {
    IdsOfBoth(w[..n], w[n..]);
    assert w == w[..n] + w[n..];
  }

  lemma FrontSplits(w: seq<Candidate>, n: nat)
    requires DistinctIds(w) && n <= |w|
    ensures Ids(w[..n]) <= Ids(w) && Ids(w[n..]) == Ids(w) - Ids(w[..n])
  {
    FrontUnion(w, n);
    forall a | a in Ids(w[n..]) ensures a !in Ids(w[..n]) {
      FrontApart(w, n, a);
    }
    Complement(Ids(w), Ids(w[..n]), Ids(w[n..]));
  }

  /** The part of a vector brought to the front is the first part of its ids. */
  lemma FrontIsFirst(o: Order, st: Stream, sc: Scene, s: set<NodeId>, w: seq<Candidate>, n: nat)
    requires Listing(st, sc, s, w) && n <= |w| && Leading(o, w, n)
    ensures First(o, st, sc, s, Ids(w[..n]), n)
    ensures Ids(w[n..]) == s - Ids(w[..n])
  {
    FrontSplits(w, n);
    FrontCount(w, n);
    forall a, b | a in Ids(w[..n]) && b in s && b !in Ids(w[..n])
      ensures Before(o, Rank(st, sc, a), Rank(st, sc, b))
    {
      FrontPrecedes(o, st, sc, s, w, n, a, b);
    }
  }

  /** Split a listing into its first `n` in order `o`, sorted, and the rest. */
  method SplitFirst(o: Order, ghost st: Stream, ghost sc: Scene, ghost s: set<NodeId>, v: seq<Candidate>, n: nat)
    returns (front: seq<Candidate>, rest: seq<Candidate>)
    requires Listing(st, sc, s, v) && n <= |v|
    ensures |front| == n && |rest| == |v| - n
    ensures First(o, st, sc, s, Ids(front), n)
    ensures Listing(st, sc, Ids(front), front) && Listing(st, sc, s - Ids(front), rest)
    ensures Leading(o, front, n)
    ensures n == |v| ==> Ids(front) == s
  {
    var w := SelectFirst(o, v, n);
    SameElements(w, v);
    FrontIsFirst(o, st, sc, s, w, n);
    front, rest := w[..n], w[n..];
    assert n == |v| ==> front == w;
    forall c | c in rest ensures c.id in s - Ids(front) {
      assert c.id in Ids(rest);
    }
  }

  /** Two-stage selection of a full chunk: the biggest movers, then the longest-waiting of the rest. */
  method Cut(ghost st: Stream, ghost sc: Scene, k: nat, candidates: seq<Candidate>) returns (r: seq<Candidate>)
    requires k >= 1 && |candidates| > k
    requires Listing(st, sc, CandidateIds(st, sc), candidates)
    ensures |r| == k
    ensures Ids(r) <= CandidateIds(st, sc) && Listing(st, sc, Ids(r), r)
    ensures Chosen(st, sc, k, Ids(r))
  {
    ghost var all := CandidateIds(st, sc);
    DistinctIdCount(candidates);
    var fair := Min(k / FAIR_SHARE_DIVISOR, k - 1);
    var moved, rest := SplitFirst(ByMove, st, sc, all, candidates, k - fair);
    var take := Min(fair, |rest|);
    var waited, _ := SplitFirst(ByAge, st, sc, all - Ids(moved), rest, take);
    ListingJoin(st, sc, moved, waited);
    assert ChosenBy(st, sc, k, Ids(moved), Ids(waited));
    r := moved + waited;
  }

  /** The final sort of the chosen candidates, most displaced first. */
  method SortedIds(ghost st: Stream, ghost sc: Scene, ghost k: nat, v: seq<Candidate>) returns (ids: seq<NodeId>)
    requires k >= 1
    requires Ids(v) <= CandidateIds(st, sc) && Listing(st, sc, Ids(v), v) && Chosen(st, sc, k, Ids(v))
    ensures IsPlan(st, sc, k, ids)
  {
    var sorted, _ := SplitFirst(ByMove, st, sc, Ids(v), v, |v|);
    SortedListingIsPlan(st, sc, k, sorted);
    ids := IdList(sorted);
  }

  lemma SortedListingIsPlan(st: Stream, sc: Scene, k: nat, v: seq<Candidate>)
    requires k >= 1
    requires Ids(v) <= CandidateIds(st, sc) && Listing(st, sc, Ids(v), v) && Chosen(st, sc, k, Ids(v))
    requires Leading(ByMove, v, |v|)
    ensures IsPlan(st, sc, k, IdList(v))
  {
    var ids := IdList(v);
    IdListElements(v);
    forall i, j | 0 <= i < j < |ids|
      ensures ids[i] in sc.cache && ids[j] in sc.cache && Before(ByMove, Rank(st, sc, ids[i]), Rank(st, sc, ids[j]))
    {
      assert v[i] in v && v[j] in v;
    }
  }

  /** Index of the chunk `seqNo`, or the length of the list. */
  method PositionOf(fs: seq<InFlight>, seqNo: nat) returns (at: nat)
    ensures at <= |fs|
    ensures at == |fs| ==> Find(fs, seqNo) == None
    ensures at < |fs| ==> Find(fs, seqNo) == Some(fs[at])
  {
    at := 0;
    while at < |fs| && fs[at].seqNo != seqNo
      invariant at <= |fs|
      invariant Find(fs, seqNo) == Find(fs[at..], seqNo)
    {
      at := at + 1;
    }
  }

  method KeepNewer(fs: seq<InFlight>, seqNo: nat) returns (kept: seq<InFlight>)
    ensures kept == Newer(fs, seqNo)
  {
    kept := [];
    for i := 0 to |fs|
      invariant kept == Newer(fs[..i], seqNo)
    {
      assert fs[..i + 1][..i] == fs[..i];
      if fs[i].seqNo > seqNo {
        kept := kept + [fs[i]];
      }
    }
    assert fs[..|fs|] == fs;
  }

  method CommitNodes(m: map<NodeId, Held>, es: seq<Entry>) returns (r: map<NodeId, Held>)
    ensures r == CommitAll(m, es)
  {
    r := m;
    for i := 0 to |es|
      invariant r == CommitAll(m, es[..i])
    {
      assert es[..i + 1][..i] == es[..i];
      var e := es[i];
      if !(e.id in r && r[e.id].seqNo > e.held.seqNo) {
        r := r[e.id := e.held];
      }
    }
    assert es[..|es|] == es;
  }

  /** One client's stream state, updated in place. */
  class ClientStream {
    var acked: map<NodeId, Held>
    var inFlight: seq<InFlight>
    var consecutiveTimeouts: nat

    function View(): Stream
      reads this
    {
      Stream(acked, inFlight, consecutiveTimeouts)
    }

    constructor ()
      ensures View() == FreshStream
    {
      acked, inFlight, consecutiveTimeouts := map[], [], 0;
    }

    /** A stream in a given state. */
    constructor Of(st: Stream)
      ensures View() == st
    {
      acked, inFlight, consecutiveTimeouts := st.acked, st.inFlight, st.timeouts;
    }

    /** The sort keys of every node this client should hear about, in no particular order. */
    method Collect(sc: Scene) returns (candidates: seq<Candidate>)
      ensures Listing(View(), sc, CandidateIds(View(), sc), candidates)
    {
      ghost var st := View();
      candidates := [];
      var todo := sc.cache.Keys;
      while todo != {}
        invariant todo <= sc.cache.Keys
        invariant Listing(st, sc, CandidateIds(st, sc) - todo, candidates)
      {
        var id :| id in todo;
        ghost var done := CandidateIds(st, sc) - todo;
        ListingPush(st, sc, done, candidates, id);
        todo := todo - {id};
        assert CandidateIds(st, sc) - todo == if IsCandidate(st, sc, id) then done + {id} else done;
        if sc.visible(id) {
          if id !in acked {
            candidates := candidates + [Candidate(Infinite, 0, id)];
          } else {
            var d2 := Dist2(sc.cache[id], acked[id].pos);
            if d2 > sc.threshold * sc.threshold && d2 > 0.0 {
              candidates := candidates + [Candidate(Finite(d2), acked[id].seqNo, id)];
            } else if sc.analytics(id) != acked[id].key {
              candidates := candidates + [Candidate(Finite(0.0), acked[id].seqNo, id)];
            }
          }
        }
      }
      assert CandidateIds(st, sc) - todo == CandidateIds(st, sc);
    }

    /** The ids to send next. */
    method Plan(sc: Scene, chunkNodes: nat) returns (ids: seq<NodeId>)
      ensures IsPlan(View(), sc, ChunkSize(chunkNodes), ids)
    {
      var candidates := Collect(sc);
      DistinctIdCount(candidates);
      var k := ChunkSize(chunkNodes);
      if candidates == [] {
        ids := [];
      } else if |candidates| > k {
        candidates := Cut(View(), sc, k, candidates);
        ids := SortedIds(View(), sc, k, candidates);
      } else {
        ids := SortedIds(View(), sc, k, candidates);
      }
    }

    /** Record the chunk just handed to the client. */
    method RecordSent(seqNo: nat, now: nat, nodes: seq<Entry>)
      modifies this
      ensures View() == AfterSend(old(View()), seqNo, now, nodes)
    {
      if inFlight != [] {
        consecutiveTimeouts := SaturatingInc(consecutiveTimeouts, U32_MAX);
      }
      if |inFlight| >= IN_FLIGHT_HISTORY {
        inFlight := inFlight[1..];
      }
      inFlight := inFlight + [InFlight(seqNo, now, nodes)];
    }

    /** The client acknowledged chunk `seqNo`: how many nodes it held, or nothing when unknown. */
    method Acknowledge(seqNo: nat) returns (r: Option<nat>)
      modifies this
      ensures View() == AfterAck(old(View()), seqNo)
      ensures r == match Find(old(inFlight), seqNo) { case None => None case Some(f) => Some(|f.nodes|) }
    {
      var at := PositionOf(inFlight, seqNo);
      if at == |inFlight| {
        return None;
      }
      var f := inFlight[at];
      inFlight := KeepNewer(inFlight, seqNo);
      consecutiveTimeouts := 0;
      acked := CommitNodes(acked, f.nodes);
      return Some(|f.nodes|);
    }

    /** Forget the nodes `keep` rejects. */
    method RetainNodes(keep: NodeId -> bool)
      modifies this
      ensures View() == AfterRetain(old(View()), keep)
    {
      acked := map id | id in acked && keep(id) :: acked[id];
    }
  }

  lemma JoinDistinct(v: seq<Candidate>, w: seq<Candidate>)
    requires DistinctIds(v) && DistinctIds(w) && Ids(v) !! Ids(w)
    ensures DistinctIds(v + w)
  {
    forall i, j | 0 <= i < j < |v + w| ensures (v + w)[i].id != (v + w)[j].id {
      assert i < |v| ==> v[i].id in Ids(v);
      assert j >= |v| ==> w[j - |v|].id in Ids(w);
    }
  }

  function IdList(v: seq<Candidate>): (ids: seq<NodeId>)
    ensures |ids| == |v| && forall i :: 0 <= i < |v| ==> ids[i] == v[i].id
  {
    seq(|v|, i requires 0 <= i < |v| => v[i].id)
  }

  lemma IdListElements(v: seq<Candidate>)
    requires DistinctIds(v)
    ensures Elements(IdList(v)) == Ids(v) && NoDuplicates(IdList(v))
  {
    var ids := IdList(v);
    forall x ensures x in Elements(ids) <==> x in Ids(v) {
      if x in ids {
        var i :| 0 <= i < |ids| && ids[i] == x;
        assert v[i] in v;
      }
      if x in Ids(v) {
        var c :| c in v && c.id == x;
        var i :| 0 <= i < |v| && v[i] == c;
        assert ids[i] == x;
      }
    }
  }
}
