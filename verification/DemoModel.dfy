/**
 The demo's six agents over a graph (src/actors/agent_demo_director.rs:86-357): what one tick may do to an
 agent, with every random draw as an explicit choice, and what follows for every run of ticks.
 */
module DemoModel {
  import opened Basics

  type NodeId = nat

  const AGENT_FLAG: nat := 0x8000_0000
  const KEEPALIVE_MS: nat := 5_000
  const WORK_MIN_MS: nat := 9_000
  const WORK_MAX_MS: nat := 14_000
  const FOLLOW_MIN_MS: nat := 7_000
  const FOLLOW_MAX_MS: nat := 11_000
  const REST_MIN_MS: nat := 18_000
  const REST_MAX_MS: nat := 26_000
  const CANDIDATE_POOL: nat := 80

  datatype Role = Role(suffix: nat, action: nat, verb: string, staggerMs: nat)

  const ROLES: seq<Role> := [
    Role(0xD001, 2, "Mapping", 0),
    Role(0xD002, 0, "Analysing", 1_300),
    Role(0xD003, 1, "Refactoring", 2_900),
    Role(0xD004, 3, "Reviewing", 4_600),
    Role(0xD005, 0, "Testing", 6_800),
    Role(0xD006, 5, "Optimising", 9_100)]

  datatype Phase = Wait | Work | Follow | Rest

  datatype Agent = Agent(role: Role, phase: Phase, elapsed: nat, duration: nat, keepalive: nat, target: NodeId)

  type Edge = (NodeId, NodeId)

  datatype Graph = Graph(labels: map<NodeId, string>, edges: seq<Edge>)

  /** What the director draws from a graph. */
  datatype World = World(labels: map<NodeId, string>, adjacency: map<NodeId, seq<NodeId>>, candidates: seq<NodeId>)

  datatype Action = Action(wire: nat, target: NodeId, kind: nat, ts: U32, intent: string)

  // ----- the graph ----------------------------------------------------------------------------

  predicate Joins(g: Graph, e: Edge) {
    e.0 in g.labels && e.1 in g.labels && e.0 != e.1
  }

  function Neighbours(adjacency: map<NodeId, seq<NodeId>>, id: NodeId): seq<NodeId> {
    if id in adjacency then adjacency[id] else []
  }

  /** One mention of `t` beside `s` for every usable edge between them, in either direction. */
  function Beside(g: Graph, edges: seq<Edge>, s: NodeId): seq<NodeId> {
    if edges == [] then []
    else
      var before, e := Beside(g, edges[..|edges| - 1], s), edges[|edges| - 1];
      if !Joins(g, e) then before
      else if e.0 == s then before + [e.1]
      else if e.1 == s then before + [e.0]
      else before
  }

  /** A neighbour is the other end of a real edge between two labelled nodes, never the node itself. */
  lemma {:induction false} BesideIsEdge(g: Graph, edges: seq<Edge>, s: NodeId, t: NodeId)
    ensures t in Beside(g, edges, s) <==>
              s != t && s in g.labels && t in g.labels && ((s, t) in edges || (t, s) in edges)
  {
    if edges != [] {
      var n := |edges| - 1;
      BesideIsEdge(g, edges[..n], s, t);
      assert edges == edges[..n] + [edges[n]];
    }
  }

  /** The usable edges between two nodes, in either direction. */
  function Between(g: Graph, edges: seq<Edge>, s: NodeId, t: NodeId): set<nat> {
    set i: nat | i < |edges| && Joins(g, edges[i]) && (edges[i] == (s, t) || edges[i] == (t, s))
  }

  /** A neighbour is mentioned once for every usable edge to it. */
  lemma {:induction false} BesideCounts(g: Graph, edges: seq<Edge>, s: NodeId, t: NodeId)
    ensures multiset(Beside(g, edges, s))[t] == |Between(g, edges, s, t)|
  {
    if edges != [] {
      var n := |edges| - 1;
      var front, e := edges[..n], edges[n];
      BesideCounts(g, front, s, t);
      BetweenMore(g, edges, s, t);
    }
  }

  lemma BetweenMore(g: Graph, edges: seq<Edge>, s: NodeId, t: NodeId)
    requires edges != []
    ensures var n := |edges| - 1;
            |Between(g, edges, s, t)| == |Between(g, edges[..n], s, t)|
              + if Joins(g, edges[n]) && (edges[n] == (s, t) || edges[n] == (t, s)) then 1 else 0
  {
    var n := |edges| - 1;
    var more: set<nat> := if Joins(g, edges[n]) && (edges[n] == (s, t) || edges[n] == (t, s)) then {n} else {};
    assert Between(g, edges, s, t) == Between(g, edges[..n], s, t) + more;
  }

  function Degree(g: Graph, id: NodeId): nat {
    |Beside(g, g.edges, id)|
  }

  /** The usable edges at a node. */
  function EdgesAt(g: Graph, edges: seq<Edge>, s: NodeId): set<nat> {
    set i: nat | i < |edges| && Joins(g, edges[i]) && (edges[i].0 == s || edges[i].1 == s)
  }

  /** A node has as many neighbours, counted with multiplicity, as usable edges. */
  lemma {:induction false} BesideSize(g: Graph, edges: seq<Edge>, s: NodeId)
    ensures |Beside(g, edges, s)| == |EdgesAt(g, edges, s)|
  {
    if edges != [] {
      var n := |edges| - 1;
      BesideSize(g, edges[..n], s);
      EdgesMore(g, edges, s);
    }
  }

  lemma EdgesMore(g: Graph, edges: seq<Edge>, s: NodeId)
    requires edges != []
    ensures var n := |edges| - 1;
            |EdgesAt(g, edges, s)| == |EdgesAt(g, edges[..n], s)|
              + if Joins(g, edges[n]) && (edges[n].0 == s || edges[n].1 == s) then 1 else 0
  {
    var n := |edges| - 1;
    var more: set<nat> := if Joins(g, edges[n]) && (edges[n].0 == s || edges[n].1 == s) then {n} else {};
    assert EdgesAt(g, edges, s) == EdgesAt(g, edges[..n], s) + more;
  }

  /** Ahead in the ranking: more neighbours, or as many and a smaller id. */
  predicate Ahead(g: Graph, a: NodeId, b: NodeId) {
    Degree(g, a) > Degree(g, b) || (Degree(g, a) == Degree(g, b) && a <= b)
  }

  /** The best-connected nodes, best first, no more than the pool holds. */
  ghost predicate IsPool(g: Graph, ids: seq<NodeId>) {
    && NoDuplicates(ids) && |ids| == Min(CANDIDATE_POOL, |g.labels|)
    && (forall i :: 0 <= i < |ids| ==> ids[i] in g.labels)
    && (forall i, j :: 0 <= i < j < |ids| ==> Ahead(g, ids[i], ids[j]))
    && (forall i, x :: 0 <= i < |ids| && x in g.labels && x !in ids ==> Ahead(g, ids[i], x))
  }

  /** No node left out of the pool has more usable edges than one in it, and the pool is listed by them, ties by id. */
  lemma PoolIsBest(g: Graph, ids: seq<NodeId>, i: nat, x: NodeId)
    requires IsPool(g, ids) && i < |ids| && x in g.labels && (x in ids ==> exists j :: i < j < |ids| && ids[j] == x)
    ensures |EdgesAt(g, g.edges, x)| <= |EdgesAt(g, g.edges, ids[i])|
    ensures |EdgesAt(g, g.edges, x)| == |EdgesAt(g, g.edges, ids[i])| ==> ids[i] <= x
  {
    BesideSize(g, g.edges, x);
    BesideSize(g, g.edges, ids[i]);
  }

  ghost predicate WorldOf(w: World, g: Graph) {
    && w.labels == g.labels
    && (forall s :: Neighbours(w.adjacency, s) == Beside(g, g.edges, s))
    && IsPool(g, w.candidates) && w.candidates != []
  }

  // ----- one agent, one tick ------------------------------------------------------------------

  /** The draws of one agent in one tick. */
  datatype Choice = Choice(duration: nat, follow: bool, target: NodeId)

  /** The agent afterwards, and the nodes it announced work on. */
  datatype Step = Step(agent: Agent, said: seq<NodeId>)

  function Begun(a: Agent, phase: Phase, duration: nat): Agent {
    a.(phase := phase, elapsed := 0, duration := duration, keepalive := 0)
  }

  function Advanced(a: Agent, dt: nat, c: Choice): Step {
    var over := a.elapsed + dt >= a.duration;
    match a.phase
    case Wait =>
      if over then Step(Begun(a, Work, c.duration), [a.target]) else Step(a.(elapsed := a.elapsed + dt), [])
    case Rest =>
      if over then Step(Begun(a.(target := c.target), Work, c.duration), [c.target])
      else Step(a.(elapsed := a.elapsed + dt), [])
    case _ =>
      var due := a.keepalive + dt >= KEEPALIVE_MS;
      var b := a.(elapsed := a.elapsed + dt, keepalive := if due then 0 else a.keepalive + dt);
      var said := if due then [a.target] else [];
      if !over then Step(b, said)
      else if a.phase == Work && c.follow then
        Step(Begun(b.(target := c.target), Follow, c.duration), said + [c.target])
      else Step(b.(phase := Rest, elapsed := 0, duration := c.duration), said)
  }

  /** The draws the director may make for this agent in this tick. */
  predicate IsChoice(w: World, a: Agent, dt: nat, c: Choice) {
    a.elapsed + dt >= a.duration ==>
      match a.phase
      case Wait => WORK_MIN_MS <= c.duration <= WORK_MAX_MS
      case Rest => WORK_MIN_MS <= c.duration <= WORK_MAX_MS
                   && (c.target in w.candidates || c.target in Neighbours(w.adjacency, a.target))
      case _ =>
        if a.phase == Work && c.follow then
          FOLLOW_MIN_MS <= c.duration <= FOLLOW_MAX_MS && c.target in Neighbours(w.adjacency, a.target)
        else REST_MIN_MS <= c.duration <= REST_MAX_MS
  }

  /** The next timestamp: the time now, or one past the last, wrapping at 32 bits. */
  function NextTs(last: U32, now: U32): U32 {
    Max(now, (last + 1) % (U32_MAX + 1))
  }

  lemma NextTsIncreasesIff(last: U32, now: U32)
    ensures NextTs(last, now) > last <==> last < U32_MAX
  {
  }

  /** It is never before now; and below the wrap it is the least such time that is later than the last. */
  lemma NextTsIsLeast(last: U32, now: U32, t: U32)
    ensures NextTs(last, now) >= now
    ensures last < U32_MAX && t >= now && t > last ==> NextTs(last, now) <= t
  {
  }

  // ----- one agent, any run -------------------------------------------------------------------

  /** How long ago the agent last said something; `None` until it has. */
  datatype Tracked = Tracked(agent: Agent, since: Option<nat>)

  function TrackedTick(t: Tracked, dt: nat, c: Choice): Tracked {
    var step := Advanced(t.agent, dt, c);
    Tracked(step.agent,
            if step.said != [] then Some(0)
            else if t.since == None then None
            else Some(t.since.value + dt))
  }

  /**
   While working an agent was heard of less than a keep-alive ago; while resting, less than that before it began
   to rest.
   */
  ghost predicate OnTrack(w: World, t: Tracked) {
    var a := t.agent;
    && a.target in w.labels
    && match a.phase
       case Wait => t.since == None && (a.elapsed == 0 || a.elapsed < a.duration)
       case Rest =>
         && t.since == Some(a.keepalive + a.elapsed) && a.keepalive < KEEPALIVE_MS
         && a.elapsed < a.duration <= REST_MAX_MS
       case _ => t.since == Some(a.keepalive) && a.keepalive < KEEPALIVE_MS && a.elapsed < a.duration
  }

  lemma LabelledNeighbour(w: World, g: Graph, s: NodeId, t: NodeId)
    requires WorldOf(w, g) && t in Neighbours(w.adjacency, s)
    ensures s != t && s in g.labels && t in g.labels && ((s, t) in g.edges || (t, s) in g.edges)
  {
    BesideIsEdge(g, g.edges, s, t);
  }

  lemma CandidateLabelled(w: World, g: Graph, t: NodeId)
    requires WorldOf(w, g) && t in w.candidates
    ensures t in w.labels
  {
    var i :| 0 <= i < |w.candidates| && w.candidates[i] == t;
  }

  lemma TickStaysOnTrack(w: World, g: Graph, t: Tracked, dt: nat, c: Choice)
    requires WorldOf(w, g) && OnTrack(w, t) && IsChoice(w, t.agent, dt, c)
    ensures OnTrack(w, TrackedTick(t, dt, c))
  {
    if c.target in Neighbours(w.adjacency, t.agent.target) {
      LabelledNeighbour(w, g, t.agent.target, c.target);
    }
    if c.target in w.candidates {
      CandidateLabelled(w, g, c.target);
    }
  }

  /** Any ticks, any draws: one agent's history. */
  ghost predicate IsTick(w: World, t: Tracked, dt: nat, c: Choice, t': Tracked) {
    IsChoice(w, t.agent, dt, c) && t' == TrackedTick(t, dt, c)
  }

  ghost predicate IsHistory(w: World, states: seq<Tracked>, dts: seq<nat>, cs: seq<Choice>) {
    && |states| == |dts| + 1 == |cs| + 1
    && OnTrack(w, states[0])
    && forall i :: 0 <= i < |dts| ==> IsTick(w, states[i], dts[i], cs[i], states[i + 1])
  }

  predicate Speaks(t: Tracked, dt: nat, c: Choice) {
    Advanced(t.agent, dt, c).said != []
  }

  /** At every moment the target is a real node, and whoever has spoken did so less than 31 s ago. */
  lemma {:induction false} AlwaysOnTrack(w: World, g: Graph, states: seq<Tracked>, dts: seq<nat>, cs: seq<Choice>,
                                         n: nat)
    requires WorldOf(w, g) && IsHistory(w, states, dts, cs) && n <= |dts|
    ensures OnTrack(w, states[n]) && states[n].agent.target in g.labels
    ensures states[n].since.Some? ==> states[n].since.value < 31_000
  {
    if n > 0 {
      AlwaysOnTrack(w, g, states, dts, cs, n - 1);
      assert IsTick(w, states[n - 1], dts[n - 1], cs[n - 1], states[n - 1 + 1]);
      TickStaysOnTrack(w, g, states[n - 1], dts[n - 1], cs[n - 1]);
    }
  }

  function Sum(ms: seq<nat>): nat {
    if ms == [] then 0 else Sum(ms[..|ms| - 1]) + ms[|ms| - 1]
  }

  /** `since` is the time that passed since the last tick in which the agent spoke. */
  lemma {:induction false} SinceIsElapsed(w: World, states: seq<Tracked>, dts: seq<nat>, cs: seq<Choice>, i: nat,
                                          j: nat)
    requires IsHistory(w, states, dts, cs) && i < j <= |dts| && Speaks(states[i], dts[i], cs[i])
    requires forall k :: i < k < j ==> !Speaks(states[k], dts[k], cs[k])
    ensures states[j].since == Some(Sum(dts[i + 1..j]))
  {
    assert IsTick(w, states[j - 1], dts[j - 1], cs[j - 1], states[j - 1 + 1]);
    if j > i + 1 {
      SinceIsElapsed(w, states, dts, cs, i, j - 1);
      assert dts[i + 1..j][..j - i - 2] == dts[i + 1..j - 1];
    }
  }

  /**
   Between two ticks in which an agent speaks, with none in between, less than 31 s and a tick pass; and
   less than 5 s and a tick if it is at work when it speaks again.
   */
  lemma GapsAreBounded(w: World, g: Graph, states: seq<Tracked>, dts: seq<nat>, cs: seq<Choice>, i: nat, j: nat)
    requires WorldOf(w, g) && IsHistory(w, states, dts, cs) && i < j < |dts|
    requires Speaks(states[i], dts[i], cs[i]) && Speaks(states[j], dts[j], cs[j])
    requires forall k :: i < k < j ==> !Speaks(states[k], dts[k], cs[k])
    ensures Sum(dts[i + 1..j + 1]) < 31_000 + dts[j]
    ensures states[j].agent.phase in {Work, Follow} ==> Sum(dts[i + 1..j + 1]) < 5_000 + dts[j]
  {
    AlwaysOnTrack(w, g, states, dts, cs, j);
    SinceIsElapsed(w, states, dts, cs, i, j);
    assert dts[i + 1..j + 1][..j - i - 1] == dts[i + 1..j];
  }

  /** Following crosses a real edge of the graph to another labelled node. */
  lemma FollowCrossesEdge(w: World, g: Graph, t: Tracked, dt: nat, c: Choice, t': Tracked)
    requires WorldOf(w, g) && IsTick(w, t, dt, c, t') && t.agent.phase == Work && t'.agent.phase == Follow
    ensures t.agent.target != t'.agent.target && t'.agent.target in g.labels
    ensures (t.agent.target, t'.agent.target) in g.edges || (t'.agent.target, t.agent.target) in g.edges
    ensures Speaks(t, dt, c)
  {
    LabelledNeighbour(w, g, t.agent.target, t'.agent.target);
  }

  // ----- how long a phase lasts ---------------------------------------------------------------

  /** What can follow a phase. */
  predicate Follows(p: Phase, q: Phase) {
    match p
    case Wait => q == Work
    case Work => q == Follow || q == Rest
    case Follow => q == Rest
    case Rest => q == Work
  }

  lemma PhaseTick(t: Tracked, dt: nat, c: Choice)
    ensures var a, b := t.agent, TrackedTick(t, dt, c).agent;
            && b.role == a.role
            && (a.elapsed + dt < a.duration ==>
                  b.phase == a.phase && b.target == a.target && b.duration == a.duration && b.elapsed == a.elapsed + dt)
            && (a.elapsed + dt >= a.duration ==>
                  Follows(a.phase, b.phase) && b.elapsed == 0 && b.duration == c.duration)
            && b.target == if a.elapsed + dt >= a.duration && (a.phase == Rest || b.phase == Follow) then c.target
                           else a.target
  {
  }

  /**
   What is said in a tick: the node worked on if five seconds of work have passed since the last word, and
   then, if work begins in it, the node it begins on.
   */
  lemma TickSays(t: Tracked, dt: nat, c: Choice)
    ensures var a, b := t.agent, TrackedTick(t, dt, c).agent;
            var due := a.phase in {Work, Follow} && a.keepalive + dt >= 5_000;
            var begins := a.elapsed + dt >= a.duration && b.phase != Rest;
            Advanced(a, dt, c).said == (if due then [a.target] else []) + (if begins then [b.target] else [])
  {
  }

  /** For as long as less time than its duration has passed a phase goes on, with the same node. */
  lemma {:induction false} PhaseGoesOn(w: World, states: seq<Tracked>, dts: seq<nat>, cs: seq<Choice>, i: nat, j: nat)
    requires IsHistory(w, states, dts, cs) && i <= j <= |dts| && states[i].agent.elapsed == 0
    requires i < j ==> Sum(dts[i..j]) < states[i].agent.duration
    ensures states[j].agent == states[i].agent.(elapsed := Sum(dts[i..j]), keepalive := states[j].agent.keepalive)
  {
    if i < j {
      SumMore(dts, i, j - 1);
      PhaseGoesOn(w, states, dts, cs, i, j - 1);
      assert IsTick(w, states[j - 1], dts[j - 1], cs[j - 1], states[j - 1 + 1]);
      PhaseTick(states[j - 1], dts[j - 1], cs[j - 1]);
    }
  }

  /**
   Every phase lasts exactly until the tick in which its duration has passed, and then the agent goes on:
   from waiting to work, from work to a neighbour or to rest, from a neighbour to rest, from rest to work.
   */
  lemma PhaseEndsIff(w: World, states: seq<Tracked>, dts: seq<nat>, cs: seq<Choice>, i: nat, j: nat)
    requires IsHistory(w, states, dts, cs) && i <= j < |dts| && states[i].agent.elapsed == 0
    requires i < j ==> Sum(dts[i..j]) < states[i].agent.duration
    ensures var a, b, passed := states[i].agent, states[j + 1].agent, Sum(dts[i..j + 1]);
            if passed < a.duration then b.phase == a.phase && b.target == a.target && b.elapsed == passed
            else Follows(a.phase, b.phase) && b.elapsed == 0 && b.duration == cs[j].duration
  {
    PhaseGoesOn(w, states, dts, cs, i, j);
    SumMore(dts, i, j);
    assert IsTick(w, states[j], dts[j], cs[j], states[j + 1]);
    PhaseTick(states[j], dts[j], cs[j]);
  }

  // ----- how long a rest can be silent --------------------------------------------------------

  /** How long clients keep evidence of an agent that says nothing. */
  const EVIDENCE_TTL_MS: nat := 30_000

  /** A rest just begun. */
  predicate Resting(t: Tracked) {
    t.agent.phase == Rest && t.agent.elapsed == 0 && t.since == Some(t.agent.keepalive)
  }

  lemma SumMore(ms: seq<nat>, i: nat, j: nat)
    requires i <= j < |ms|
    ensures Sum(ms[i..j + 1]) == Sum(ms[i..j]) + ms[j]
  {
    assert ms[i..j + 1][..j - i] == ms[i..j];
  }

  lemma RestTick(t: Tracked, dt: nat, c: Choice)
    requires t.agent.phase == Rest && t.since.Some? && t.agent.elapsed + dt < t.agent.duration
    ensures TrackedTick(t, dt, c) == Tracked(t.agent.(elapsed := t.agent.elapsed + dt), Some(t.since.value + dt))
  {
  }

  /** A rest is silent for as long as less time than its drawn duration has passed. */
  lemma {:induction false} RestIsSilent(w: World, states: seq<Tracked>, dts: seq<nat>, cs: seq<Choice>, i: nat, j: nat)
    requires IsHistory(w, states, dts, cs) && i <= j <= |dts| && Resting(states[i])
    requires Sum(dts[i..j]) < states[i].agent.duration
    ensures var a, passed := states[i].agent, Sum(dts[i..j]);
            states[j] == Tracked(a.(elapsed := passed), Some(a.keepalive + passed))
  {
    if i < j {
      SumMore(dts, i, j - 1);
      RestIsSilent(w, states, dts, cs, i, j - 1);
      assert IsTick(w, states[j - 1], dts[j - 1], cs[j - 1], states[j - 1 + 1]);
      RestTick(states[j - 1], dts[j - 1], cs[j - 1]);
    }
  }

  /** It ends, with an event, in the very tick in which that much time has passed. */
  lemma {:induction false} RestEndsIff(w: World, states: seq<Tracked>, dts: seq<nat>, cs: seq<Choice>, i: nat, j: nat)
    requires IsHistory(w, states, dts, cs) && i <= j < |dts| && Resting(states[i])
    requires forall k :: i <= k < j ==> !Speaks(states[k], dts[k], cs[k])
    requires states[i].agent.duration > 0
    ensures Sum(dts[i..j]) < states[i].agent.duration
    ensures Speaks(states[j], dts[j], cs[j]) <==> Sum(dts[i..j + 1]) >= states[i].agent.duration
  {
    if i < j {
      RestEndsIff(w, states, dts, cs, i, j - 1);
    }
    RestIsSilent(w, states, dts, cs, i, j);
    SumMore(dts, i, j);
  }

  lemma {:induction false} SumOfTicks(ms: seq<nat>, dt: nat)
    requires forall k :: 0 <= k < |ms| ==> ms[k] == dt
    ensures Sum(ms) == Times(|ms|, dt)
  {
    if ms != [] {
      SumOfTicks(ms[..|ms| - 1], dt);
    }
  }

  /**
   How long a resting agent stays silent, exactly: with ticks of `dt`, a rest drawn `d` long that begins
   `kappa` after the agent's last event is followed by the next event `kappa` and the ticks it takes for
   `d` to pass after that last one. So it outlasts the clients' evidence if and only if that sum does.
   */
  lemma RestOutlastsIff(w: World, states: seq<Tracked>, dts: seq<nat>, cs: seq<Choice>, last: nat, i: nat, j: nat,
                        dt: nat)
    requires IsHistory(w, states, dts, cs) && last < i <= j < |dts| && dt > 0
    requires Resting(states[i]) && states[i].agent.duration > 0
    requires forall k :: i <= k <= j ==> dts[k] == dt
    requires Speaks(states[last], dts[last], cs[last]) && Speaks(states[j], dts[j], cs[j])
    requires forall k :: last < k < j ==> !Speaks(states[k], dts[k], cs[k])
    ensures var kappa, d := states[i].agent.keepalive, states[i].agent.duration;
            && Sum(dts[last + 1..j + 1]) == kappa + Times(Portions(d, dt), dt)
            && (Sum(dts[last + 1..j + 1]) >= EVIDENCE_TTL_MS <==> kappa + Times(Portions(d, dt), dt) >= EVIDENCE_TTL_MS)
  {
    RestGap(w, states, dts, cs, last, i, j);
    RestTakes(w, states, dts, cs, i, j, dt);
  }

  /** The silence around a rest: what passed before it and what passed in it. */
  lemma RestGap(w: World, states: seq<Tracked>, dts: seq<nat>, cs: seq<Choice>, last: nat, i: nat, j: nat)
    requires IsHistory(w, states, dts, cs) && last < i <= j < |dts| && Resting(states[i])
    requires states[i].agent.duration > 0
    requires Speaks(states[last], dts[last], cs[last])
    requires forall k :: last < k < j ==> !Speaks(states[k], dts[k], cs[k])
    ensures Sum(dts[last + 1..j + 1]) == states[i].agent.keepalive + Sum(dts[i..j + 1])
  {
    RestEndsIff(w, states, dts, cs, i, j);
    RestIsSilent(w, states, dts, cs, i, j);
    SinceIsElapsed(w, states, dts, cs, last, j);
    SumMore(dts, last + 1, j);
    SumMore(dts, i, j);
  }

  /** With ticks of one length, a rest takes as many as its duration needs. */
  lemma RestTakes(w: World, states: seq<Tracked>, dts: seq<nat>, cs: seq<Choice>, i: nat, j: nat, dt: nat)
    requires IsHistory(w, states, dts, cs) && i <= j < |dts| && dt > 0 && Resting(states[i])
    requires states[i].agent.duration > 0
    requires forall k :: i <= k <= j ==> dts[k] == dt
    requires Speaks(states[j], dts[j], cs[j]) && forall k :: i <= k < j ==> !Speaks(states[k], dts[k], cs[k])
    ensures Sum(dts[i..j + 1]) == Times(Portions(states[i].agent.duration, dt), dt)
  {
    RestEndsIff(w, states, dts, cs, i, j);
    SumOfTicks(dts[i..j], dt);
    SumOfTicks(dts[i..j + 1], dt);
    PortionsIff(states[i].agent.duration, dt, j - i + 1);
  }

  // ----- a history in which it does -----------------------------------------------------------

  /** Waiting for nothing, then 9.75 s of work and 26 s of rest, in quarters of a second. */
  function LongRest(a: Agent, n: nat): Tracked {
    if n == 0 then Tracked(a, None)
    else if n < 40 then
      Tracked(Agent(a.role, Work, 250 * (n - 1), 9_750, 250 * ((n - 1) % 20), a.target), Some(250 * ((n - 1) % 20)))
    else if n < 144 then
      Tracked(Agent(a.role, Rest, 250 * (n - 40), REST_MAX_MS, 4_750, a.target), Some(4_750 + 250 * (n - 40)))
    else Tracked(Agent(a.role, Work, 0, WORK_MIN_MS, 0, a.target), Some(0))
  }

  function LongRestChoice(a: Agent, n: nat): Choice {
    Choice(if n == 0 then 9_750 else if n < 40 then REST_MAX_MS else WORK_MIN_MS, false, a.target)
  }

  lemma LongRestTick(w: World, a: Agent, n: nat)
    requires a.phase == Wait && a.elapsed == 0 && a.duration == 0 && a.target in w.candidates && n < 144
    ensures IsTick(w, LongRest(a, n), 250, LongRestChoice(a, n), LongRest(a, n + 1))
    ensures Speaks(LongRest(a, n), 250, LongRestChoice(a, n)) <==> n == 0 || n == 20 || n == 143
  {
    if 0 < n < 39 {
      assert (n - 1) % 20 == 19 || n % 20 == (n - 1) % 20 + 1;
      assert (n - 1) % 20 == 19 ==> n % 20 == 0 && n == 20;
    }
  }

  /**
   Keep-alives do not cover a rest: an agent whose stagger is 0 can speak 5 s into its work and next
   30.75 s later, after clients have given it up.
   */
  lemma RestOutlastsEvidence(w: World, a: Agent) returns (states: seq<Tracked>, dts: seq<nat>, cs: seq<Choice>)
    requires a.phase == Wait && a.elapsed == 0 && a.duration == 0 && a.target in w.candidates && a.target in w.labels
    ensures IsHistory(w, states, dts, cs) && states[0] == Tracked(a, None) && |dts| == 144
    ensures Speaks(states[20], dts[20], cs[20]) && Speaks(states[143], dts[143], cs[143])
    ensures forall k :: 20 < k < 143 ==> !Speaks(states[k], dts[k], cs[k])
    ensures Sum(dts[21..144]) == 30_750 > EVIDENCE_TTL_MS
  {
    states, dts := seq(145, n requires 0 <= n => LongRest(a, n)), seq(144, n => 250);
    cs := seq(144, n requires 0 <= n => LongRestChoice(a, n));
    forall n | 0 <= n < 144 ensures IsTick(w, states[n], dts[n], cs[n], states[n + 1])
                                 && (Speaks(states[n], dts[n], cs[n]) <==> n == 0 || n == 20 || n == 143) {
      LongRestTick(w, a, n);
    }
    SumOfTicks(dts[21..144], 250);
    TimesIsProduct(123, 250);
  }
}
