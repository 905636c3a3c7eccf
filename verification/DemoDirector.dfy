/**
 The demo director itself (`DemoDirector` of src/actors/agent_demo_director.rs:150-357). Random draws are
 arbitrary choices within the ranges the code draws from.
 */
module DemoDirector {
  import opened Basics
  import opened DemoModel

  /** One announcement: who, and on which node. */
  datatype Said = Said(role: Role, node: NodeId)

  function SaidBy(role: Role, nodes: seq<NodeId>): seq<Said> {
    seq(|nodes|, i requires 0 <= i < |nodes| => Said(role, nodes[i]))
  }

  /** What the agents say in one tick, agent by agent. */
  function AllSaid(agents: seq<Agent>, dt: nat, choices: seq<Choice>): seq<Said>
    requires |choices| == |agents|
  {
    if agents == [] then []
    else
      var n := |agents| - 1;
      AllSaid(agents[..n], dt, choices[..n]) + SaidBy(agents[n].role, Advanced(agents[n], dt, choices[n]).said)
  }

  predicate IsAction(labels: map<NodeId, string>, said: Said, action: Action) {
    && action.wire == AGENT_FLAG + said.role.suffix && action.kind == said.role.action && action.target == said.node
    && said.node in labels && action.intent == said.role.verb + ": " + labels[said.node]
  }

  /** Timestamps chained from `last` on: each the time now, or one past the one before. */
  ghost predicate IsChain(last: U32, actions: seq<Action>, now: U32) {
    forall i: nat :: i < |actions| ==> ChainedAt(last, actions, now, i)
  }

  predicate ChainedAt(last: U32, actions: seq<Action>, now: U32, i: nat)
    requires i < |actions|
  {
    actions[i].ts == NextTs(if i == 0 then last else actions[i - 1].ts, now)
  }

  function LastTs(last: U32, actions: seq<Action>): U32 {
    if actions == [] then last else actions[|actions| - 1].ts
  }

  /** Each timestamp is greater than the one before it, unless that one is the last of the clock. */
  ghost predicate Advances(last: U32, actions: seq<Action>) {
    forall i: nat :: i < |actions| ==> AdvancesAt(last, actions, i)
  }

  predicate AdvancesAt(last: U32, actions: seq<Action>, i: nat)
    requires i < |actions|
  {
    var before := if i == 0 then last else actions[i - 1].ts;
    before < U32_MAX ==> before < actions[i].ts
  }

  lemma ChainAdvances(last: U32, actions: seq<Action>, now: U32)
    requires IsChain(last, actions, now)
    ensures Advances(last, actions)
  {
    forall i: nat | i < |actions| ensures AdvancesAt(last, actions, i) {
      assert ChainedAt(last, actions, now, i);
      NextTsIncreasesIff(if i == 0 then last else actions[i - 1].ts, now);
    }
  }

  lemma AdvancesJoin(last: U32, a: seq<Action>, b: seq<Action>)
    requires Advances(last, a) && Advances(LastTs(last, a), b)
    ensures Advances(last, a + b) && LastTs(last, a + b) == LastTs(LastTs(last, a), b)
  {
    forall i: nat | i < |a + b| ensures AdvancesAt(last, a + b, i) {
      if i < |a| {
        assert AdvancesAt(last, a, i);
      } else {
        assert AdvancesAt(LastTs(last, a), b, i - |a|);
      }
    }
  }

  lemma {:induction false} AdvancesIncrease(last: U32, actions: seq<Action>, j: nat)
    requires Advances(last, actions) && j < |actions| && last < U32_MAX
    requires forall i :: 0 <= i < j ==> actions[i].ts < U32_MAX
    ensures last < actions[j].ts && forall i :: 0 <= i < j ==> actions[i].ts < actions[j].ts
  {
    assert AdvancesAt(last, actions, j);
    if j > 0 {
      AdvancesIncrease(last, actions, j - 1);
    }
  }

  /** Below the wrap of the 32-bit clock, timestamps strictly increase within a tick and from the last one on. */
  lemma ChainIncreases(last: U32, actions: seq<Action>, now: U32, j: nat)
    requires IsChain(last, actions, now) && j < |actions| && last < U32_MAX
    requires forall i :: 0 <= i < j ==> actions[i].ts < U32_MAX
    ensures last < actions[j].ts && forall i :: 0 <= i < j ==> actions[i].ts < actions[j].ts
  {
    ChainAdvances(last, actions, now);
    AdvancesIncrease(last, actions, j);
  }

  /** No event is dated before its tick, and below the wrap none later than it has to be. */
  lemma ChainIsOnTime(last: U32, actions: seq<Action>, now: U32, j: nat, t: U32)
    requires IsChain(last, actions, now) && j < |actions|
    ensures actions[j].ts >= now
    ensures var before := if j == 0 then last else actions[j - 1].ts;
            before < U32_MAX && t >= now && t > before ==> actions[j].ts <= t
  {
    assert ChainedAt(last, actions, now, j);
    NextTsIsLeast(if j == 0 then last else actions[j - 1].ts, now, t);
  }

  lemma ChainJoins(last: U32, a: seq<Action>, b: seq<Action>, now: U32)
    requires IsChain(last, a, now) && IsChain(LastTs(last, a), b, now)
    ensures IsChain(last, a + b, now) && LastTs(last, a + b) == LastTs(LastTs(last, a), b)
  {
    forall i: nat | i < |a + b| ensures ChainedAt(last, a + b, now, i) {
      if i < |a| {
        assert ChainedAt(last, a, now, i);
      } else {
        assert ChainedAt(LastTs(last, a), b, now, i - |a|);
      }
    }
  }

  /** Actions that say what was said, in order. */
  ghost predicate Voices(labels: map<NodeId, string>, said: seq<Said>, actions: seq<Action>) {
    |actions| == |said| && forall i :: 0 <= i < |said| ==> IsAction(labels, said[i], actions[i])
  }

  lemma VoicesJoin(labels: map<NodeId, string>, said: seq<Said>, actions: seq<Action>, said': seq<Said>,
                   actions': seq<Action>)
    requires Voices(labels, said, actions) && Voices(labels, said', actions')
    ensures Voices(labels, said + said', actions + actions')
  {
  }

  /** The agents at the start: waiting, staggered, dealt out over the shuffled candidates. */
  function Starting(roles: seq<Role>, order: seq<NodeId>): seq<Agent>
    requires order != []
  {
    seq(|roles|, i requires 0 <= i < |roles| => Agent(roles[i], Wait, 0, roles[i].staggerMs, 0, order[i % |order|]))
  }

  /** One agent went through one tick it may go through. */
  predicate Stepped(w: World, a: Agent, dt: nat, c: Choice, a': Agent) {
    IsChoice(w, a, dt, c) && a' == Advanced(a, dt, c).agent
  }

  /** The director as a value, and one tick of it. */
  datatype Cast = Cast(agents: seq<Agent>, lastTs: U32)

  datatype Turn = Turn(dt: nat, now: U32, choices: seq<Choice>, out: seq<Action>)

  /** Each agent makes a step it may make, and the actions voice those steps in order on one chain of timestamps. */
  ghost predicate IsTurn(w: World, d: Cast, turn: Turn, d': Cast) {
    && |turn.choices| == |d.agents| == |d'.agents|
    && (forall i :: 0 <= i < |d.agents| ==> Stepped(w, d.agents[i], turn.dt, turn.choices[i], d'.agents[i]))
    && Voices(w.labels, AllSaid(d.agents, turn.dt, turn.choices), turn.out)
    && IsChain(d.lastTs, turn.out, turn.now) && d'.lastTs == LastTs(d.lastTs, turn.out)
  }

  const PICKS: nat := 8

  /** A draw worth stopping at: another node, and one of the candidates. */
  predicate IsCentral(w: World, node: NodeId, pick: NodeId) {
    pick != node && pick in w.candidates
  }

  /**
   Drawn until one is central, eight times and once more at most; the last draw is the answer unless it is the
   node itself.
   */
  ghost predicate IsPicked(w: World, node: NodeId, picks: seq<NodeId>, nb: Option<NodeId>) {
    var all, n := Neighbours(w.adjacency, node), |picks|;
    && n <= Min(|all|, PICKS) + 1 && (forall i :: 0 <= i < n ==> picks[i] in all)
    && (n == 0 ==> nb == None)
    && (forall i :: 0 <= i < n - 1 ==> !IsCentral(w, node, picks[i]))
    && (0 < n <= Min(|all|, PICKS) ==> IsCentral(w, node, picks[n - 1]))
    && (n > 0 ==> nb == if picks[n - 1] != node then Some(picks[n - 1]) else None)
  }

  /** The preference: a candidate is answered if and only if one was drawn, and a neighbour in any case. */
  lemma CandidatesPreferred(w: World, g: Graph, node: NodeId, picks: seq<NodeId>, nb: Option<NodeId>)
    requires WorldOf(w, g) && IsPicked(w, node, picks, nb)
    requires picks == [] <==> Neighbours(w.adjacency, node) == []
    ensures nb == None <==> Neighbours(w.adjacency, node) == []
    ensures nb.Some? ==> nb.value in Neighbours(w.adjacency, node)
    ensures nb.Some? && nb.value in w.candidates <==> exists pick :: pick in picks && pick in w.candidates
  {
    forall pick | pick in picks ensures pick != node {
      LabelledNeighbour(w, g, node, pick);
    }
    if picks != [] {
      assert picks[|picks| - 1] in picks;
    }
  }

  class DemoDirector {
    var agents: seq<Agent>
    var lastTs: U32
    const world: World

    ghost predicate Valid(g: Graph)
      reads this
    {
      WorldOf(world, g) && forall i :: 0 <= i < |agents| ==> agents[i].target in g.labels
    }

    /** Six waiting agents, staggered, on candidate nodes; distinct nodes as long as there are enough. */
    constructor (world: World, order: seq<NodeId>)
      requires |order| > 0
      ensures this.world == world && lastTs == 0 && agents == Starting(ROLES, order)
    {
      this.world := world;
      lastTs := 0;
      agents := Starting(ROLES, order);
    }

    method ActionEvent(ghost g: Graph, i: nat, now: U32) returns (action: Action)
      requires Valid(g) && i < |agents|
      modifies this`lastTs
      ensures IsAction(world.labels, Said(agents[i].role, agents[i].target), action)
      ensures action.ts == lastTs == NextTs(old(lastTs), now)
    {
      var a := agents[i];
      lastTs := Max(now, (lastTs + 1) % (U32_MAX + 1));
      action := Action(AGENT_FLAG + a.role.suffix, a.target, a.role.action, lastTs,
                       a.role.verb + ": " + world.labels[a.target]);
    }

    /**
     A neighbour along an edge. Up to eight are drawn until one is a candidate, and failing that one more
     is taken as it comes: `picks` are the draws, in order, and the answer is the last of them.
     */
    method NeighbourOf(node: NodeId) returns (nb: Option<NodeId>, ghost picks: seq<NodeId>)
      ensures picks == [] <==> Neighbours(world.adjacency, node) == []
      ensures IsPicked(world, node, picks, nb)
    {
      var all := Neighbours(world.adjacency, node);
      picks := [];
      if all == [] {
        return None, [];
      }
      for n := 0 to Min(|all|, PICKS)
        invariant |picks| == n && forall i :: 0 <= i < n ==> picks[i] in all && !IsCentral(world, node, picks[i])
      {
        var k :| 0 <= k < |all|;
        picks := picks + [all[k]];
        if all[k] != node && all[k] in world.candidates {
          return Some(all[k]), picks;
        }
      }
      var k :| 0 <= k < |all|;
      picks := picks + [all[k]];
      nb := if all[k] != node then Some(all[k]) else None;
    }

    method NextTarget(prev: NodeId) returns (target: NodeId)
      requires world.candidates != []
      ensures target in world.candidates || target in Neighbours(world.adjacency, prev)
    {
      var nb, _ := NeighbourOf(prev);
      var near: bool := *;
      if nb.Some? && near {
        return nb.value;
      }
      var k :| 0 <= k < |world.candidates|;
      target := world.candidates[k];
    }

    method BeginWork(ghost g: Graph, i: nat, phase: Phase, min: nat, max: nat, now: U32)
      returns (action: Action, duration: nat)
      requires Valid(g) && i < |agents| && min <= max
      modifies this
      ensures Valid(g) && min <= duration <= max
      ensures agents == old(agents)[i := Begun(old(agents)[i], phase, duration)]
      ensures IsAction(world.labels, Said(agents[i].role, agents[i].target), action)
      ensures action.ts == lastTs == NextTs(old(lastTs), now)
    {
      duration :| min <= duration <= max;
      agents := agents[i := agents[i].(phase := phase, elapsed := 0, duration := duration, keepalive := 0)];
      action := ActionEvent(g, i, now);
    }

    /** A step of agent `i` and the actions that voice it, as they leave the director. */
    twostate predicate Performed(i: nat, dt: nat, now: U32, c: Choice, out: seq<Action>)
      reads this
    {
      && i < |old(agents)|
      && (var a := old(agents)[i];
          && agents == old(agents)[i := Advanced(a, dt, c).agent] && Stepped(world, a, dt, c, agents[i])
          && Voices(world.labels, SaidBy(a.role, Advanced(a, dt, c).said), out))
      && IsChain(old(lastTs), out, now) && lastTs == LastTs(old(lastTs), out)
    }

    /** Wait and Rest: nothing until the phase is over, then work begins. */
    method TickIdle(ghost g: Graph, i: nat, dt: nat, now: U32) returns (out: seq<Action>, ghost c: Choice)
      requires Valid(g) && i < |agents| && agents[i].phase in {Wait, Rest}
      modifies this
      ensures Valid(g) && Performed(i, dt, now, c, out)
    {
      ghost var was := agents[i];
      agents := agents[i := agents[i].(elapsed := agents[i].elapsed + dt)];
      if agents[i].elapsed < agents[i].duration {
        out, c := [], Choice(0, false, was.target);
        return;
      }
      if agents[i].phase == Rest {
        var next := NextTarget(agents[i].target);
        Reachable(world, g, agents[i].target, next);
        agents := agents[i := agents[i].(target := next)];
      }
      var action, duration := BeginWork(g, i, Work, WORK_MIN_MS, WORK_MAX_MS, now);
      out, c := [action], Choice(duration, false, agents[i].target);
    }

    /** The keep-alive of a working agent. */
    method TickKeepAlive(ghost g: Graph, i: nat, dt: nat, now: U32) returns (out: seq<Action>)
      requires Valid(g) && i < |agents|
      modifies this
      ensures Valid(g)
      ensures var a := old(agents)[i];
              var due := a.keepalive + dt >= KEEPALIVE_MS;
              && agents == old(agents)[i := a.(keepalive := if due then 0 else a.keepalive + dt)]
              && Voices(world.labels, SaidBy(a.role, if due then [a.target] else []), out)
      ensures IsChain(old(lastTs), out, now) && lastTs == LastTs(old(lastTs), out)
    {
      out := [];
      agents := agents[i := agents[i].(keepalive := agents[i].keepalive + dt)];
      if agents[i].keepalive >= KEEPALIVE_MS {
        agents := agents[i := agents[i].(keepalive := 0)];
        var action := ActionEvent(g, i, now);
        out := [action];
      }
    }

    /** Work and Follow: a keep-alive if due; when the phase is over, on to a neighbour or to rest. */
    method TickBusy(ghost g: Graph, i: nat, dt: nat, now: U32) returns (out: seq<Action>, ghost c: Choice)
      requires Valid(g) && i < |agents| && agents[i].phase in {Work, Follow}
      modifies this
      ensures Valid(g) && Performed(i, dt, now, c, out)
    {
      ghost var was := agents[i];
      agents := agents[i := agents[i].(elapsed := agents[i].elapsed + dt)];
      out := TickKeepAlive(g, i, dt, now);
      c := Choice(0, false, was.target);
      if agents[i].elapsed < agents[i].duration {
        return;
      }
      var neighbour, _ := NeighbourOf(agents[i].target);
      var lucky: bool := *;
      if agents[i].phase == Work && neighbour.Some? && lucky {
        LabelledNeighbour(world, g, agents[i].target, neighbour.value);
        agents := agents[i := agents[i].(target := neighbour.value)];
        var action, duration := BeginWork(g, i, Follow, FOLLOW_MIN_MS, FOLLOW_MAX_MS, now);
        ChainJoins(old(lastTs), out, [action], now);
        out, c := out + [action], Choice(duration, true, neighbour.value);
      } else {
        var duration :| REST_MIN_MS <= duration <= REST_MAX_MS;
        agents := agents[i := agents[i].(phase := Rest, elapsed := 0, duration := duration)];
        c := Choice(duration, false, was.target);
      }
    }

    method TickOne(ghost g: Graph, i: nat, dt: nat, now: U32) returns (out: seq<Action>, ghost c: Choice)
      requires Valid(g) && i < |agents|
      modifies this
      ensures Valid(g) && Performed(i, dt, now, c, out)
    {
      match agents[i].phase
      case Wait => out, c := TickIdle(g, i, dt, now);
      case Rest => out, c := TickIdle(g, i, dt, now);
      case Work => out, c := TickBusy(g, i, dt, now);
      case Follow => out, c := TickBusy(g, i, dt, now);
    }

    /**
     Every agent advanced once. Whatever is drawn, each agent makes a step it may make, and the actions
     voice those steps in order on one chain of timestamps.
     */
    method Tick(ghost g: Graph, dt: nat, now: U32) returns (out: seq<Action>, ghost choices: seq<Choice>)
      requires Valid(g)
      modifies this
      ensures Valid(g)
      ensures IsTurn(world, Cast(old(agents), old(lastTs)), Turn(dt, now, choices, out), Cast(agents, lastTs))
    {
      out, choices := [], [];
      for i := 0 to |agents|
        invariant Valid(g) && |choices| == i && |agents| == |old(agents)|
        invariant forall k :: i <= k < |agents| ==> agents[k] == old(agents)[k]
        invariant forall k :: 0 <= k < i ==> Stepped(world, old(agents)[k], dt, choices[k], agents[k])
        invariant Voices(world.labels, AllSaid(old(agents)[..i], dt, choices), out)
        invariant IsChain(old(lastTs), out, now) && lastTs == LastTs(old(lastTs), out)
      {
        var actions, c := TickOne(g, i, dt, now);
        ChainJoins(old(lastTs), out, actions, now);
        SaidOneMore(old(agents), i, dt, choices, c);
        VoicesJoin(world.labels, AllSaid(old(agents)[..i], dt, choices), out,
                   SaidBy(old(agents)[i].role, Advanced(old(agents)[i], dt, c).said), actions);
        out, choices := out + actions, choices + [c];
      }
      assert old(agents)[..|agents|] == old(agents);
    }
  }

  // ----- runs of ticks ------------------------------------------------------------------------

  /** Any ticks of any lengths, at any times, whatever is drawn. */
  ghost predicate IsShow(w: World, casts: seq<Cast>, turns: seq<Turn>) {
    && |casts| == |turns| + 1
    && forall n :: 0 <= n < |turns| ==> IsTurn(w, casts[n], turns[n], casts[n + 1])
  }

  /** What a tick does to agent `i`. */
  predicate Moves(w: World, d: Cast, turn: Turn, d': Cast, i: nat) {
    && i < |d.agents| && i < |d'.agents| && i < |turn.choices|
    && Stepped(w, d.agents[i], turn.dt, turn.choices[i], d'.agents[i])
  }

  /** Agent `i` is there from beginning to end. */
  ghost predicate Plays(w: World, casts: seq<Cast>, turns: seq<Turn>, i: nat) {
    && |casts| == |turns| + 1 && i < |casts[0].agents|
    && forall n :: 0 <= n < |turns| ==> Moves(w, casts[n], turns[n], casts[n + 1], i)
  }

  lemma {:induction false} CastStays(w: World, casts: seq<Cast>, turns: seq<Turn>, n: nat)
    requires IsShow(w, casts, turns) && n <= |turns|
    ensures |casts[n].agents| == |casts[0].agents|
  {
    if n > 0 {
      CastStays(w, casts, turns, n - 1);
      assert IsTurn(w, casts[n - 1], turns[n - 1], casts[n - 1 + 1]);
    }
  }

  lemma EveryonePlays(w: World, casts: seq<Cast>, turns: seq<Turn>, i: nat)
    requires IsShow(w, casts, turns) && i < |casts[0].agents|
    ensures Plays(w, casts, turns, i)
  {
    forall n | 0 <= n < |turns| ensures Moves(w, casts[n], turns[n], casts[n + 1], i) {
      CastStays(w, casts, turns, n);
      assert IsTurn(w, casts[n], turns[n], casts[n + 1]);
    }
  }

  /** Agent `i` draws in every tick. */
  ghost predicate AllDraw(turns: seq<Turn>, i: nat) {
    forall n :: 0 <= n < |turns| ==> i < |turns[n].choices|
  }

  /** Agent `i` after `n` ticks, with the time since it last said something. */
  ghost function TrackedAfter(a: Agent, turns: seq<Turn>, i: nat, n: nat): Tracked
    requires AllDraw(turns, i) && n <= |turns|
  {
    if n == 0 then Tracked(a, None)
    else TrackedTick(TrackedAfter(a, turns, i, n - 1), turns[n - 1].dt, turns[n - 1].choices[i])
  }

  /** What is tracked is the agent itself. */
  lemma {:induction false} TrackedIsAgent(w: World, casts: seq<Cast>, turns: seq<Turn>, i: nat, n: nat)
    requires Plays(w, casts, turns, i) && AllDraw(turns, i) && n <= |turns|
    ensures i < |casts[n].agents| && TrackedAfter(casts[0].agents[i], turns, i, n).agent == casts[n].agents[i]
  {
    if n > 0 {
      TrackedIsAgent(w, casts, turns, i, n - 1);
      assert Moves(w, casts[n - 1], turns[n - 1], casts[n - 1 + 1], i);
      TrackedMoves(w, casts[n - 1], turns[n - 1], casts[n], i, TrackedAfter(casts[0].agents[i], turns, i, n - 1));
    }
  }

  lemma TrackedMoves(w: World, d: Cast, turn: Turn, d': Cast, i: nat, t: Tracked)
    requires Moves(w, d, turn, d', i) && t.agent == d.agents[i]
    ensures IsTick(w, t, turn.dt, turn.choices[i], TrackedTick(t, turn.dt, turn.choices[i]))
    ensures TrackedTick(t, turn.dt, turn.choices[i]).agent == d'.agents[i]
  {
  }

  lemma TrackedTicks(w: World, casts: seq<Cast>, turns: seq<Turn>, i: nat, n: nat)
    requires Plays(w, casts, turns, i) && AllDraw(turns, i) && n < |turns|
    ensures var a := casts[0].agents[i];
            IsTick(w, TrackedAfter(a, turns, i, n), turns[n].dt, turns[n].choices[i], TrackedAfter(a, turns, i, n + 1))
  {
    TrackedIsAgent(w, casts, turns, i, n);
    assert Moves(w, casts[n], turns[n], casts[n + 1], i);
    TrackedMoves(w, casts[n], turns[n], casts[n + 1], i, TrackedAfter(casts[0].agents[i], turns, i, n));
  }

  /** The ticks of a run as one agent sees them: its states, their lengths and its draws. */
  ghost function HistoryOf(a: Agent, turns: seq<Turn>, i: nat): seq<Tracked>
    requires AllDraw(turns, i)
  {
    seq(|turns| + 1, n requires 0 <= n <= |turns| => TrackedAfter(a, turns, i, n))
  }

  function Lengths(turns: seq<Turn>): seq<nat> {
    seq(|turns|, n requires 0 <= n < |turns| => turns[n].dt)
  }

  ghost function Draws(turns: seq<Turn>, i: nat): seq<Choice>
    requires AllDraw(turns, i)
  {
    seq(|turns|, n requires 0 <= n < |turns| => turns[n].choices[i])
  }

  /**
   Every run of ticks of a director gives each of its agents a history, so all that holds of histories
   holds of each agent of each run.
   */
  lemma EveryAgentHasAHistory(w: World, casts: seq<Cast>, turns: seq<Turn>, roles: seq<Role>, i: nat)
    requires IsShow(w, casts, turns) && StartsWell(w, casts[0].agents, roles) && i < |roles|
    ensures AllDraw(turns, i)
    ensures IsHistory(w, HistoryOf(casts[0].agents[i], turns, i), Lengths(turns), Draws(turns, i))
    ensures forall n :: 0 <= n <= |turns| ==>
              i < |casts[n].agents| && HistoryOf(casts[0].agents[i], turns, i)[n].agent == casts[n].agents[i]
  {
    EveryonePlays(w, casts, turns, i);
    forall n | 0 <= n < |turns| ensures i < |turns[n].choices| {
      assert Moves(w, casts[n], turns[n], casts[n + 1], i);
    }
    var a := casts[0].agents[i];
    var states, dts, cs := HistoryOf(a, turns, i), Lengths(turns), Draws(turns, i);
    forall n | 0 <= n < |turns| ensures IsTick(w, states[n], dts[n], cs[n], states[n + 1]) {
      TrackedTicks(w, casts, turns, i, n);
    }
    forall n | 0 <= n <= |turns| ensures i < |casts[n].agents| && states[n].agent == casts[n].agents[i] {
      TrackedIsAgent(w, casts, turns, i, n);
    }
    assert OnTrack(w, states[0]);
  }

  /** All actions of the first `n` ticks, in order. */
  function Out(turns: seq<Turn>, n: nat): seq<Action>
    requires n <= |turns|
  {
    if n == 0 then [] else Out(turns, n - 1) + turns[n - 1].out
  }

  lemma {:induction false} ShowAdvances(w: World, casts: seq<Cast>, turns: seq<Turn>, n: nat)
    requires IsShow(w, casts, turns) && n <= |turns|
    ensures Advances(casts[0].lastTs, Out(turns, n)) && casts[n].lastTs == LastTs(casts[0].lastTs, Out(turns, n))
  {
    if n > 0 {
      ShowAdvances(w, casts, turns, n - 1);
      assert IsTurn(w, casts[n - 1], turns[n - 1], casts[n - 1 + 1]);
      ChainAdvances(casts[n - 1].lastTs, turns[n - 1].out, turns[n - 1].now);
      AdvancesJoin(casts[0].lastTs, Out(turns, n - 1), turns[n - 1].out);
    }
  }

  /** Over any run of ticks, timestamps strictly increase from action to action until one reaches the wrap. */
  lemma StampsIncrease(w: World, casts: seq<Cast>, turns: seq<Turn>, j: nat)
    requires IsShow(w, casts, turns) && casts[0].lastTs < U32_MAX && j < |Out(turns, |turns|)|
    requires forall i :: 0 <= i < j ==> Out(turns, |turns|)[i].ts < U32_MAX
    ensures forall i :: 0 <= i < j ==> Out(turns, |turns|)[i].ts < Out(turns, |turns|)[j].ts
  {
    ShowAdvances(w, casts, turns, |turns|);
    AdvancesIncrease(casts[0].lastTs, Out(turns, |turns|), j);
  }

  lemma Reachable(w: World, g: Graph, prev: NodeId, next: NodeId)
    requires WorldOf(w, g) && (next in w.candidates || next in Neighbours(w.adjacency, prev))
    ensures next in g.labels
  {
    if next in w.candidates {
      CandidateLabelled(w, g, next);
    } else {
      LabelledNeighbour(w, g, prev, next);
    }
  }

  lemma SaidOneMore(agents: seq<Agent>, i: nat, dt: nat, choices: seq<Choice>, c: Choice)
    requires i < |agents| && |choices| == i
    ensures AllSaid(agents[..i + 1], dt, choices + [c])
         == AllSaid(agents[..i], dt, choices) + SaidBy(agents[i].role, Advanced(agents[i], dt, c).said)
  {
    assert agents[..i + 1][..i] == agents[..i] && (choices + [c])[..i] == choices;
  }

  // ----- building a director ------------------------------------------------------------------

  method BuildAdjacency(g: Graph) returns (adjacency: map<NodeId, seq<NodeId>>)
    ensures forall s :: Neighbours(adjacency, s) == Beside(g, g.edges, s)
  {
    adjacency := map[];
    for i := 0 to |g.edges|
      invariant forall s :: Neighbours(adjacency, s) == Beside(g, g.edges[..i], s)
    {
      var (s, t) := g.edges[i];
      assert g.edges[..i + 1][..i] == g.edges[..i];
      if s in g.labels && t in g.labels && s != t {
        adjacency := adjacency[s := Neighbours(adjacency, s) + [t]];
        adjacency := adjacency[t := Neighbours(adjacency, t) + [s]];
      }
    }
    assert g.edges[..|g.edges|] == g.edges;
  }

  /** The node nobody else is ahead of. */
  method BestOf(g: Graph, adjacency: map<NodeId, seq<NodeId>>, ids: set<NodeId>) returns (best: NodeId)
    requires ids != {} && forall s :: Neighbours(adjacency, s) == Beside(g, g.edges, s)
    ensures best in ids && forall x :: x in ids ==> Ahead(g, best, x)
  {
    best :| best in ids;
    var rest := ids - {best};
    while rest != {}
      invariant best in ids && rest <= ids
      invariant forall x :: x in ids && x !in rest ==> Ahead(g, best, x)
      decreases |rest|
    {
      var x :| x in rest;
      var dx, db := |Neighbours(adjacency, x)|, |Neighbours(adjacency, best)|;
      if dx > db || (dx == db && x < best) {
        best := x;
      }
      rest := rest - {x};
    }
  }

  /** The best nodes picked so far, with the rest all behind them. */
  ghost predicate PoolSoFar(g: Graph, ids: seq<NodeId>, rest: set<NodeId>) {
    && NoDuplicates(ids)
    && (forall i :: 0 <= i < |ids| ==> ids[i] in g.labels && ids[i] !in rest)
    && (forall x :: x in g.labels && x !in rest ==> x in ids)
    && (forall i, j :: 0 <= i < j < |ids| ==> Ahead(g, ids[i], ids[j]))
    && (forall i, x :: 0 <= i < |ids| && x in rest ==> Ahead(g, ids[i], x))
  }

  lemma PoolGrows(g: Graph, ids: seq<NodeId>, rest: set<NodeId>, best: NodeId)
    requires PoolSoFar(g, ids, rest) && best in rest && best in g.labels
    requires forall x :: x in rest ==> Ahead(g, best, x)
    ensures PoolSoFar(g, ids + [best], rest - {best})
  {
    var ids' := ids + [best];
    forall x | x in g.labels && x !in rest - {best} ensures x in ids' {
      assert x == best || x in ids;
    }
  }

  method TopNodes(g: Graph, adjacency: map<NodeId, seq<NodeId>>) returns (ids: seq<NodeId>)
    requires forall s :: Neighbours(adjacency, s) == Beside(g, g.edges, s)
    ensures IsPool(g, ids)
  {
    ids := [];
    var rest := g.labels.Keys;
    while |ids| < CANDIDATE_POOL && rest != {}
      invariant rest <= g.labels.Keys && |ids| + |rest| == |g.labels.Keys| && |ids| <= CANDIDATE_POOL
      invariant PoolSoFar(g, ids, rest)
      decreases |rest|
    {
      var best := BestOf(g, adjacency, rest);
      PoolGrows(g, ids, rest, best);
      ids := ids + [best];
      rest := rest - {best};
    }
  }

  lemma SwapKeeps(s: seq<NodeId>, i: nat, j: nat)
    requires i < |s| && j < |s|
    ensures var r := s[i := s[j]][j := s[i]];
            Elements(r) == Elements(s) && (NoDuplicates(s) ==> NoDuplicates(r))
  {
    var r := s[i := s[j]][j := s[i]];
    forall x ensures x in r <==> x in s {
      if x in s {
        var k :| 0 <= k < |s| && s[k] == x;
        assert r[if k == i then j else if k == j then i else k] == x;
      }
      if x in r {
        var k :| 0 <= k < |r| && r[k] == x;
        assert s[if k == i then j else if k == j then i else k] == x;
      }
    }
  }

  /** The in-place shuffle: any order of the same nodes. */
  method Shuffle(order: array<NodeId>)
    modifies order
    ensures Elements(order[..]) == Elements(old(order[..]))
    ensures NoDuplicates(old(order[..])) ==> NoDuplicates(order[..])
  {
    var i := order.Length;
    while i > 1
      invariant Elements(order[..]) == Elements(old(order[..]))
      invariant NoDuplicates(old(order[..])) ==> NoDuplicates(order[..])
      decreases i
    {
      i := i - 1;
      var j :| 0 <= j <= i;
      SwapKeeps(order[..], i, j);
      ghost var swapped := order[..][i := order[j]][j := order[i]];
      order[i], order[j] := order[j], order[i];
      assert order[..] == swapped;
    }
  }

  ghost predicate StartsWell(w: World, agents: seq<Agent>, roles: seq<Role>) {
    && |agents| == |roles|
    && (forall i :: 0 <= i < |agents| ==>
          agents[i] == Agent(roles[i], Wait, 0, roles[i].staggerMs, 0, agents[i].target)
          && agents[i].target in w.candidates && OnTrack(w, Tracked(agents[i], None)))
    && (|roles| <= |w.candidates| ==> forall i, j :: 0 <= i < j < |agents| ==> agents[i].target != agents[j].target)
  }

  lemma StartOfOne(w: World, g: Graph, roles: seq<Role>, order: seq<NodeId>, i: nat)
    requires WorldOf(w, g) && order != [] && Elements(order) == Elements(w.candidates) && i < |roles|
    ensures var a := Starting(roles, order)[i];
            && a == Agent(roles[i], Wait, 0, roles[i].staggerMs, 0, a.target)
            && a.target in w.candidates && OnTrack(w, Tracked(a, None))
  {
    var k := i % |order|;
    assert order[k] in Elements(order);
    CandidateLabelled(w, g, order[k]);
  }

  lemma SmallRemainder(i: nat, n: nat)
    requires i < n
    ensures i % n == i
  {
  }

  /** On track, each agent on a candidate, and distinct ones if there are as many candidates as agents. */
  lemma StartingWell(w: World, g: Graph, roles: seq<Role>, order: seq<NodeId>)
    requires WorldOf(w, g) && order != [] && |order| == |w.candidates|
    requires NoDuplicates(order) && Elements(order) == Elements(w.candidates)
    ensures StartsWell(w, Starting(roles, order), roles)
  {
    var agents := Starting(roles, order);
    forall i | 0 <= i < |agents|
      ensures agents[i] == Agent(roles[i], Wait, 0, roles[i].staggerMs, 0, agents[i].target)
           && agents[i].target in w.candidates && OnTrack(w, Tracked(agents[i], None)) {
      StartOfOne(w, g, roles, order, i);
    }
    if |roles| <= |order| {
      forall i, j | 0 <= i < j < |agents| ensures agents[i].target != agents[j].target {
        SmallRemainder(i, |order|);
        SmallRemainder(j, |order|);
      }
    }
  }

  /** So the first agent of every director can be given up by the clients while it rests. */
  lemma FirstAgentCanBeGivenUp(w: World, agents: seq<Agent>)
    returns (states: seq<Tracked>, dts: seq<nat>, cs: seq<Choice>)
    requires StartsWell(w, agents, ROLES)
    ensures |agents| > 0 && IsHistory(w, states, dts, cs) && states[0] == Tracked(agents[0], None) && |dts| == 144
    ensures Speaks(states[20], dts[20], cs[20]) && Speaks(states[143], dts[143], cs[143])
    ensures forall k :: 20 < k < 143 ==> !Speaks(states[k], dts[k], cs[k])
    ensures Sum(dts[21..144]) > EVIDENCE_TTL_MS
  {
    assert ROLES[0].staggerMs == 0;
    states, dts, cs := RestOutlastsEvidence(w, agents[0]);
  }

  /** A director exactly for a graph with a labelled node. */
  method NewDirector(g: Graph) returns (d: DemoDirector?)
    ensures d == null <==> |g.labels| == 0
    ensures d != null ==> fresh(d) && d.Valid(g) && d.lastTs == 0 && StartsWell(d.world, d.agents, ROLES)
  {
    var adjacency := BuildAdjacency(g);
    var ranked := TopNodes(g, adjacency);
    if ranked == [] {
      return null;
    }
    var order := new NodeId[|ranked|](i requires 0 <= i < |ranked| => ranked[i]);
    assert order[..] == ranked;
    Shuffle(order);
    var world := World(g.labels, adjacency, ranked);
    StartingWell(world, g, ROLES, order[..]);
    d := new DemoDirector(world, order[..]);
  }
}
