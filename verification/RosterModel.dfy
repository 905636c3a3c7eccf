/**
 The real-agent roster feed (src/actors/agent_roster_feed.rs): rosters and time in, agent frames out.

 The state is a value (`Roster`) with the primitive changes an API call is made of; `RosterFeed` is the
 object the actor holds, whose methods are proved to perform exactly those changes.
 */
module RosterModel {
  import opened Basics
  import opened KeyOrder

  const AGENT_FLAG: nat := 0x8000_0000
  const BAND_BASE: nat := 0x0200_0000
  const BAND_SIZE: nat := 0x0200_0000
  const ID_SPACE: nat := 0x0400_0000
  const KEEPALIVE_MS: nat := 5000
  const MAX_HELD_FINISHED: nat := 64

  datatype Source = ManagementApi | Mcp | Rest | Mock

  /** A roster line; `detail` stands for the fields no decision depends on. */
  datatype Agent = Agent(id: string, name: string, status: string, detail: string)

  datatype Live = Live(id: nat, source: Source, agent: Agent, done: bool, doneAt: U32, left: bool, target: nat)

  datatype Phase = Working | Finished | Retired

  datatype Frame =
    | StateFrame(wire: nat, target: nat, ts: U32, phase: Phase, name: string, intent: string)
    | ActionFrame(wire: nat, target: nat, ts: U32)

  datatype Roster = Roster(
    agents: map<string, Live>,
    byId: map<nat, string>,
    sinceKeepalive: nat,
    lastTs: map<nat, U32>)

  const EmptyRoster := Roster(map[], map[], 0, map[])

  /** A changed roster and the frames that announce the change. */
  datatype Out = Out(roster: Roster, frames: seq<Frame>)

  type Hash = string -> nat
  type Target = (string, nat)

  // ----- ids and clocks -----------------------------------------------------------------------

  function Wire(id: nat): nat {
    AGENT_FLAG + id
  }

  /** The id bits of a wire id, without the flag. */
  function Bare(wire: nat): nat {
    wire % ID_SPACE
  }

  lemma BareOfWire(id: nat)
    requires id < ID_SPACE
    ensures Bare(Wire(id)) == id
  {
  }

  predicate InBand(id: nat) {
    BAND_BASE <= id < BAND_BASE + BAND_SIZE
  }

  function ProbedId(start: nat, n: nat): nat {
    BAND_BASE + (start + n) % BAND_SIZE
  }

  /** The first free id from the `n`-th probe on; the un-probed id when all are taken. */
  function Probe(byId: map<nat, string>, start: nat, n: nat): nat
    requires n < BAND_SIZE
    decreases BAND_SIZE - n
  {
    if ProbedId(start, n) !in byId then ProbedId(start, n)
    else if n + 1 == BAND_SIZE then ProbedId(start, 0)
    else Probe(byId, start, n + 1)
  }

  function Allocate(byId: map<nat, string>, hash: nat): nat {
    Probe(byId, hash % BAND_SIZE, 0)
  }

  /** The next timestamp of one agent: the time now, or one past its last, wrapping at 32 bits. */
  function Stamped(lastTs: map<nat, U32>, id: nat, now: U32): U32 {
    if id in lastTs && now <= lastTs[id] then (lastTs[id] + 1) % (U32_MAX + 1) else now
  }

  // ----- statuses -----------------------------------------------------------------------------

  function LowerAscii(c: char): char {
    if 'A' <= c <= 'Z' then c - 'A' + 'a' else c
  }

  function Lowered(s: string): string {
    seq(|s|, i requires 0 <= i < |s| => LowerAscii(s[i]))
  }

  predicate IsFinished(status: string) {
    Lowered(status) in {"completed", "failed", "done"}
  }

  function PhaseOf(l: Live): Phase {
    if l.done then Finished else Working
  }

  // ----- primitive changes --------------------------------------------------------------------

  /** Announce agent `k` in phase `phase`. */
  function Announced(f: Roster, k: string, phase: Phase, now: U32): Out
    requires k in f.agents
  {
    var l := f.agents[k];
    var ts := Stamped(f.lastTs, l.id, now);
    var intent := if l.agent.name == "" then k else l.agent.name;
    Out(f.(lastTs := f.lastTs[l.id := ts]), [StateFrame(Wire(l.id), l.target, ts, phase, l.agent.name, intent)])
  }

  datatype Op =
    | Leave(key: string)
    | Retire(key: string)
    | Name(source: Source, agent: Agent, target: nat)
    | KeepAlive(key: string)

  /** No longer named by its producer: finished from now on, unless it was already. */
  function Departed(f: Roster, k: string, now: U32): Out
    requires k in f.agents
  {
    var l := f.agents[k];
    if l.done then Out(f.(agents := f.agents[k := l.(left := true)]), [])
    else Announced(f.(agents := f.agents[k := l.(left := true, done := true, doneAt := now)]), k, Finished, now)
  }

  function Dismissed(f: Roster, k: string, now: U32): Out
    requires k in f.agents
  {
    var id := f.agents[k].id;
    var told := Announced(f, k, Retired, now);
    Out(f.(agents := f.agents - {k}, byId := f.byId - {id}, lastTs := told.roster.lastTs - {id}), told.frames)
  }

  /** What a roster line says about an agent already known. */
  function Relisted(l: Live, a: Agent, now: U32): Live {
    var done := IsFinished(a.status);
    l.(done := done, doneAt := if done && !l.done then now else l.doneAt, left := false, agent := a)
  }

  function Named(f: Roster, source: Source, a: Agent, target: nat, now: U32, hash: Hash): Out {
    if a.id in f.agents then
      var l := f.agents[a.id];
      var l' := Relisted(l, a, now);
      var f' := f.(agents := f.agents[a.id := l']);
      if l.done != l'.done || l.agent.name != a.name then Announced(f', a.id, PhaseOf(l'), now) else Out(f', [])
    else
      var id := Allocate(f.byId, hash(a.id));
      var l := Live(id, source, a, IsFinished(a.status), now, false, target);
      Announced(f.(agents := f.agents[a.id := l], byId := f.byId[id := a.id]), a.id, PhaseOf(l), now)
  }

  function Do(f: Roster, op: Op, now: U32, hash: Hash): Out {
    match op
    case Leave(k) => if k in f.agents then Departed(f, k, now) else Out(f, [])
    case Retire(k) => if k in f.agents then Dismissed(f, k, now) else Out(f, [])
    case Name(source, a, target) => Named(f, source, a, target, now, hash)
    case KeepAlive(k) => if k in f.agents then Announced(f, k, PhaseOf(f.agents[k]), now) else Out(f, [])
  }

  function DoAll(f: Roster, ops: seq<Op>, now: U32, hash: Hash): Out {
    if ops == [] then Out(f, [])
    else
      var before := DoAll(f, ops[..|ops| - 1], now, hash);
      var last := Do(before.roster, ops[|ops| - 1], now, hash);
      Out(last.roster, before.frames + last.frames)
  }

  lemma DoOneMore(f: Roster, ops: seq<Op>, op: Op, now: U32, hash: Hash)
    ensures var before := DoAll(f, ops, now, hash);
            var last := Do(before.roster, op, now, hash);
            DoAll(f, ops + [op], now, hash) == Out(last.roster, before.frames + last.frames)
  {
    assert (ops + [op])[..|ops|] == ops;
  }

  // ----- one call -----------------------------------------------------------------------------

  /** The work node a producer's list gives a known agent: the last it lists, or the one it had. */
  function NewTarget(targets: seq<Target>, k: string, current: nat): nat {
    if targets == [] then current
    else if targets[|targets| - 1].0 == k then targets[|targets| - 1].1
    else NewTarget(targets[..|targets| - 1], k, current)
  }

  function Retargeted(agents: Agents, targets: seq<Target>): Agents {
    map k | k in agents :: agents[k].(target := NewTarget(targets, k, agents[k].target))
  }

  /** The work node a producer gives a new agent: the first it lists, or none. */
  function TargetFor(targets: seq<Target>, k: string): nat {
    if targets == [] then 0
    else if targets[0].0 == k then targets[0].1
    else TargetFor(targets[1..], k)
  }

  /** The lines that count: the first of each non-empty id. */
  function Lines(roster: seq<Agent>): seq<Agent> {
    if roster == [] then []
    else
      var ls := Lines(roster[..|roster| - 1]);
      var a := roster[|roster| - 1];
      if a.id == "" || a.id in Names(roster[..|roster| - 1]) then ls else ls + [a]
  }

  function Names(roster: seq<Agent>): set<string> {
    set a | a in roster && a.id != "" :: a.id
  }

  type Agents = map<string, Live>

  /** Agents of this producer, still on its roster, that it names no more. */
  function Gone(agents: Agents, source: Source, names: set<string>): set<string> {
    set k | k in agents && agents[k].source == source && !agents[k].left && k !in names
  }

  /** Those of them that had already reported themselves done. */
  function GoneDone(agents: Agents, source: Source, names: set<string>): set<string> {
    set k | k in Gone(agents, source, names) && agents[k].done
  }

  function Held(agents: Agents): set<string> {
    set k | k in agents && agents[k].left && agents[k].done
  }

  function ByKey(keys: set<string>): Dates {
    map k | k in keys :: 0
  }

  function ByAge(agents: Agents): Dates {
    map k | k in Held(agents) :: agents[k].doneAt
  }

  /** The oldest held agents, as many as there are too many. */
  ghost function Overflow(agents: Agents): set<string> {
    if |Held(agents)| <= MAX_HELD_FINISHED then {}
    else
      assert |ByAge(agents)| == |Held(agents)| by { assert ByAge(agents).Keys == Held(agents); }
      Elements(Ordered(ByAge(agents))[..|Held(agents)| - MAX_HELD_FINISHED])
  }

  ghost function Sorted(keys: set<string>): seq<string> {
    Ordered(ByKey(keys))
  }

  function Leaves(ks: seq<string>): seq<Op> {
    seq(|ks|, i requires 0 <= i < |ks| => Leave(ks[i]))
  }

  function Retires(ks: seq<string>): seq<Op> {
    seq(|ks|, i requires 0 <= i < |ks| => Retire(ks[i]))
  }

  function KeepAlives(ks: seq<string>): seq<Op> {
    seq(|ks|, i requires 0 <= i < |ks| => KeepAlive(ks[i]))
  }

  function Namings(source: Source, lines: seq<Agent>, targets: seq<Target>): seq<Op> {
    seq(|lines|, i requires 0 <= i < |lines| => Name(source, lines[i], TargetFor(targets, lines[i].id)))
  }

  /** Departures: `done` for the agents just gone, `retired` for those done before, then the overflow. */
  ghost function Cleared(f: Roster, source: Source, names: set<string>, now: U32, hash: Hash): Out {
    var left := DoAll(f, Leaves(Sorted(Gone(f.agents, source, names))), now, hash);
    var retired := DoAll(left.roster, Retires(Sorted(GoneDone(f.agents, source, names))), now, hash);
    var trimmed := DoAll(retired.roster, Retires(Sorted(Overflow(retired.roster.agents))), now, hash);
    Out(trimmed.roster, left.frames + retired.frames + trimmed.frames)
  }

  ghost function Applied(f: Roster, source: Source, roster: seq<Agent>, targets: seq<Target>, now: U32,
                         hash: Hash): Out {
    var cleared := Cleared(f.(agents := Retargeted(f.agents, targets)), source, Names(roster), now, hash);
    var listed := DoAll(cleared.roster, Namings(source, Lines(roster), targets), now, hash);
    Out(listed.roster, cleared.frames + listed.frames)
  }

  ghost function Ticked(f: Roster, dt: nat, now: U32, hash: Hash): Out {
    if f.sinceKeepalive + dt < KEEPALIVE_MS then Out(f.(sinceKeepalive := f.sinceKeepalive + dt), [])
    else DoAll(f.(sinceKeepalive := 0), KeepAlives(Sorted(f.agents.Keys)), now, hash)
  }

  /** A hub action whose task is on the roster is re-sourced to that agent, on its clock. */
  function Joined(f: Roster, task: Option<string>, target: nat, at: U32): Out {
    if task == None || task.value !in f.agents then Out(f, [])
    else
      var l := f.agents[task.value];
      var ts := Stamped(f.lastTs, l.id, at);
      Out(f.(agents := if target != 0 then f.agents[task.value := l.(target := target)] else f.agents,
             lastTs := f.lastTs[l.id := ts]),
          [ActionFrame(Wire(l.id), target, ts)])
  }

  // ----- what every call keeps ----------------------------------------------------------------

  ghost predicate KeyOk(f: Roster, k: string) {
    k in f.agents ==>
      var l := f.agents[k];
      InBand(l.id) && l.id in f.byId && f.byId[l.id] == k && l.agent.id == k && (l.left ==> l.done)
  }

  ghost predicate IdOk(f: Roster, id: nat) {
    && (id in f.byId ==> f.byId[id] in f.agents && f.agents[f.byId[id]].id == id)
    && (id in f.byId <==> id in f.lastTs)
  }

  /**
   Names and ids are inverse to each other, ids lie in the band, the clocks are those of the live ids,
   and whoever left is finished.
   */
  ghost predicate Valid(f: Roster) {
    && (forall k {:trigger KeyOk(f, k)} :: KeyOk(f, k))
    && (forall id: nat {:trigger IdOk(f, id)} :: IdOk(f, id))
  }
}
