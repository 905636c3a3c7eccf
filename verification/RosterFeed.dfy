/**
 The object behind the agent-beam actor: `RosterFeed` of src/actors/agent_roster_feed.rs, field by field
 and loop by loop, proved to perform exactly the roster changes whose meaning `RosterRuns` states.
 */
module RosterFeed {
  import opened Basics
  import opened KeyOrder
  import opened RosterModel
  import opened RosterReplay
  import opened RosterCalls
  import opened RosterRuns

  /** Ids fit below the flag bits, so that a wire id leads back to its clock. */
  ghost predicate Narrow(agents: Agents) {
    forall k :: k in agents ==> agents[k].id < ID_SPACE
  }

  class RosterFeed {
    var agents: Agents
    var byId: map<nat, string>
    var sinceKeepalive: nat
    var lastTs: map<nat, U32>
    const hasher: Hash

    ghost function State(): Roster
      reads this
    {
      Roster(agents, byId, sinceKeepalive, lastTs)
    }

    constructor (hasher: Hash)
      ensures State() == EmptyRoster && this.hasher == hasher && Narrow(agents)
    {
      this.hasher := hasher;
      agents, byId, sinceKeepalive, lastTs := map[], map[], 0, map[];
    }

    /** The probing loop; it ends on a free id exactly when the band has one. */
    method AllocateId(key: string) returns (id: nat)
      ensures id == Allocate(byId, hasher(key)) && InBand(id)
      ensures id !in byId <==> HasRoom(byId)
    {
      AllocateFree(byId, hasher(key));
      id := FindFree(byId, hasher(key) % BAND_SIZE);
    }

    /** One clock per agent: later than its last stamp, until the 32-bit clock wraps. */
    method Stamp(wire: nat, now: U32) returns (ts: U32)
      modifies this`lastTs
      ensures ts == Stamped(old(lastTs), Bare(wire), now) && lastTs == old(lastTs)[Bare(wire) := ts]
      ensures Bare(wire) in old(lastTs) ==> (ts > old(lastTs)[Bare(wire)] <==> old(lastTs)[Bare(wire)] < U32_MAX)
    {
      var key := Bare(wire);
      if key in lastTs && now <= lastTs[key] {
        ts := (lastTs[key] + 1) % (U32_MAX + 1);
      } else {
        ts := now;
      }
      lastTs := lastTs[key := ts];
    }

    method StateEvent(key: string, phase: Phase, now: U32) returns (out: seq<Frame>)
      requires Narrow(agents)
      modifies this`lastTs
      ensures key in agents ==> Out(State(), out) == Announced(old(State()), key, phase, now)
      ensures key !in agents ==> out == [] && lastTs == old(lastTs)
    {
      if key !in agents {
        return [];
      }
      var l := agents[key];
      var intent := if l.agent.name == "" then key else l.agent.name;
      BareOfWire(l.id);
      var ts := Stamp(Wire(l.id), now);
      out := [StateFrame(Wire(l.id), l.target, ts, phase, l.agent.name, intent)];
    }

    method RetireOne(key: string, now: U32) returns (out: seq<Frame>)
      requires Narrow(agents)
      modifies this
      ensures Narrow(agents)
      ensures Out(State(), out) == Do(old(State()), Retire(key), now, hasher)
    {
      out := StateEvent(key, Retired, now);
      if key in agents {
        var id := agents[key].id;
        agents := agents - {key};
        byId := byId - {id};
        lastTs := lastTs - {id};
      }
    }

    /** One `retired` frame for each of `keys`, in key order; frees the ids. */
    method RetireAll(keys: set<string>, now: U32) returns (out: seq<Frame>)
      requires Narrow(agents)
      modifies this
      ensures Narrow(agents)
      ensures Out(State(), out) == DoAll(old(State()), Retires(Sorted(keys)), now, hasher)
    {
      var ks := SortKeys(ByKey(keys));
      out := [];
      for i := 0 to |ks|
        invariant Narrow(agents)
        invariant Out(State(), out) == DoAll(old(State()), Retires(ks[..i]), now, hasher)
      {
        var frames := RetireOne(ks[i], now);
        out := out + frames;
        NextRetire(old(State()), ks, i, now, hasher);
      }
      assert ks[..|ks|] == ks;
    }

    method RetireOverflow(now: U32) returns (out: seq<Frame>)
      requires Narrow(agents)
      modifies this
      ensures Narrow(agents)
      ensures Out(State(), out) == DoAll(old(State()), Retires(Sorted(Overflow(old(agents)))), now, hasher)
    {
      var keys := OldestHeld(agents);
      out := RetireAll(keys, now);
    }

    /** Whoever this producer stopped naming: finished now, or, if done before, to be retired. */
    method MarkLeft(gone: set<string>, now: U32) returns (out: seq<Frame>, departed: seq<string>)
      requires Narrow(agents) && gone <= agents.Keys
      modifies this
      ensures Narrow(agents)
      ensures Out(State(), out) == DoAll(old(State()), Leaves(Sorted(gone)), now, hasher)
      ensures departed == DoneAmong(old(agents), Sorted(gone))
    {
      ghost var f := State();
      var ks := SortKeys(ByKey(gone));
      SortedKeysLive(f.agents, gone);
      out, departed := [], [];
      for i := 0 to |ks|
        invariant Narrow(agents)
        invariant Out(State(), out) == DoAll(f, Leaves(ks[..i]), now, hasher)
        invariant departed == DoneAmong(f.agents, ks[..i])
      {
        NextLeave(f, ks, i, now, hasher);
        NextDone(f.agents, ks, i);
        var frames, done := MarkOne(ks[i], now);
        out := out + frames;
        if done {
          departed := departed + [ks[i]];
        }
      }
      assert ks[..|ks|] == ks;
    }

    method MarkOne(k: string, now: U32) returns (out: seq<Frame>, done: bool)
      requires Narrow(agents) && k in agents
      modifies this
      ensures Narrow(agents)
      ensures Out(State(), out) == Do(old(State()), Leave(k), now, hasher)
      ensures done == old(agents)[k].done
    {
      var l := agents[k];
      done := l.done;
      agents := agents[k := l.(left := true)];
      if done {
        out := [];
      } else {
        agents := agents[k := agents[k].(done := true, doneAt := now)];
        out := StateEvent(k, Finished, now);
      }
    }

    /** A line about an agent already known: announced if its state or name changed. */
    method Relist(a: Agent, now: U32) returns (out: seq<Frame>)
      requires Narrow(agents) && a.id in agents
      modifies this
      ensures Narrow(agents)
      ensures forall source, target :: Out(State(), out) == Named(old(State()), source, a, target, now, hasher)
    {
      var done := IsFinished(a.status);
      var l := agents[a.id];
      var changed := l.done != done || l.agent.name != a.name;
      if done && !l.done {
        l := l.(doneAt := now);
      }
      l := l.(done := done, left := false, agent := a);
      agents := agents[a.id := l];
      if changed {
        out := StateEvent(a.id, PhaseOf(l), now);
      } else {
        out := [];
      }
    }

    /** A line about a new agent: it gets an id and is announced. */
    method Spawn(source: Source, a: Agent, target: nat, now: U32) returns (out: seq<Frame>)
      requires Narrow(agents) && a.id !in agents
      modifies this
      ensures Narrow(agents)
      ensures Out(State(), out) == Named(old(State()), source, a, target, now, hasher)
    {
      var done := IsFinished(a.status);
      var id := AllocateId(a.id);
      byId := byId[id := a.id];
      agents := agents[a.id := Live(id, source, a, done, now, false, target)];
      out := StateEvent(a.id, if done then Finished else Working, now);
    }

    /** One roster line: an agent known, changed, or new. */
    method ListOne(source: Source, a: Agent, target: nat, now: U32) returns (out: seq<Frame>)
      requires Narrow(agents)
      modifies this
      ensures Narrow(agents)
      ensures Out(State(), out) == Do(old(State()), Name(source, a, target), now, hasher)
    {
      if a.id in agents {
        out := Relist(a, now);
      } else {
        out := Spawn(source, a, target, now);
      }
    }

    method ListAll(source: Source, lines: seq<Agent>, targets: seq<Target>, now: U32) returns (out: seq<Frame>)
      requires Narrow(agents)
      modifies this
      ensures Narrow(agents)
      ensures Out(State(), out) == DoAll(old(State()), Namings(source, lines, targets), now, hasher)
    {
      out := [];
      for i := 0 to |lines|
        invariant Narrow(agents)
        invariant Out(State(), out) == DoAll(old(State()), Namings(source, lines[..i], targets), now, hasher)
      {
        var a := lines[i];
        var target := FindTarget(targets, a.id);
        var frames := ListOne(source, a, target, now);
        out := out + frames;
        NextNaming(old(State()), source, lines, targets, i, now, hasher);
      }
      assert lines[..|lines|] == lines;
    }

    method Retarget(targets: seq<Target>)
      requires Narrow(agents)
      modifies this`agents
      ensures agents == Retargeted(old(agents), targets) && Narrow(agents)
    {
      for i := 0 to |targets|
        invariant agents == Retargeted(old(agents), targets[..i])
      {
        var (k, node) := targets[i];
        assert targets[..i + 1][..i] == targets[..i];
        if k in agents {
          agents := agents[k := agents[k].(target := node)];
        }
      }
      assert targets[..|targets|] == targets;
    }

    /**
     One producer's roster. The new roster and the frames are those of `Applied`; whoever is held stays
     within the bound, and a roster that already applied is met with silence.
     */
    method Apply(source: Source, roster: seq<Agent>, targets: seq<Target>, now: U32) returns (out: seq<Frame>)
      requires Narrow(agents)
      modifies this
      ensures Narrow(agents)
      ensures Out(State(), out) == Applied(old(State()), source, roster, targets, now, hasher)
      ensures |Held(agents)| <= MAX_HELD_FINISHED
      ensures Settled(old(agents), source, roster) ==> out == []
    {
      ghost var before := State();
      out := ApplyAll(source, roster, targets, now);
      AppliedPromises(before, source, roster, targets, now, hasher);
    }

    method ApplyAll(source: Source, roster: seq<Agent>, targets: seq<Target>, now: U32) returns (out: seq<Frame>)
      requires Narrow(agents)
      modifies this
      ensures Narrow(agents)
      ensures Out(State(), out) == Applied(old(State()), source, roster, targets, now, hasher)
    {
      ghost var before := State();
      Retarget(targets);
      var named, seen := SelectLines(roster);
      var cleared := Clear(source, seen, now);
      ghost var departures := Out(State(), cleared);
      var listed := ListAll(source, named, targets, now);
      out := cleared + listed;
      AppliedIs(before, source, roster, targets, now, hasher, departures, Out(State(), listed));
    }

    /** Departures, retirements and the bound on held agents, before the lines are gone through. */
    method Clear(source: Source, seen: set<string>, now: U32) returns (out: seq<Frame>)
      requires Narrow(agents)
      modifies this
      ensures Narrow(agents)
      ensures Out(State(), out) == Cleared(old(State()), source, seen, now, hasher)
    {
      DoneOfGone(agents, source, seen);
      var gone, departed := MarkLeft(Gone(agents, source, seen), now);
      var retired := RetireAll(Elements(departed), now);
      var trimmed := RetireOverflow(now);
      out := gone + retired + trimmed;
    }

    /** Keep-alives: nothing before they are due; then every live agent once. Retires nobody. */
    method Tick(dt: nat, now: U32) returns (out: seq<Frame>)
      requires Narrow(agents)
      modifies this
      ensures Narrow(agents) && agents == old(agents)
      ensures Out(State(), out) == Ticked(old(State()), dt, now, hasher)
      ensures RetiredWires(out) == {}
    {
      TickedShape(State(), dt, now, hasher);
      sinceKeepalive := sinceKeepalive + dt;
      if sinceKeepalive < KEEPALIVE_MS {
        out := [];
      } else {
        sinceKeepalive := 0;
        out := DescribeAll(now);
      }
    }

    method DescribeOne(key: string, now: U32) returns (out: seq<Frame>)
      requires Narrow(agents)
      modifies this`lastTs
      ensures Out(State(), out) == Do(old(State()), KeepAlive(key), now, hasher)
    {
      out := [];
      if key in agents {
        out := StateEvent(key, PhaseOf(agents[key]), now);
      }
    }

    method DescribeAll(now: U32) returns (out: seq<Frame>)
      requires Narrow(agents)
      modifies this`lastTs
      ensures Out(State(), out) == DoAll(old(State()), KeepAlives(Sorted(agents.Keys)), now, hasher)
    {
      var ks := SortKeys(ByKey(agents.Keys));
      out := [];
      for i := 0 to |ks|
        invariant Out(State(), out) == DoAll(old(State()), KeepAlives(ks[..i]), now, hasher)
      {
        var frames := DescribeOne(ks[i], now);
        out := out + frames;
        NextKeepAlive(old(State()), ks, i, now, hasher);
      }
      assert ks[..|ks|] == ks;
    }

    /** A hub action of a roster task, re-sourced; any other is left as it is. */
    method Join(task: Option<string>, target: nat, at: U32) returns (out: seq<Frame>)
      requires Narrow(agents)
      modifies this
      ensures Narrow(agents)
      ensures Out(State(), out) == Joined(old(State()), task, target, at)
      ensures out == [] <==> task == None || task.value !in old(agents)
    {
      if task == None || task.value !in agents {
        return [];
      }
      var l := agents[task.value];
      if target != 0 {
        agents := agents[task.value := l.(target := target)];
      }
      BareOfWire(l.id);
      var ts := Stamp(Wire(l.id), at);
      out := [ActionFrame(Wire(l.id), target, ts)];
    }
  }

  /** The oldest held agents beyond the bound. */
  method OldestHeld(agents: Agents) returns (keys: set<string>)
    ensures keys == Overflow(agents)
  {
    var held := ByAge(agents);
    assert held.Keys == Held(agents);
    if |held| <= MAX_HELD_FINISHED {
      return {};
    }
    var oldestFirst := SortKeys(held);
    keys := Elements(oldestFirst[..|held| - MAX_HELD_FINISHED]);
  }

  /** Those of the keys whose agents are done, in order. */
  function DoneAmong(agents: Agents, ks: seq<string>): seq<string> {
    if ks == [] then []
    else
      var k := ks[|ks| - 1];
      DoneAmong(agents, ks[..|ks| - 1]) + if k in agents && agents[k].done then [k] else []
  }

  lemma NextDone(agents: Agents, ks: seq<string>, i: nat)
    requires i < |ks| && ks[i] in agents
    ensures DoneAmong(agents, ks[..i + 1]) == DoneAmong(agents, ks[..i]) + if agents[ks[i]].done then [ks[i]] else []
  {
    assert ks[..i + 1][..i] == ks[..i];
  }

  lemma {:induction false} DoneAmongKeys(agents: Agents, ks: seq<string>, k: string)
    ensures k in DoneAmong(agents, ks) <==> k in ks && k in agents && agents[k].done
  {
    if ks != [] {
      var n := |ks| - 1;
      DoneAmongKeys(agents, ks[..n], k);
      assert k in ks <==> k in ks[..n] || k == ks[n];
    }
  }

  lemma SortedKeysLive(agents: Agents, gone: set<string>)
    requires gone <= agents.Keys
    ensures NoDuplicates(Sorted(gone)) && forall i :: 0 <= i < |Sorted(gone)| ==> Sorted(gone)[i] in agents
  {
    OrderedDistinct(ByKey(gone));
    forall i | 0 <= i < |Sorted(gone)| ensures Sorted(gone)[i] in agents {
      SortedKeys(gone, Sorted(gone)[i]);
    }
  }

  /** The next agent to leave is still as it was when the call began. */
  lemma NextLeave(f: Roster, ks: seq<string>, i: nat, now: U32, hash: Hash)
    requires i < |ks| && NoDuplicates(ks) && ks[i] in f.agents
    ensures var before := DoAll(f, Leaves(ks[..i]), now, hash);
            var last := Do(before.roster, Leave(ks[i]), now, hash);
            && ks[i] in before.roster.agents && before.roster.agents[ks[i]] == f.agents[ks[i]]
            && DoAll(f, Leaves(ks[..i + 1]), now, hash) == Out(last.roster, before.frames + last.frames)
  {
    assert ks[i] !in ks[..i];
    LeavesShape(f, ks[..i], now, hash, ks[i]);
    DoOneMore(f, Leaves(ks[..i]), Leave(ks[i]), now, hash);
    LeavesGrow(ks[..i + 1]);
    assert ks[..i + 1][..i] == ks[..i];
  }

  lemma NextRetire(f: Roster, ks: seq<string>, i: nat, now: U32, hash: Hash)
    requires i < |ks|
    ensures var before := DoAll(f, Retires(ks[..i]), now, hash);
            var last := Do(before.roster, Retire(ks[i]), now, hash);
            DoAll(f, Retires(ks[..i + 1]), now, hash) == Out(last.roster, before.frames + last.frames)
  {
    DoOneMore(f, Retires(ks[..i]), Retire(ks[i]), now, hash);
    RetiresGrow(ks[..i + 1]);
    assert ks[..i + 1][..i] == ks[..i];
  }

  lemma NextKeepAlive(f: Roster, ks: seq<string>, i: nat, now: U32, hash: Hash)
    requires i < |ks|
    ensures var before := DoAll(f, KeepAlives(ks[..i]), now, hash);
            var last := Do(before.roster, KeepAlive(ks[i]), now, hash);
            DoAll(f, KeepAlives(ks[..i + 1]), now, hash) == Out(last.roster, before.frames + last.frames)
  {
    DoOneMore(f, KeepAlives(ks[..i]), KeepAlive(ks[i]), now, hash);
    KeepAlivesGrow(ks[..i + 1]);
    assert ks[..i + 1][..i] == ks[..i];
  }

  lemma NextNaming(f: Roster, source: Source, lines: seq<Agent>, targets: seq<Target>, i: nat, now: U32, hash: Hash)
    requires i < |lines|
    ensures var before := DoAll(f, Namings(source, lines[..i], targets), now, hash);
            var last := Do(before.roster, Name(source, lines[i], TargetFor(targets, lines[i].id)), now, hash);
            DoAll(f, Namings(source, lines[..i + 1], targets), now, hash)
              == Out(last.roster, before.frames + last.frames)
  {
    var op := Name(source, lines[i], TargetFor(targets, lines[i].id));
    DoOneMore(f, Namings(source, lines[..i], targets), op, now, hash);
    assert Namings(source, lines[..i + 1], targets) == Namings(source, lines[..i], targets) + [op];
  }

  lemma DoneOfGone(agents: Agents, source: Source, names: set<string>)
    ensures Elements(DoneAmong(agents, Sorted(Gone(agents, source, names)))) == GoneDone(agents, source, names)
  {
    var gone := Gone(agents, source, names);
    forall k ensures k in DoneAmong(agents, Sorted(gone)) <==> k in GoneDone(agents, source, names) {
      DoneAmongKeys(agents, Sorted(gone), k);
      SortedKeys(gone, k);
    }
  }

  /** The two halves of a call, put together. */
  lemma AppliedIs(f: Roster, source: Source, roster: seq<Agent>, targets: seq<Target>, now: U32, hash: Hash,
                  cleared: Out, listed: Out)
    requires cleared == Cleared(f.(agents := Retargeted(f.agents, targets)), source, Names(roster), now, hash)
    requires listed == DoAll(cleared.roster, Namings(source, Lines(roster), targets), now, hash)
    ensures Applied(f, source, roster, targets, now, hash) == Out(listed.roster, cleared.frames + listed.frames)
  {
  }

  lemma AppliedPromises(f: Roster, source: Source, roster: seq<Agent>, targets: seq<Target>, now: U32, hash: Hash)
    ensures |Held(Applied(f, source, roster, targets, now, hash).roster.agents)| <= MAX_HELD_FINISHED
    ensures Settled(f.agents, source, roster) ==> Applied(f, source, roster, targets, now, hash).frames == []
  {
    AppliedHeldBound(f, source, roster, targets, now, hash);
    if Settled(f.agents, source, roster) {
      SettledIsSilent(f, source, roster, targets, now, hash);
    }
  }

  lemma NextProbe(start: nat, n: nat, off: nat)
    requires start < BAND_SIZE && n < BAND_SIZE && off == (start + n) % BAND_SIZE
    ensures (off + 1) % BAND_SIZE == (start + n + 1) % BAND_SIZE
    ensures (off + 1) % BAND_SIZE == start <==> n + 1 == BAND_SIZE
  {
  }

  method FindFree(byId: map<nat, string>, start: nat) returns (id: nat)
    requires start < BAND_SIZE
    ensures id == Probe(byId, start, 0)
  {
    var off := start;
    ghost var n := 0;
    while true
      invariant n < BAND_SIZE && off == (start + n) % BAND_SIZE
      invariant Probe(byId, start, n) == Probe(byId, start, 0)
      decreases BAND_SIZE - n
    {
      id := BAND_BASE + off;
      if id !in byId {
        return;
      }
      NextProbe(start, n, off);
      off := (off + 1) % BAND_SIZE;
      if off == start {
        id := BAND_BASE + start;
        return;
      }
      n := n + 1;
    }
  }

  /** The first of each non-empty id, in the order of the roster. */
  method SelectLines(roster: seq<Agent>) returns (named: seq<Agent>, seen: set<string>)
    ensures named == Lines(roster) && seen == Names(roster)
  {
    named, seen := [], {};
    for i := 0 to |roster|
      invariant named == Lines(roster[..i]) && seen == Names(roster[..i])
    {
      var a := roster[i];
      assert roster[..i + 1][..i] == roster[..i] && roster[..i + 1] == roster[..i] + [a];
      assert Names(roster[..i + 1]) == if a.id == "" then Names(roster[..i]) else Names(roster[..i]) + {a.id};
      if a.id != "" && a.id !in seen {
        seen := seen + {a.id};
        named := named + [a];
      }
    }
    assert roster[..|roster|] == roster;
  }

  method FindTarget(targets: seq<Target>, k: string) returns (target: nat)
    ensures target == TargetFor(targets, k)
  {
    for i := 0 to |targets|
      invariant TargetFor(targets, k) == TargetFor(targets[i..], k)
    {
      if targets[i].0 == k {
        return targets[i].1;
      }
    }
    target := 0;
  }
}
