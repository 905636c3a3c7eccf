/**
 The roster feed over whole runs of API calls (src/actors/agent_roster_feed.rs:215-391).
 */
module RosterRuns {
  import opened Basics
  import opened KeyOrder
  import opened RosterModel
  import opened RosterReplay
  import opened RosterCalls

  // ----- one roster ---------------------------------------------------------------------------

  /** The agents that stay when a roster comes in, before its lines are gone through. */
  ghost function Staying(f: Roster, source: Source, roster: seq<Agent>, targets: seq<Target>, now: U32): Agents {
    var kept := Remaining(Retargeted(f.agents, targets), source, Names(roster), now);
    kept - Overflow(kept)
  }

  /** The roster after `apply`, agent by agent, with no mention of the order of work. */
  lemma AppliedShape(f: Roster, source: Source, roster: seq<Agent>, targets: seq<Target>, now: U32, hash: Hash,
                     k: string)
    ensures ListedAs(Staying(f, source, roster, targets, now), source, Lines(roster), targets, now,
                     Applied(f, source, roster, targets, now, hash).roster.agents, k)
    ensures LineIds(Lines(roster)) == Names(roster)
  {
    var f0 := f.(agents := Retargeted(f.agents, targets));
    var cleared := Cleared(f0, source, Names(roster), now, hash).roster;
    ClearedShape(f0, source, Names(roster), now, hash);
    LinesOf(roster);
    NamingsShape(cleared, source, Lines(roster), targets, now, hash, k);
  }

  /** Every named id has exactly one line that counts. */
  lemma LineOf(roster: seq<Agent>, k: string) returns (a: Agent)
    requires k in Names(roster)
    ensures a in Lines(roster) && a.id == k
  {
    LinesOf(roster);
    a :| a in Lines(roster) && a.id == k;
  }

  lemma AppliedKeys(f: Roster, source: Source, roster: seq<Agent>, targets: seq<Target>, now: U32, hash: Hash)
    ensures Applied(f, source, roster, targets, now, hash).roster.agents.Keys
         == Staying(f, source, roster, targets, now).Keys + Names(roster)
  {
    forall k ensures k in Applied(f, source, roster, targets, now, hash).roster.agents.Keys
                 <==> k in Staying(f, source, roster, targets, now).Keys + Names(roster) {
      AppliedShape(f, source, roster, targets, now, hash, k);
    }
  }

  /**
   Replay across one roster: as long as everybody fits into the id band, the frames turn a view of the
   old roster into a view of the new one.
   */
  lemma AppliedFollows(v: View, f: Roster, source: Source, roster: seq<Agent>, targets: seq<Target>, now: U32,
                       hash: Hash)
    requires Valid(f) && Mirrors(v, f)
    requires |Staying(f, source, roster, targets, now).Keys + Names(roster)| <= BAND_SIZE
    ensures Follows(v, Applied(f, source, roster, targets, now, hash))
  {
    var f0 := f.(agents := Retargeted(f.agents, targets));
    RetargetedFollows(v, f, targets);
    ClearedFollows(v, f0, source, Names(roster), now, hash);
    var cleared := Cleared(f0, source, Names(roster), now, hash);
    ClearedShape(f0, source, Names(roster), now, hash);
    LinesOf(roster);
    NamingsFollow(Replay(v, cleared.frames), cleared.roster, source, Lines(roster), targets, now, hash);
    FollowsOn(v, cleared, DoAll(cleared.roster, Namings(source, Lines(roster), targets), now, hash));
  }

  function Wires(ids: set<nat>): set<nat> {
    set id | id in ids :: Wire(id)
  }

  /** Every valid roster is what some view shows. */
  lemma HasView(f: Roster) returns (v: View)
    requires Valid(f)
    ensures Mirrors(v, f)
  {
    forall w | w in Wires(f.byId.Keys)
      ensures w >= AGENT_FLAG && w - AGENT_FLAG in f.byId && f.byId[w - AGENT_FLAG] in f.agents {
      assert IdOk(f, w - AGENT_FLAG);
    }
    v := map w | w in Wires(f.byId.Keys) :: EntryOf(f, f.byId[w - AGENT_FLAG]);
    forall k ensures MirrorsKey(v, f, k) {
      assert KeyOk(f, k);
    }
    forall w: nat ensures MirrorsWire(v, f, w) {
    }
  }

  lemma ValidFits(g: Roster)
    requires Valid(g)
    ensures |g.agents| <= BAND_SIZE
  {
    IdsMatchNames(g);
    RangeBound(g.byId.Keys, BAND_BASE, BAND_SIZE);
  }

  /** The band is the exact limit: names and ids stay inverse if and only if no more agents are live than ids. */
  lemma AppliedValidIff(f: Roster, source: Source, roster: seq<Agent>, targets: seq<Target>, now: U32, hash: Hash)
    requires Valid(f)
    ensures Valid(Applied(f, source, roster, targets, now, hash).roster)
       <==> |Staying(f, source, roster, targets, now).Keys + Names(roster)| <= BAND_SIZE
  {
    var g := Applied(f, source, roster, targets, now, hash).roster;
    AppliedKeys(f, source, roster, targets, now, hash);
    if Valid(g) {
      ValidFits(g);
    }
    if |Staying(f, source, roster, targets, now).Keys + Names(roster)| <= BAND_SIZE {
      var v := HasView(f);
      AppliedFollows(v, f, source, roster, targets, now, hash);
    }
  }

  // ----- who is held, who goes ----------------------------------------------------------------

  lemma TrimmedHeld(agents: Agents)
    ensures |Held(agents - Overflow(agents))| <= MAX_HELD_FINISHED
  {
    OverflowIsOldest(agents);
    assert Held(agents - Overflow(agents)) == Held(agents) - Overflow(agents);
  }

  /** Going through the lines holds nobody new. */
  lemma ListedHeld(before: Agents, source: Source, lines: seq<Agent>, targets: seq<Target>, now: U32, after: Agents,
                   k: string)
    requires ListedAs(before, source, lines, targets, now, after, k)
    ensures k in Held(after) ==> k in Held(before)
  {
    if k in LineIds(lines) {
      var a :| a in lines && a.id == k;
    }
  }

  /** The bound on held agents, after every roster. */
  lemma AppliedHeldBound(f: Roster, source: Source, roster: seq<Agent>, targets: seq<Target>, now: U32, hash: Hash)
    ensures |Held(Applied(f, source, roster, targets, now, hash).roster.agents)| <= MAX_HELD_FINISHED
    ensures var g := Applied(f, source, roster, targets, now, hash).roster.agents;
            |set k | k in g && g[k].left && g[k].done| <= 64
  {
    var staying := Staying(f, source, roster, targets, now);
    var g := Applied(f, source, roster, targets, now, hash).roster.agents;
    TrimmedHeld(Remaining(Retargeted(f.agents, targets), source, Names(roster), now));
    forall k | k in Held(g) ensures k in Held(staying) {
      AppliedShape(f, source, roster, targets, now, hash, k);
      ListedHeld(staying, source, Lines(roster), targets, now, g, k);
    }
    SubsetSize(Held(g), Held(staying));
    assert Held(g) == set k | k in g && g[k].left && g[k].done;
  }

  /** Those a roster sends away: its own, already done and named no more, and the oldest beyond the bound. */
  ghost function SentAway(f: Roster, source: Source, roster: seq<Agent>, targets: seq<Target>, now: U32): set<string> {
    GoneDone(f.agents, source, Names(roster))
      + Overflow(Remaining(Retargeted(f.agents, targets), source, Names(roster), now))
  }

  lemma RetargetedGone(agents: Agents, targets: seq<Target>, source: Source, names: set<string>)
    ensures Gone(Retargeted(agents, targets), source, names) == Gone(agents, source, names)
    ensures GoneDone(Retargeted(agents, targets), source, names) == GoneDone(agents, source, names)
  {
    forall k ensures k in Gone(Retargeted(agents, targets), source, names) <==> k in Gone(agents, source, names) {
      RetargetedShape(agents, targets, k);
    }
    forall k
      ensures k in GoneDone(Retargeted(agents, targets), source, names) <==> k in GoneDone(agents, source, names) {
      RetargetedShape(agents, targets, k);
    }
  }

  lemma StaysAs(f: Roster, source: Source, roster: seq<Agent>, targets: seq<Target>, now: U32, k: string)
    requires k in f.agents
    ensures var staying := Staying(f, source, roster, targets, now);
            k !in SentAway(f, source, roster, targets, now) ==>
              && k in staying && staying[k].id == f.agents[k].id && staying[k].source == f.agents[k].source
              && (k !in Names(roster) ==> (staying[k].left <==> f.agents[k].left || f.agents[k].source == source))
              && (f.agents[k].source != source ==>
                    staying[k].done == f.agents[k].done && staying[k].agent == f.agents[k].agent)
  {
    RetargetedGone(f.agents, targets, source, Names(roster));
    RetargetedShape(f.agents, targets, k);
  }

  /** Everybody else stays, with the same id and owner; only the producer's own unnamed agents are marked as left. */
  lemma OthersStay(f: Roster, source: Source, roster: seq<Agent>, targets: seq<Target>, now: U32, hash: Hash, k: string)
    requires k in f.agents
    ensures var g := Applied(f, source, roster, targets, now, hash).roster.agents;
            k !in SentAway(f, source, roster, targets, now) ==>
              && k in g && g[k].id == f.agents[k].id && g[k].source == f.agents[k].source
              && (g[k].left <==> k !in Names(roster) && (f.agents[k].left || f.agents[k].source == source))
              && (k !in Names(roster) && f.agents[k].source != source ==>
                    g[k].done == f.agents[k].done && g[k].agent == f.agents[k].agent)
  {
    StaysAs(f, source, roster, targets, now, k);
    AppliedShape(f, source, roster, targets, now, hash, k);
    if k in Names(roster) {
      var a := LineOf(roster, k);
    }
  }

  // ----- which frames say `retired` -----------------------------------------------------------

  predicate SaysRetired(fr: Frame) {
    fr.StateFrame? && fr.phase == Retired
  }

  function RetiredWires(frames: seq<Frame>): set<nat> {
    set fr | fr in frames && SaysRetired(fr) :: fr.wire
  }

  lemma RetiredWiresSum(a: seq<Frame>, b: seq<Frame>)
    ensures RetiredWires(a + b) == RetiredWires(a) + RetiredWires(b)
  {
    assert forall fr :: fr in a + b <==> fr in a || fr in b;
  }

  /** Only `Retire` makes a frame that says so. */
  lemma {:induction false} NobodyRetired(f: Roster, ops: seq<Op>, now: U32, hash: Hash)
    requires forall op :: op in ops ==> !op.Retire?
    ensures RetiredWires(DoAll(f, ops, now, hash).frames) == {}
  {
    if ops != [] {
      var n := |ops| - 1;
      NobodyRetired(f, ops[..n], now, hash);
      var before := DoAll(f, ops[..n], now, hash);
      assert ops[n] in ops;
      RetiredWiresSum(before.frames, Do(before.roster, ops[n], now, hash).frames);
    }
  }

  function WiresOf(agents: Agents, keys: set<string>): set<nat> {
    set k | k in keys && k in agents :: Wire(agents[k].id)
  }

  lemma {:induction false} RetiresSaySo(f: Roster, ks: seq<string>, now: U32, hash: Hash)
    requires NoDuplicates(ks)
    ensures RetiredWires(DoAll(f, Retires(ks), now, hash).frames) == WiresOf(f.agents, Elements(ks))
  {
    if ks != [] {
      var n := |ks| - 1;
      RetiresSaySo(f, ks[..n], now, hash);
      var before := DoAll(f, Retires(ks[..n]), now, hash);
      DoOneMore(f, Retires(ks[..n]), Retire(ks[n]), now, hash);
      RetiresGrow(ks);
      RetiresShape(f, ks[..n], now, hash);
      RetiredWiresSum(before.frames, Do(before.roster, Retire(ks[n]), now, hash).frames);
      OneMoreWire(f.agents, ks);
    }
  }

  lemma OneMoreWire(agents: Agents, ks: seq<string>)
    requires ks != [] && NoDuplicates(ks)
    ensures var n := |ks| - 1;
            && ks[n] !in Elements(ks[..n])
            && WiresOf(agents, Elements(ks))
              == WiresOf(agents, Elements(ks[..n])) + if ks[n] in agents then {Wire(agents[ks[n]].id)} else {}
  {
    var n := |ks| - 1;
    assert Elements(ks) == Elements(ks[..n]) + {ks[n]};
  }

  lemma WiresSame(agents: Agents, agents': Agents, keys: set<string>)
    requires forall k :: k in keys ==>
               (k in agents <==> k in agents') && (k in agents ==> agents[k].id == agents'[k].id)
    ensures WiresOf(agents, keys) == WiresOf(agents', keys)
  {
  }

  lemma WiresSum(agents: Agents, a: set<string>, b: set<string>)
    ensures WiresOf(agents, a + b) == WiresOf(agents, a) + WiresOf(agents, b)
  {
  }

  lemma RetiredAsAsked(f: Roster, keys: set<string>, now: U32, hash: Hash)
    ensures RetiredWires(DoAll(f, Retires(Sorted(keys)), now, hash).frames) == WiresOf(f.agents, keys)
  {
    OrderedDistinct(ByKey(keys));
    SortedElements(keys);
    RetiresSaySo(f, Sorted(keys), now, hash);
  }

  lemma LeavesSayNothing(f: Roster, ks: seq<string>, now: U32, hash: Hash)
    ensures RetiredWires(DoAll(f, Leaves(ks), now, hash).frames) == {}
  {
    assert forall op :: op in Leaves(ks) ==> op.Leave?;
    NobodyRetired(f, Leaves(ks), now, hash);
  }

  lemma NamingsSayNothing(f: Roster, source: Source, lines: seq<Agent>, targets: seq<Target>, now: U32, hash: Hash)
    ensures RetiredWires(DoAll(f, Namings(source, lines, targets), now, hash).frames) == {}
  {
    assert forall op :: op in Namings(source, lines, targets) ==> op.Name?;
    NobodyRetired(f, Namings(source, lines, targets), now, hash);
  }

  lemma DoneSaysSo(f: Roster, source: Source, names: set<string>, now: U32, hash: Hash)
    ensures RetiredWires(RetiredOut(f, source, names, now, hash).frames)
            == WiresOf(f.agents, GoneDone(f.agents, source, names))
  {
    var left := LeftOut(f, source, names, now, hash).roster;
    RetiredAsAsked(left, GoneDone(f.agents, source, names), now, hash);
    forall k ensures (k in left.agents <==> k in f.agents) && (k in f.agents ==> left.agents[k].id == f.agents[k].id) {
      LeavesShape(f, Sorted(Gone(f.agents, source, names)), now, hash, k);
    }
    WiresSame(f.agents, left.agents, GoneDone(f.agents, source, names));
  }

  lemma RemainingWires(agents: Agents, source: Source, names: set<string>, now: U32)
    ensures var kept := Remaining(agents, source, names, now);
            WiresOf(kept, Overflow(kept)) == WiresOf(agents, Overflow(kept))
  {
    var kept := Remaining(agents, source, names, now);
    OverflowIsOldest(kept);
    WiresSame(agents, kept, Overflow(kept));
  }

  lemma ClearedSaysSo(f: Roster, source: Source, names: set<string>, now: U32, hash: Hash)
    ensures RetiredWires(Cleared(f, source, names, now, hash).frames)
         == WiresOf(f.agents, GoneDone(f.agents, source, names))
            + WiresOf(f.agents, Overflow(Remaining(f.agents, source, names, now)))
  {
    var left, retired := LeftOut(f, source, names, now, hash), RetiredOut(f, source, names, now, hash);
    LeavesSayNothing(f, Sorted(Gone(f.agents, source, names)), now, hash);
    DoneSaysSo(f, source, names, now, hash);
    RetiredShape(f, source, names, now, hash);
    RetiredAsAsked(retired.roster, Overflow(retired.roster.agents), now, hash);
    RemainingWires(f.agents, source, names, now);
    RetiredWiresSum(left.frames, retired.frames);
    RetiredWiresSum(left.frames + retired.frames,
                    DoAll(retired.roster, Retires(Sorted(Overflow(retired.roster.agents))), now, hash).frames);
  }

  lemma RetargetedWires(agents: Agents, targets: seq<Target>, keys: set<string>)
    ensures WiresOf(Retargeted(agents, targets), keys) == WiresOf(agents, keys)
  {
    forall k ensures (k in Retargeted(agents, targets) <==> k in agents)
                  && (k in agents ==> Retargeted(agents, targets)[k].id == agents[k].id) {
      RetargetedShape(agents, targets, k);
    }
    WiresSame(agents, Retargeted(agents, targets), keys);
  }

  /** `retired` is said of exactly those the roster sends away. */
  lemma AppliedSaysRetired(f: Roster, source: Source, roster: seq<Agent>, targets: seq<Target>, now: U32, hash: Hash)
    ensures RetiredWires(Applied(f, source, roster, targets, now, hash).frames)
         == WiresOf(f.agents, SentAway(f, source, roster, targets, now))
  {
    var names := Names(roster);
    var f0 := f.(agents := Retargeted(f.agents, targets));
    var cleared := Cleared(f0, source, names, now, hash);
    var done, over := GoneDone(f.agents, source, names), Overflow(Remaining(f0.agents, source, names, now));
    ClearedSaysSo(f0, source, names, now, hash);
    RetargetedGone(f.agents, targets, source, names);
    RetargetedWires(f.agents, targets, done);
    RetargetedWires(f.agents, targets, over);
    WiresSum(f.agents, done, over);
    NamingsSayNothing(cleared.roster, source, Lines(roster), targets, now, hash);
    RetiredWiresSum(cleared.frames, DoAll(cleared.roster, Namings(source, Lines(roster), targets), now, hash).frames);
  }

  // ----- an unchanged roster ------------------------------------------------------------------

  /** What a client is told about agent `k` would not change if the roster came in again. */
  predicate LineSettled(agents: Agents, a: Agent) {
    a.id in agents && agents[a.id].done == IsFinished(a.status) && agents[a.id].agent.name == a.name
  }

  ghost predicate Settled(agents: Agents, source: Source, roster: seq<Agent>) {
    && Gone(agents, source, Names(roster)) == {}
    && |Held(agents)| <= MAX_HELD_FINISHED
    && forall a :: a in Lines(roster) ==> LineSettled(agents, a)
  }

  lemma AppliedSettles(f: Roster, source: Source, roster: seq<Agent>, targets: seq<Target>, now: U32, hash: Hash)
    ensures Settled(Applied(f, source, roster, targets, now, hash).roster.agents, source, roster)
  {
    var g := Applied(f, source, roster, targets, now, hash).roster.agents;
    AppliedHeldBound(f, source, roster, targets, now, hash);
    forall a | a in Lines(roster) ensures LineSettled(g, a) {
      AppliedShape(f, source, roster, targets, now, hash, a.id);
    }
    forall k ensures k !in Gone(g, source, Names(roster)) {
      NobodyGone(f, source, roster, targets, now, hash, k);
    }
  }

  /** Whoever stays unnamed of this producer has left. */
  lemma UnnamedHasLeft(agents: Agents, source: Source, names: set<string>, now: U32, k: string)
    ensures var kept := Remaining(agents, source, names, now);
            k in kept && k !in names && kept[k].source == source ==> kept[k].left
  {
  }

  lemma ListedNotGone(before: Agents, source: Source, lines: seq<Agent>, targets: seq<Target>, now: U32,
                      after: Agents, k: string)
    requires ListedAs(before, source, lines, targets, now, after, k)
    requires k in before && k !in LineIds(lines) && before[k].source == source ==> before[k].left
    ensures k !in Gone(after, source, LineIds(lines))
  {
  }

  lemma NobodyGone(f: Roster, source: Source, roster: seq<Agent>, targets: seq<Target>, now: U32, hash: Hash, k: string)
    ensures k !in Gone(Applied(f, source, roster, targets, now, hash).roster.agents, source, Names(roster))
  {
    AppliedShape(f, source, roster, targets, now, hash, k);
    UnnamedHasLeft(Retargeted(f.agents, targets), source, Names(roster), now, k);
    ListedNotGone(Staying(f, source, roster, targets, now), source, Lines(roster), targets, now,
                  Applied(f, source, roster, targets, now, hash).roster.agents, k);
  }

  lemma {:induction false} SettledLinesSilent(f: Roster, source: Source, lines: seq<Agent>, targets: seq<Target>,
                                              now: U32, hash: Hash)
    requires DistinctIds(lines) && forall a :: a in lines ==> LineSettled(f.agents, a)
    ensures DoAll(f, Namings(source, lines, targets), now, hash).frames == []
  {
    if lines != [] {
      var n := |lines| - 1;
      var a := lines[n];
      LineIdsGrow(lines);
      SettledLinesSilent(f, source, lines[..n], targets, now, hash);
      DoOneMore(f, Namings(source, lines[..n], targets), Name(source, a, TargetFor(targets, a.id)), now, hash);
      assert Namings(source, lines, targets)
             == Namings(source, lines[..n], targets) + [Name(source, a, TargetFor(targets, a.id))];
      NamingsShape(f, source, lines[..n], targets, now, hash, a.id);
      assert LineSettled(f.agents, a);
    }
  }

  lemma NothingCleared(f: Roster, source: Source, names: set<string>, now: U32, hash: Hash)
    requires Gone(f.agents, source, names) == {} && |Held(f.agents)| <= MAX_HELD_FINISHED
    ensures Cleared(f, source, names, now, hash) == Out(f, [])
  {
    assert GoneDone(f.agents, source, names) == {};
    assert ByKey({}) == map[];
  }

  /** A roster the feed is settled on is met with silence. */
  lemma SettledIsSilent(f: Roster, source: Source, roster: seq<Agent>, targets: seq<Target>, now: U32, hash: Hash)
    requires Settled(f.agents, source, roster)
    ensures Applied(f, source, roster, targets, now, hash).frames == []
  {
    var f0 := f.(agents := Retargeted(f.agents, targets));
    RetargetedGone(f.agents, targets, source, Names(roster));
    forall k ensures k in Held(f0.agents) <==> k in Held(f.agents) {
      RetargetedShape(f.agents, targets, k);
    }
    assert Held(f0.agents) == Held(f.agents);
    NothingCleared(f0, source, Names(roster), now, hash);
    LinesOf(roster);
    forall a | a in Lines(roster) ensures LineSettled(f0.agents, a) {
      RetargetedShape(f.agents, targets, a.id);
    }
    SettledLinesSilent(f0, source, Lines(roster), targets, now, hash);
  }

  // ----- runs ---------------------------------------------------------------------------------

  datatype Call =
    | Apply(source: Source, roster: seq<Agent>, targets: seq<Target>, now: U32)
    | Tick(dt: nat, now: U32)
    | Join(task: Option<string>, target: nat, at: U32)

  ghost function Called(f: Roster, call: Call, hash: Hash): Out {
    match call
    case Apply(source, roster, targets, now) => Applied(f, source, roster, targets, now, hash)
    case Tick(dt, now) => Ticked(f, dt, now, hash)
    case Join(task, target, at) => Joined(f, task, target, at)
  }

  ghost function Run(calls: seq<Call>, hash: Hash): Out {
    if calls == [] then Out(EmptyRoster, [])
    else
      var before := Run(calls[..|calls| - 1], hash);
      var last := Called(before.roster, calls[|calls| - 1], hash);
      Out(last.roster, before.frames + last.frames)
  }

  /** Everybody who stays and everybody the roster names fits into the id band. */
  ghost predicate Fits(f: Roster, call: Call) {
    call.Apply? ==>
      |Staying(f, call.source, call.roster, call.targets, call.now).Keys + Names(call.roster)| <= BAND_SIZE
  }

  lemma TickedShape(f: Roster, dt: nat, now: U32, hash: Hash)
    ensures Ticked(f, dt, now, hash).roster.agents == f.agents
    ensures RetiredWires(Ticked(f, dt, now, hash).frames) == {}
  {
    var ks := Sorted(f.agents.Keys);
    var f0 := f.(sinceKeepalive := 0);
    KeepAlivesShape(f0, ks, now, hash);
    assert forall op :: op in KeepAlives(ks) ==> op.KeepAlive?;
    NobodyRetired(f0, KeepAlives(ks), now, hash);
  }

  lemma JoinedFollows(v: View, f: Roster, task: Option<string>, target: nat, at: U32)
    requires Valid(f) && Mirrors(v, f)
    ensures Follows(v, Joined(f, task, target, at))
  {
    if task == None || task.value !in f.agents {
      QuietFollows(v, f);
    } else {
      var out := Joined(f, task, target, at);
      var k := task.value;
      var fr, f' := out.frames[0], out.roster;
      assert KeyOk(f, k) && IdOk(f, f.agents[k].id);
      StampIsLegal(v, f, k, at);
      ChangedIsValid(f, k, f');
      forall j ensures MirrorsKey(Seen(v, fr), f', j) {
        assert MirrorsKey(v, f, j);
        if j in f.agents && j != k { OtherIds(f, j, k); }
      }
      forall w: nat ensures MirrorsWire(Seen(v, fr), f', w) {
        assert MirrorsWire(v, f, w);
      }
      ToldFollows(v, fr, f');
    }
  }

  lemma CountedFollows(v: View, f: Roster, ms: nat)
    requires Valid(f) && Mirrors(v, f)
    ensures var f' := f.(sinceKeepalive := ms); Valid(f') && Mirrors(v, f')
  {
    SameRosterFollows(v, f, f.(sinceKeepalive := ms));
  }

  lemma TickedFollows(v: View, f: Roster, dt: nat, now: U32, hash: Hash)
    requires Valid(f) && Mirrors(v, f)
    ensures Follows(v, Ticked(f, dt, now, hash))
  {
    if f.sinceKeepalive + dt < KEEPALIVE_MS {
      CountedFollows(v, f, f.sinceKeepalive + dt);
      QuietFollows(v, f.(sinceKeepalive := f.sinceKeepalive + dt));
    } else {
      CountedFollows(v, f, 0);
      KeepAlivesFollow(v, f.(sinceKeepalive := 0), Sorted(f.agents.Keys), now, hash);
    }
  }

  lemma SameRosterFollows(v: View, f: Roster, f': Roster)
    requires Valid(f) && Mirrors(v, f) && f'.agents == f.agents && f'.byId == f.byId && f'.lastTs == f.lastTs
    ensures Valid(f') && Mirrors(v, f')
  {
    forall k ensures KeyOk(f', k) { assert KeyOk(f, k); }
    forall id: nat ensures IdOk(f', id) { assert IdOk(f, id); }
    forall k ensures MirrorsKey(v, f', k) { assert MirrorsKey(v, f, k); }
    forall w: nat ensures MirrorsWire(v, f', w) { assert MirrorsWire(v, f, w); }
  }

  lemma CalledFollows(v: View, f: Roster, call: Call, hash: Hash)
    requires Valid(f) && Mirrors(v, f) && Fits(f, call)
    ensures Follows(v, Called(f, call, hash))
  {
    match call
    case Apply(source, roster, targets, now) =>
      AppliedFollows(v, f, source, roster, targets, now, hash);
    case Tick(dt, now) => TickedFollows(v, f, dt, now, hash);
    case Join(task, target, at) => JoinedFollows(v, f, task, target, at);
  }

  ghost predicate FitsAt(calls: seq<Call>, hash: Hash, i: nat)
    requires i < |calls|
  {
    Fits(Run(calls[..i], hash).roster, calls[i])
  }

  ghost predicate AllFit(calls: seq<Call>, hash: Hash) {
    forall i: nat {:trigger FitsAt(calls, hash, i)} :: i < |calls| ==> FitsAt(calls, hash, i)
  }

  lemma RunOneMore(calls: seq<Call>, call: Call, hash: Hash)
    ensures var before := Run(calls, hash);
            var last := Called(before.roster, call, hash);
            Run(calls + [call], hash) == Out(last.roster, before.frames + last.frames)
  {
    assert (calls + [call])[..|calls|] == calls;
  }

  /** The view a client folds from all frames of the run is the roster the server has at its end. */
  ghost predicate Replays(calls: seq<Call>, hash: Hash) {
    Follows(map[], Run(calls, hash))
  }

  lemma OneMoreReplays(calls: seq<Call>, call: Call, hash: Hash)
    requires Replays(calls, hash) && Fits(Run(calls, hash).roster, call)
    ensures Replays(calls + [call], hash)
  {
    var before := Run(calls, hash);
    CalledFollows(Replay(map[], before.frames), before.roster, call, hash);
    FollowsOn(map[], before, Called(before.roster, call, hash));
    RunOneMore(calls, call, hash);
  }

  lemma NothingReplays(hash: Hash)
    ensures Replays([], hash)
  {
    QuietFollows(map[], EmptyRoster);
  }

  /**
   Roster replay: after every call of every run, folding all frames sent so far gives exactly the
   server's live agents, their states, names and clocks; and every frame was legal when it was sent:
   later than the agent's last, and `retired` only of an agent last said to be done.
   */
  lemma {:induction false} RunReplays(calls: seq<Call>, hash: Hash, n: nat)
    requires AllFit(calls, hash) && n <= |calls|
    ensures Replays(calls[..n], hash)
  {
    if n == 0 {
      NothingReplays(hash);
    } else {
      assert calls[..n] == calls[..n - 1] + [calls[n - 1]];
      RunReplays(calls, hash, n - 1);
      assert FitsAt(calls, hash, n - 1);
      OneMoreReplays(calls[..n - 1], calls[n - 1], hash);
    }
  }

  /** Unconditionally, after every call: at most 64 agents are held. */
  lemma {:induction false} RunHeldBound(calls: seq<Call>, hash: Hash)
    ensures var g := Run(calls, hash).roster.agents; |set k | k in g && g[k].left && g[k].done| <= 64
  {
    var g := Run(calls, hash).roster.agents;
    if calls != [] {
      var n := |calls| - 1;
      var f := Run(calls[..n], hash).roster;
      RunHeldBound(calls[..n], hash);
      assert Held(f.agents) == set k | k in f.agents && f.agents[k].left && f.agents[k].done;
      CalledHeldBound(f, calls[n], hash);
    }
    assert Held(g) == set k | k in g && g[k].left && g[k].done;
  }

  lemma CalledHeldBound(f: Roster, call: Call, hash: Hash)
    requires |Held(f.agents)| <= MAX_HELD_FINISHED
    ensures |Held(Called(f, call, hash).roster.agents)| <= MAX_HELD_FINISHED
  {
    match call
    case Apply(source, roster, targets, now) => AppliedHeldBound(f, source, roster, targets, now, hash);
    case Tick(dt, now) => TickedShape(f, dt, now, hash);
    case Join(_, _, _) => assert Held(Called(f, call, hash).roster.agents) == Held(f.agents);
  }

  // ----- what a frame carries -----------------------------------------------------------------

  /** A frame about the agent as the roster has it, work node included. */
  predicate Describes(fr: Frame, l: Live) {
    && fr.StateFrame? && fr.wire == Wire(l.id) && fr.target == l.target && fr.phase == PhaseOf(l)
    && fr.name == l.agent.name && fr.intent == if l.agent.name == "" then l.agent.id else l.agent.name
  }

  lemma KeepAliveSays(f: Roster, k: string, now: U32, hash: Hash)
    requires k in f.agents && f.agents[k].agent.id == k
    ensures var frames := Do(f, KeepAlive(k), now, hash).frames; |frames| == 1 && Describes(frames[0], f.agents[k])
  {
  }

  lemma NamedSays(f: Roster, source: Source, a: Agent, target: nat, now: U32, hash: Hash)
    requires !LineSettled(f.agents, a)
    ensures var out := Named(f, source, a, target, now, hash);
            |out.frames| == 1 && a.id in out.roster.agents && Describes(out.frames[0], out.roster.agents[a.id])
  {
  }

  /** One frame for each key, describing its agent. */
  ghost predicate SaysAll(frames: seq<Frame>, agents: Agents, ks: seq<string>) {
    && |frames| == |ks| && (forall i :: 0 <= i < |ks| ==> ks[i] in agents)
    && forall i :: 0 <= i < |ks| ==> Describes(frames[i], agents[ks[i]])
  }

  lemma SaysMore(frames: seq<Frame>, agents: Agents, ks: seq<string>, more: seq<Frame>)
    requires ks != [] && SaysAll(frames, agents, ks[..|ks| - 1])
    requires |more| == 1 && ks[|ks| - 1] in agents && Describes(more[0], agents[ks[|ks| - 1]])
    ensures SaysAll(frames + more, agents, ks)
  {
    var n := |ks| - 1;
    forall i | 0 <= i < |ks| ensures ks[i] in agents && Describes((frames + more)[i], agents[ks[i]]) {
      assert i < n ==> ks[i] == ks[..n][i];
    }
  }

  ghost predicate OwnKeys(agents: Agents, ks: seq<string>) {
    forall i :: 0 <= i < |ks| ==> ks[i] in agents && agents[ks[i]].agent.id == ks[i]
  }

  lemma {:induction false} KeepAlivesSay(f: Roster, ks: seq<string>, now: U32, hash: Hash)
    requires OwnKeys(f.agents, ks)
    ensures SaysAll(DoAll(f, KeepAlives(ks), now, hash).frames, f.agents, ks)
  {
    if ks != [] {
      var n := |ks| - 1;
      KeepAlivesSay(f, ks[..n], now, hash);
      KeepAlivesShape(f, ks[..n], now, hash);
      var before := DoAll(f, KeepAlives(ks[..n]), now, hash);
      KeepAliveSays(before.roster, ks[n], now, hash);
      KeepAlivesGrow(ks);
      DoOneMore(f, KeepAlives(ks[..n]), KeepAlive(ks[n]), now, hash);
      SaysMore(before.frames, f.agents, ks, Do(before.roster, KeepAlive(ks[n]), now, hash).frames);
    }
  }

  /** A due keep-alive describes every live agent, once each, in key order. */
  lemma TickDescribesAll(f: Roster, dt: nat, now: U32, hash: Hash)
    requires Valid(f) && f.sinceKeepalive + dt >= KEEPALIVE_MS
    ensures Elements(Sorted(f.agents.Keys)) == f.agents.Keys
    ensures SaysAll(Ticked(f, dt, now, hash).frames, f.agents, Sorted(f.agents.Keys))
  {
    var ks := Sorted(f.agents.Keys);
    SortedElements(f.agents.Keys);
    forall i | 0 <= i < |ks| ensures ks[i] in f.agents && f.agents[ks[i]].agent.id == ks[i] {
      assert ks[i] in Elements(ks) && KeyOk(f, ks[i]);
    }
    KeepAlivesSay(f.(sinceKeepalive := 0), ks, now, hash);
  }

  /** Every line that brings news is announced as the agent now is: a spawn frame already names its node. */
  lemma {:induction false} NamingsSay(f: Roster, source: Source, lines: seq<Agent>, targets: seq<Target>, now: U32,
                                      hash: Hash, a: Agent)
    requires DistinctIds(lines) && a in lines && !LineSettled(f.agents, a)
    ensures var out := DoAll(f, Namings(source, lines, targets), now, hash);
            a.id in out.roster.agents && exists fr :: fr in out.frames && Describes(fr, out.roster.agents[a.id])
  {
    var n := |lines| - 1;
    var ops, op := Namings(source, lines[..n], targets), Name(source, lines[n], TargetFor(targets, lines[n].id));
    LineIdsGrow(lines);
    DoOneMore(f, ops, op, now, hash);
    NamingsGrow(source, lines, targets);
    NamingsShape(f, source, lines[..n], targets, now, hash, lines[n].id);
    if a == lines[n] {
      var before := DoAll(f, ops, now, hash);
      NamedSays(before.roster, source, a, TargetFor(targets, a.id), now, hash);
      var last := Do(before.roster, op, now, hash);
      assert last.frames[0] in DoAll(f, ops + [op], now, hash).frames;
    } else {
      NamingsSay(f, source, lines[..n], targets, now, hash, a);
      assert a.id in LineIds(lines[..n]);
    }
  }

  /** Keep-alives and joined actions leave the feed settled on a roster. */
  lemma CalledKeepsSettled(f: Roster, call: Call, hash: Hash, source: Source, roster: seq<Agent>)
    requires Settled(f.agents, source, roster) && !call.Apply?
    ensures Settled(Called(f, call, hash).roster.agents, source, roster)
  {
    if call.Tick? {
      TickedShape(f, call.dt, call.now, hash);
    } else {
      var g := Called(f, call, hash).roster.agents;
      assert Held(g) == Held(f.agents);
      forall a | a in Lines(roster) ensures LineSettled(g, a) {
        assert LineSettled(f.agents, a);
      }
    }
  }

  ghost function Later(f: Roster, calls: seq<Call>, hash: Hash): Roster {
    if calls == [] then f else Called(Later(f, calls[..|calls| - 1], hash), calls[|calls| - 1], hash).roster
  }

  lemma {:induction false} LaterKeepsSettled(f: Roster, calls: seq<Call>, hash: Hash, source: Source,
                                             roster: seq<Agent>)
    requires Settled(f.agents, source, roster) && forall c :: c in calls ==> !c.Apply?
    ensures Settled(Later(f, calls, hash).agents, source, roster)
  {
    if calls != [] {
      var n := |calls| - 1;
      LaterKeepsSettled(f, calls[..n], hash, source, roster);
      assert calls[n] in calls;
      CalledKeepsSettled(Later(f, calls[..n], hash), calls[n], hash, source, roster);
    }
  }

  /** The same roster from the same producer again, after any ticks and joins, sends nothing. */
  lemma SameRosterIsSilent(f: Roster, source: Source, roster: seq<Agent>, targets: seq<Target>, now: U32,
                           calls: seq<Call>, targets': seq<Target>, now': U32, hash: Hash)
    requires forall c :: c in calls ==> !c.Apply?
    ensures var g := Later(Applied(f, source, roster, targets, now, hash).roster, calls, hash);
            Applied(g, source, roster, targets', now', hash).frames == []
  {
    var once := Applied(f, source, roster, targets, now, hash).roster;
    AppliedSettles(f, source, roster, targets, now, hash);
    LaterKeepsSettled(once, calls, hash, source, roster);
    SettledIsSilent(Later(once, calls, hash), source, roster, targets', now', hash);
  }
}
