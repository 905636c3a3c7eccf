/**
 Whole calls and whole runs of the roster feed: replay, silence on an unchanged roster, the bound on
 held agents, who is retired and why, and stable ids
 (src/actors/agent_roster_feed.rs:188-391).
 */
module RosterCalls {
  import opened Basics
  import opened KeyOrder
  import opened RosterModel
  import opened RosterReplay

  // ----- what each phase of a call does to the agents ------------------------------------------

  function Parted(l: Live, now: U32): Live {
    if l.done then l.(left := true) else l.(left := true, done := true, doneAt := now)
  }

  lemma LeavesGrow(ks: seq<string>)
    requires ks != []
    ensures Leaves(ks) == Leaves(ks[..|ks| - 1]) + [Leave(ks[|ks| - 1])]
  {
  }

  lemma RetiresGrow(ks: seq<string>)
    requires ks != []
    ensures Retires(ks) == Retires(ks[..|ks| - 1]) + [Retire(ks[|ks| - 1])]
  {
  }

  lemma KeepAlivesGrow(ks: seq<string>)
    requires ks != []
    ensures KeepAlives(ks) == KeepAlives(ks[..|ks| - 1]) + [KeepAlive(ks[|ks| - 1])]
  {
  }

  lemma {:induction false} LeavesShape(f: Roster, ks: seq<string>, now: U32, hash: Hash, k: string)
    ensures var g := DoAll(f, Leaves(ks), now, hash).roster;
            && (k in g.agents <==> k in f.agents)
            && (k in f.agents ==> g.agents[k] == if k in ks then Parted(f.agents[k], now) else f.agents[k])
  {
    if ks != [] {
      var n := |ks| - 1;
      LeavesShape(f, ks[..n], now, hash, k);
      DoOneMore(f, Leaves(ks[..n]), Leave(ks[n]), now, hash);
      LeavesGrow(ks);
      assert k in ks <==> k in ks[..n] || k == ks[n];
    }
  }

  lemma {:induction false} RetiresShape(f: Roster, ks: seq<string>, now: U32, hash: Hash)
    ensures DoAll(f, Retires(ks), now, hash).roster.agents == f.agents - Elements(ks)
  {
    if ks == [] {
      assert f.agents - Elements(ks) == f.agents;
    } else {
      var n := |ks| - 1;
      RetiresShape(f, ks[..n], now, hash);
      DoOneMore(f, Retires(ks[..n]), Retire(ks[n]), now, hash);
      RetiresGrow(ks);
      assert DoAll(f, Retires(ks), now, hash).roster.agents == f.agents - Elements(ks[..n]) - {ks[n]};
      assert Elements(ks) == Elements(ks[..n]) + {ks[n]};
    }
  }

  lemma {:induction false} KeepAlivesShape(f: Roster, ks: seq<string>, now: U32, hash: Hash)
    ensures DoAll(f, KeepAlives(ks), now, hash).roster.agents == f.agents
  {
    if ks != [] {
      var n := |ks| - 1;
      KeepAlivesShape(f, ks[..n], now, hash);
      DoOneMore(f, KeepAlives(ks[..n]), KeepAlive(ks[n]), now, hash);
      KeepAlivesGrow(ks);
    }
  }

  function LineIds(lines: seq<Agent>): set<string> {
    set a | a in lines :: a.id
  }

  /** What became of agent `k` when the lines were gone through. */
  ghost predicate ListedAs(before: Agents, source: Source, lines: seq<Agent>, targets: seq<Target>, now: U32,
                           after: Agents, k: string) {
    && (k in after <==> k in before || k in LineIds(lines))
    && (k in before && k !in LineIds(lines) ==> after[k] == before[k])
    && (forall a :: a in lines && a.id == k ==>
          if k in before then after[k] == Relisted(before[k], a, now)
          else after[k] == Live(after[k].id, source, a, IsFinished(a.status), now, false, TargetFor(targets, k)))
  }

  ghost predicate DistinctIds(lines: seq<Agent>) {
    forall i, j :: 0 <= i < j < |lines| ==> lines[i].id != lines[j].id
  }

  lemma NamingsGrow(source: Source, lines: seq<Agent>, targets: seq<Target>)
    requires lines != []
    ensures var n := |lines| - 1;
            Namings(source, lines, targets)
              == Namings(source, lines[..n], targets) + [Name(source, lines[n], TargetFor(targets, lines[n].id))]
  {
  }

  lemma {:induction false} NamingsShape(f: Roster, source: Source, lines: seq<Agent>, targets: seq<Target>, now: U32,
                                        hash: Hash, k: string)
    requires DistinctIds(lines)
    ensures ListedAs(f.agents, source, lines, targets, now,
                     DoAll(f, Namings(source, lines, targets), now, hash).roster.agents, k)
  {
    if lines != [] {
      var n := |lines| - 1;
      var a := lines[n];
      NamingsShape(f, source, lines[..n], targets, now, hash, k);
      DoOneMore(f, Namings(source, lines[..n], targets), Name(source, a, TargetFor(targets, a.id)), now, hash);
      NamingsGrow(source, lines, targets);
      ListedOneMore(f, source, lines, targets, now, hash,
                    DoAll(f, Namings(source, lines[..n], targets), now, hash).roster, k);
    }
  }

  lemma ListedOneMore(f: Roster, source: Source, lines: seq<Agent>, targets: seq<Target>, now: U32, hash: Hash,
                      g: Roster, k: string)
    requires lines != [] && DistinctIds(lines)
    requires ListedAs(f.agents, source, lines[..|lines| - 1], targets, now, g.agents, k)
    ensures var a := lines[|lines| - 1];
            ListedAs(f.agents, source, lines, targets, now,
                     Named(g, source, a, TargetFor(targets, a.id), now, hash).roster.agents, k)
  {
    LineIdsGrow(lines);
  }

  lemma LineIdsGrow(lines: seq<Agent>)
    requires lines != [] && DistinctIds(lines)
    ensures var n := |lines| - 1;
            && LineIds(lines) == LineIds(lines[..n]) + {lines[n].id}
            && lines[n].id !in LineIds(lines[..n])
            && forall a :: a in lines <==> a in lines[..n] || a == lines[n]
  {
    var n := |lines| - 1;
    assert lines == lines[..n] + [lines[n]];
  }

  lemma {:induction false} LinesOf(roster: seq<Agent>)
    ensures DistinctIds(Lines(roster)) && LineIds(Lines(roster)) == Names(roster)
  {
    if roster != [] {
      var n := |roster| - 1;
      LinesOf(roster[..n]);
      assert roster == roster[..n] + [roster[n]];
      var a, before := roster[n], Lines(roster[..n]);
      assert Names(roster) == if a.id == "" then Names(roster[..n]) else Names(roster[..n]) + {a.id};
      if a.id != "" && a.id !in Names(roster[..n]) {
        forall i | 0 <= i < |before| ensures before[i].id != a.id {
          assert before[i].id in LineIds(before);
        }
        assert LineIds(before + [a]) == LineIds(before) + {a.id};
      }
    }
  }

  lemma RetargetedShape(agents: Agents, targets: seq<Target>, k: string)
    ensures var m := Retargeted(agents, targets);
            && (k in m <==> k in agents)
            && (k in agents ==> m[k] == agents[k].(target := m[k].target))
  {
  }

  // ----- replay of whole calls ----------------------------------------------------------------

  lemma RetargetedFollows(v: View, f: Roster, targets: seq<Target>)
    requires Valid(f) && Mirrors(v, f)
    ensures var g := f.(agents := Retargeted(f.agents, targets)); Valid(g) && Mirrors(v, g)
  {
    var g := f.(agents := Retargeted(f.agents, targets));
    forall k ensures KeyOk(g, k) {
      assert KeyOk(f, k);
      RetargetedShape(f.agents, targets, k);
    }
    forall id: nat ensures IdOk(g, id) {
      assert IdOk(f, id);
      if id in f.byId { RetargetedShape(f.agents, targets, f.byId[id]); }
    }
    forall k ensures MirrorsKey(v, g, k) {
      assert MirrorsKey(v, f, k);
      RetargetedShape(f.agents, targets, k);
    }
    forall w: nat ensures MirrorsWire(v, g, w) {
      assert MirrorsWire(v, f, w);
    }
  }

  lemma LeavesFollow(v: View, f: Roster, ks: seq<string>, now: U32, hash: Hash)
    requires Valid(f) && Mirrors(v, f)
    ensures Follows(v, DoAll(f, Leaves(ks), now, hash))
  {
    assert forall i :: 0 <= i < |ks| ==> Leaves(ks)[i].Leave?;
    DoAllFollows(v, f, Leaves(ks), now, hash);
  }

  lemma KeepAlivesFollow(v: View, f: Roster, ks: seq<string>, now: U32, hash: Hash)
    requires Valid(f) && Mirrors(v, f)
    ensures Follows(v, DoAll(f, KeepAlives(ks), now, hash))
  {
    assert forall i :: 0 <= i < |ks| ==> KeepAlives(ks)[i].KeepAlive?;
    DoAllFollows(v, f, KeepAlives(ks), now, hash);
  }

  lemma RetiresReady(v: View, f: Roster, ks: seq<string>, now: U32, hash: Hash)
    requires Valid(f) && Mirrors(v, f) && forall k :: k in ks && k in f.agents ==> f.agents[k].done
    ensures Ready(v, f, Retires(ks), now, hash)
  {
    var ops := Retires(ks);
    forall i: nat | i < |ops| ensures ReadyAt(v, f, ops, now, hash, i) {
      assert ops[..i] == Retires(ks[..i]);
      RetiresShape(f, ks[..i], now, hash);
      assert ks[i] in ks;
    }
  }

  lemma RetiresFollow(v: View, f: Roster, ks: seq<string>, now: U32, hash: Hash)
    requires Valid(f) && Mirrors(v, f) && forall k :: k in ks && k in f.agents ==> f.agents[k].done
    ensures Follows(v, DoAll(f, Retires(ks), now, hash))
  {
    RetiresReady(v, f, ks, now, hash);
    DoAllFollows(v, f, Retires(ks), now, hash);
  }

  /** As many ids as names. */
  lemma IdsMatchNames(f: Roster)
    requires Valid(f)
    ensures |f.byId| == |f.agents| && forall id :: id in f.byId ==> InBand(id)
  {
    var ids := map k | k in f.agents :: f.agents[k].id;
    forall j, k | j in ids && k in ids && j != k ensures ids[j] != ids[k] {
      OtherIds(f, j, k);
    }
    ImageSize(ids, f.agents.Keys);
    forall id ensures id in f.byId <==> id in Image(ids, f.agents.Keys) {
      if id in f.byId {
        assert IdOk(f, id);
        assert ids[f.byId[id]] == id;
      }
      if id in Image(ids, f.agents.Keys) {
        var k :| k in f.agents.Keys && ids[k] == id;
        assert KeyOk(f, k);
      }
    }
    assert f.byId.Keys == Image(ids, f.agents.Keys);
    forall id | id in f.byId ensures InBand(id) {
      assert IdOk(f, id) && KeyOk(f, f.byId[id]);
    }
  }

  function Image(m: map<string, nat>, keys: set<string>): set<nat>
    requires keys <= m.Keys
  {
    set k | k in keys :: m[k]
  }

  lemma {:induction false} ImageSize(m: map<string, nat>, keys: set<string>)
    requires keys <= m.Keys && forall j, k :: j in m && k in m && j != k ==> m[j] != m[k]
    ensures |Image(m, keys)| == |keys|
    decreases keys
  {
    if keys != {} {
      var k :| k in keys;
      ImageSize(m, keys - {k});
      assert Image(m, keys) == Image(m, keys - {k}) + {m[k]};
    }
  }

  lemma RoomForOneMore(g: Roster, id: string, keys: set<string>)
    requires Valid(g) && g.agents.Keys + {id} <= keys && |keys| <= BAND_SIZE
    ensures id in g.agents || HasRoom(g.byId)
  {
    if id !in g.agents {
      SubsetSize(g.agents.Keys + {id}, keys);
      IdsMatchNames(g);
      RoomIffFew(g.byId);
    }
  }

  lemma NamingsKeys(f: Roster, source: Source, lines: seq<Agent>, targets: seq<Target>, now: U32, hash: Hash)
    requires DistinctIds(lines)
    ensures DoAll(f, Namings(source, lines, targets), now, hash).roster.agents.Keys == f.agents.Keys + LineIds(lines)
  {
    forall k
      ensures k in DoAll(f, Namings(source, lines, targets), now, hash).roster.agents
              <==> k in f.agents.Keys + LineIds(lines) {
      NamingsShape(f, source, lines, targets, now, hash, k);
    }
  }

  lemma NamingsPrefix(source: Source, lines: seq<Agent>, targets: seq<Target>, i: nat)
    requires i < |lines|
    ensures Namings(source, lines, targets)[..i] == Namings(source, lines[..i], targets)
    ensures Namings(source, lines, targets)[i] == Name(source, lines[i], TargetFor(targets, lines[i].id))
  {
  }

  lemma NamingsReady(v: View, f: Roster, source: Source, lines: seq<Agent>, targets: seq<Target>, now: U32, hash: Hash)
    requires Valid(f) && Mirrors(v, f) && DistinctIds(lines)
    requires |f.agents.Keys + LineIds(lines)| <= BAND_SIZE
    ensures Ready(v, f, Namings(source, lines, targets), now, hash)
  {
    var ops := Namings(source, lines, targets);
    forall i: nat | i < |ops| ensures ReadyAt(v, f, ops, now, hash, i) {
      NamingsPrefix(source, lines, targets, i);
      NamingsKeys(f, source, lines[..i], targets, now, hash);
      assert lines[i] in lines;
      if Follows(v, DoAll(f, ops[..i], now, hash)) {
        RoomForOneMore(DoAll(f, ops[..i], now, hash).roster, lines[i].id, f.agents.Keys + LineIds(lines));
      }
    }
  }

  lemma NamingsFollow(v: View, f: Roster, source: Source, lines: seq<Agent>, targets: seq<Target>, now: U32, hash: Hash)
    requires Valid(f) && Mirrors(v, f) && DistinctIds(lines)
    requires |f.agents.Keys + LineIds(lines)| <= BAND_SIZE
    ensures Follows(v, DoAll(f, Namings(source, lines, targets), now, hash))
  {
    NamingsReady(v, f, source, lines, targets, now, hash);
    DoAllFollows(v, f, Namings(source, lines, targets), now, hash);
  }

  // ----- departures ---------------------------------------------------------------------------

  /** The agents once departures are dealt with, before the bound on held agents is enforced. */
  function Remaining(agents: Agents, source: Source, names: set<string>, now: U32): Agents {
    map k | k in agents && k !in GoneDone(agents, source, names) ::
      if k in Gone(agents, source, names) then Parted(agents[k], now) else agents[k]
  }

  lemma SortedKeys(keys: set<string>, k: string)
    ensures k in Sorted(keys) <==> k in keys
  {
    OrderedKeys(ByKey(keys), k);
  }

  lemma SortedElements(keys: set<string>)
    ensures Elements(Sorted(keys)) == keys
  {
    forall k ensures k in Elements(Sorted(keys)) <==> k in keys {
      SortedKeys(keys, k);
    }
  }

  /** The three phases of `Cleared`, one after the other. */
  ghost function LeftOut(f: Roster, source: Source, names: set<string>, now: U32, hash: Hash): Out {
    DoAll(f, Leaves(Sorted(Gone(f.agents, source, names))), now, hash)
  }

  ghost function RetiredOut(f: Roster, source: Source, names: set<string>, now: U32, hash: Hash): Out {
    DoAll(LeftOut(f, source, names, now, hash).roster, Retires(Sorted(GoneDone(f.agents, source, names))), now, hash)
  }

  /** Agent `k` once those who are gone have been marked. */
  ghost predicate MarkedAs(was: Agents, gone: set<string>, now: U32, marked: Agents, k: string) {
    && (k in marked <==> k in was)
    && (k in was ==> marked[k] == if k in gone then Parted(was[k], now) else was[k])
  }

  lemma LeftShape(f: Roster, source: Source, names: set<string>, now: U32, hash: Hash, k: string)
    ensures MarkedAs(f.agents, Gone(f.agents, source, names), now,
                     LeftOut(f, source, names, now, hash).roster.agents, k)
  {
    SortedKeys(Gone(f.agents, source, names), k);
    LeavesShape(f, Sorted(Gone(f.agents, source, names)), now, hash, k);
  }

  lemma RemainingIs(was: Agents, source: Source, names: set<string>, now: U32, marked: Agents)
    requires forall k :: MarkedAs(was, Gone(was, source, names), now, marked, k)
    ensures marked - GoneDone(was, source, names) == Remaining(was, source, names, now)
  {
    var left := marked - GoneDone(was, source, names);
    forall k ensures (k in left <==> k in Remaining(was, source, names, now))
                  && (k in left ==> left[k] == Remaining(was, source, names, now)[k]) {
      assert MarkedAs(was, Gone(was, source, names), now, marked, k);
    }
  }

  lemma RetiredShape(f: Roster, source: Source, names: set<string>, now: U32, hash: Hash)
    ensures RetiredOut(f, source, names, now, hash).roster.agents == Remaining(f.agents, source, names, now)
  {
    var goneDone := GoneDone(f.agents, source, names);
    var left := LeftOut(f, source, names, now, hash).roster;
    SortedElements(goneDone);
    RetiresShape(left, Sorted(goneDone), now, hash);
    forall k ensures MarkedAs(f.agents, Gone(f.agents, source, names), now, left.agents, k) {
      LeftShape(f, source, names, now, hash, k);
    }
    RemainingIs(f.agents, source, names, now, left.agents);
  }

  /** Who is still there after departures: nobody gone and done, and none of the overflow. */
  lemma ClearedShape(f: Roster, source: Source, names: set<string>, now: U32, hash: Hash)
    ensures var kept := Remaining(f.agents, source, names, now);
            Cleared(f, source, names, now, hash).roster.agents == kept - Overflow(kept)
  {
    var retired := RetiredOut(f, source, names, now, hash).roster;
    RetiredShape(f, source, names, now, hash);
    SortedElements(Overflow(retired.agents));
    RetiresShape(retired, Sorted(Overflow(retired.agents)), now, hash);
  }

  predicate NotYounger(agents: Agents, x: string, y: string)
    requires x in agents && y in agents
  {
    agents[x].doneAt < agents[y].doneAt || (agents[x].doneAt == agents[y].doneAt && Leq(x, y))
  }

  lemma OlderTaken(agents: Agents, dates: Dates, taken: set<string>)
    requires dates == ByAge(agents) && taken <= dates.Keys
    requires forall x, y :: x in taken && y in dates.Keys - taken ==> NotAfter(dates, x, y)
    ensures forall x, y :: x in taken && y in Held(agents) - taken ==> NotYounger(agents, x, y)
  {
    forall x, y | x in taken && y in Held(agents) - taken ensures NotYounger(agents, x, y) {
      assert NotAfter(dates, x, y);
    }
  }

  lemma TooManyHeld(agents: Agents)
    requires |Held(agents)| > MAX_HELD_FINISHED
    ensures Overflow(agents) <= Held(agents) && |Held(agents) - Overflow(agents)| == MAX_HELD_FINISHED
    ensures forall x, y :: x in Overflow(agents) && y in Held(agents) - Overflow(agents) ==> NotYounger(agents, x, y)
  {
    var dates := ByAge(agents);
    assert dates.Keys == Held(agents);
    var n := |dates| - MAX_HELD_FINISHED;
    TakeOldest(dates, n);
    var taken := Elements(Ordered(dates)[..n]);
    assert Overflow(agents) == taken;
    OlderTaken(agents, dates, taken);
  }

  /** The overflow is exactly the excess, and nobody held on is older than anybody let go. */
  lemma OverflowIsOldest(agents: Agents)
    ensures Overflow(agents) <= Held(agents)
    ensures |Held(agents) - Overflow(agents)| == Min(|Held(agents)|, MAX_HELD_FINISHED)
    ensures forall x, y :: x in Overflow(agents) && y in Held(agents) - Overflow(agents) ==> NotYounger(agents, x, y)
  {
    if |Held(agents)| > MAX_HELD_FINISHED {
      TooManyHeld(agents);
    } else {
      assert Held(agents) - Overflow(agents) == Held(agents);
    }
  }

  lemma TakeOldest(dates: Dates, n: nat)
    requires n <= |dates|
    ensures var taken := Elements(Ordered(dates)[..n]);
            && taken <= dates.Keys && |dates.Keys - taken| == |dates| - n
            && forall x, y :: x in taken && y in dates.Keys - taken ==> NotAfter(dates, x, y)
  {
    var ks := Ordered(dates);
    OrderedDistinct(dates);
    OrderedInOrder(dates);
    forall k | k in dates ensures k in ks {
      OrderedKeys(dates, k);
    }
    TakenFirst(dates, ks, n);
    assert dates.Keys == (dates.Keys - Elements(ks[..n])) + Elements(ks[..n]);
  }

  lemma GoneDoneAreDone(f: Roster, source: Source, names: set<string>, now: U32, hash: Hash)
    ensures var left := LeftOut(f, source, names, now, hash).roster.agents;
            forall k :: k in Sorted(GoneDone(f.agents, source, names)) && k in left ==> left[k].done
  {
    var left := LeftOut(f, source, names, now, hash).roster.agents;
    forall k | k in Sorted(GoneDone(f.agents, source, names)) && k in left ensures left[k].done {
      SortedKeys(GoneDone(f.agents, source, names), k);
      LeavesShape(f, Sorted(Gone(f.agents, source, names)), now, hash, k);
    }
  }

  lemma ClearedFollows(v: View, f: Roster, source: Source, names: set<string>, now: U32, hash: Hash)
    requires Valid(f) && Mirrors(v, f)
    ensures Follows(v, Cleared(f, source, names, now, hash))
  {
    var left := LeftOut(f, source, names, now, hash);
    var retired := RetiredOut(f, source, names, now, hash);
    var goneDone := Sorted(GoneDone(f.agents, source, names));
    LeavesFollow(v, f, Sorted(Gone(f.agents, source, names)), now, hash);
    GoneDoneAreDone(f, source, names, now, hash);
    RetiresFollow(Replay(v, left.frames), left.roster, goneDone, now, hash);
    FollowsOn(v, left, retired);
    TrimFollows(v, Out(retired.roster, left.frames + retired.frames), now, hash);
  }

  lemma OverflowAreDone(f: Roster)
    ensures forall k :: k in Sorted(Overflow(f.agents)) ==> k in f.agents && f.agents[k].done
  {
    OverflowIsOldest(f.agents);
    forall k | k in Sorted(Overflow(f.agents)) ensures k in Held(f.agents) {
      SortedKeys(Overflow(f.agents), k);
    }
  }

  lemma TrimFollows(v: View, out: Out, now: U32, hash: Hash)
    requires Follows(v, out)
    ensures var trimmed := DoAll(out.roster, Retires(Sorted(Overflow(out.roster.agents))), now, hash);
            Follows(v, Out(trimmed.roster, out.frames + trimmed.frames))
  {
    var over := Overflow(out.roster.agents);
    OverflowAreDone(out.roster);
    RetiresFollow(Replay(v, out.frames), out.roster, Sorted(over), now, hash);
    FollowsOn(v, out, DoAll(out.roster, Retires(Sorted(over)), now, hash));
  }
}
