/**
 What the frames of the roster feed mean to a client that folds them: the replayed view is the
 server's roster at every call boundary, clocks included
 (src/actors/agent_roster_feed.rs:160-391).
 */
module RosterReplay {
  import opened Basics
  import opened RosterModel

  // ----- id allocation ------------------------------------------------------------------------

  ghost predicate HasRoom(byId: map<nat, string>) {
    exists id: nat :: InBand(id) && id !in byId
  }

  lemma {:induction false} ProbeFinds(byId: map<nat, string>, start: nat, n: nat, m: nat)
    requires n <= m < BAND_SIZE && ProbedId(start, m) !in byId
    ensures Probe(byId, start, n) !in byId
    decreases BAND_SIZE - n
  {
    if ProbedId(start, n) in byId {
      ProbeFinds(byId, start, n + 1, m);
    }
  }

  lemma {:induction false} ProbeInBand(byId: map<nat, string>, start: nat, n: nat)
    requires n < BAND_SIZE
    ensures InBand(Probe(byId, start, n))
    decreases BAND_SIZE - n
  {
    if ProbedId(start, n) in byId && n + 1 < BAND_SIZE {
      ProbeInBand(byId, start, n + 1);
    }
  }

  lemma ProbeReaches(start: nat, id: nat) returns (m: nat)
    requires start < BAND_SIZE && InBand(id)
    ensures m < BAND_SIZE && ProbedId(start, m) == id
  {
    var off := id - BAND_BASE;
    m := if off >= start then off - start else off + BAND_SIZE - start;
  }

  /** The wrapping probe ends on a free id exactly when the band has one. */
  lemma AllocateFree(byId: map<nat, string>, hash: nat)
    ensures InBand(Allocate(byId, hash))
    ensures Allocate(byId, hash) !in byId <==> HasRoom(byId)
  {
    var start := hash % BAND_SIZE;
    ProbeInBand(byId, start, 0);
    if HasRoom(byId) {
      var id: nat :| InBand(id) && id !in byId;
      var m := ProbeReaches(start, id);
      ProbeFinds(byId, start, 0, m);
    }
  }

  lemma RangeBound(used: set<nat>, lo: nat, n: nat)
    requires forall id :: id in used ==> lo <= id < lo + n
    ensures |used| <= n
  {
    SubsetSize(used, Range(lo, n));
  }

  lemma RangeCovered(used: set<nat>, lo: nat, n: nat)
    requires forall id :: id in used ==> lo <= id < lo + n
    ensures (forall id: nat :: lo <= id < lo + n ==> id in used) <==> |used| >= n
  {
    var range := Range(lo, n);
    SubsetSize(used, range);
    if |used| == n {
      SubsetOfEqualSize(used, range);
      assert forall id: nat :: lo <= id < lo + n ==> id in range;
    }
    if forall id: nat :: lo <= id < lo + n ==> id in used {
      SubsetSize(range, used);
    }
  }

  /** Fewer live ids than the band holds leave room; a full band leaves none. */
  lemma RoomIffFew(byId: map<nat, string>)
    requires forall id :: id in byId ==> InBand(id)
    ensures HasRoom(byId) <==> |byId| < BAND_SIZE
  {
    RangeCovered(byId.Keys, BAND_BASE, BAND_SIZE);
    assert HasRoom(byId) <==> !(forall id: nat :: InBand(id) ==> id in byId.Keys);
  }

  // ----- folding frames -----------------------------------------------------------------------

  datatype Entry = Entry(phase: Phase, name: string, ts: U32)

  type View = map<nat, Entry>

  function Seen(v: View, fr: Frame): View {
    match fr
    case ActionFrame(w, _, ts) => if w in v then v[w := v[w].(ts := ts)] else v
    case StateFrame(w, _, ts, phase, name, _) => if phase == Retired then v - {w} else v[w := Entry(phase, name, ts)]
  }

  function Replay(v: View, frames: seq<Frame>): View {
    if frames == [] then v else Seen(Replay(v, frames[..|frames| - 1]), frames[|frames| - 1])
  }

  lemma {:induction false} ReplayMore(v: View, a: seq<Frame>, b: seq<Frame>)
    ensures Replay(v, a + b) == Replay(Replay(v, a), b)
  {
    if b == [] {
      assert a + b == a;
    } else {
      assert (a + b)[..|a + b| - 1] == a + b[..|b| - 1];
      ReplayMore(v, a, b[..|b| - 1]);
    }
  }

  /** What a client may rely on when a frame arrives. */
  predicate IsLegal(v: View, fr: Frame) {
    && (fr.wire in v ==> (v[fr.wire].ts < fr.ts <==> v[fr.wire].ts < U32_MAX))
    && (fr.StateFrame? && fr.phase == Retired ==> fr.wire in v && v[fr.wire].phase == Finished)
    && (fr.ActionFrame? ==> fr.wire in v)
  }

  ghost predicate AllLegal(v: View, frames: seq<Frame>) {
    forall i :: 0 <= i < |frames| ==> IsLegal(Replay(v, frames[..i]), frames[i])
  }

  lemma AllLegalMore(v: View, a: seq<Frame>, b: seq<Frame>)
    requires AllLegal(v, a) && AllLegal(Replay(v, a), b)
    ensures AllLegal(v, a + b)
  {
    forall i | 0 <= i < |a + b| ensures IsLegal(Replay(v, (a + b)[..i]), (a + b)[i]) {
      if i < |a| {
        assert (a + b)[..i] == a[..i];
      } else {
        assert (a + b)[..i] == a + b[..i - |a|];
        ReplayMore(v, a, b[..i - |a|]);
      }
    }
  }

  ghost predicate MirrorsKey(v: View, f: Roster, k: string)
    requires Valid(f)
  {
    k in f.agents ==> Wire(f.agents[k].id) in v && v[Wire(f.agents[k].id)] == EntryOf(f, k)
  }

  ghost predicate MirrorsWire(v: View, f: Roster, w: nat) {
    w in v ==> w >= AGENT_FLAG && w - AGENT_FLAG in f.byId
  }

  /** The client's view is the server's roster: who is live, in what phase, under what name, at what time. */
  ghost predicate Mirrors(v: View, f: Roster)
    requires Valid(f)
  {
    && (forall k {:trigger MirrorsKey(v, f, k)} :: MirrorsKey(v, f, k))
    && (forall w: nat {:trigger MirrorsWire(v, f, w)} :: MirrorsWire(v, f, w))
  }

  ghost function EntryOf(f: Roster, k: string): Entry
    requires k in f.agents && Valid(f)
  {
    assert KeyOk(f, k) && IdOk(f, f.agents[k].id);
    Entry(PhaseOf(f.agents[k]), f.agents[k].agent.name, f.lastTs[f.agents[k].id])
  }

  /** When a primitive change is sound: a retirement needs a finished agent, a new agent a free id. */
  ghost predicate Allowed(f: Roster, op: Op) {
    match op
    case Leave(k) => true
    case Retire(k) => k in f.agents ==> f.agents[k].done
    case Name(_, a, _) => a.id in f.agents || HasRoom(f.byId)
    case KeepAlive(k) => true
  }

  /** After some frames: the roster is valid again and the view still mirrors it. */
  ghost predicate Follows(v: View, out: Out) {
    Valid(out.roster) && AllLegal(v, out.frames) && Mirrors(Replay(v, out.frames), out.roster)
  }

  lemma QuietFollows(v: View, f: Roster)
    requires Valid(f) && Mirrors(v, f)
    ensures Follows(v, Out(f, []))
  {
  }

  lemma ToldFollows(v: View, fr: Frame, f: Roster)
    requires IsLegal(v, fr) && Valid(f) && Mirrors(Seen(v, fr), f)
    ensures Follows(v, Out(f, [fr]))
  {
    assert [fr][..0] == [];
    assert Replay(v, [fr][..0]) == v;
  }

  /** One agent's record changed, and a frame said so, or nothing a client is told did. */
  ghost predicate Changed(f: Roster, k: string, f': Roster) {
    && k in f.agents && k in f'.agents
    && f'.agents == f.agents[k := f'.agents[k]] && f'.byId == f.byId
    && f'.agents[k].id == f.agents[k].id && f'.agents[k].agent.id == k && (f'.agents[k].left ==> f'.agents[k].done)
  }

  lemma ChangedIsValid(f: Roster, k: string, f': Roster)
    requires Valid(f) && Changed(f, k, f') && f'.lastTs.Keys == f.lastTs.Keys
    ensures Valid(f')
  {
    forall j ensures KeyOk(f', j) {
      assert KeyOk(f, j);
    }
    forall id: nat ensures IdOk(f', id) {
      assert IdOk(f, id);
    }
  }

  lemma OtherIds(f: Roster, j: string, k: string)
    requires Valid(f) && j in f.agents && k in f.agents && j != k
    ensures f.agents[j].id != f.agents[k].id
  {
    assert KeyOk(f, j) && KeyOk(f, k);
  }

  lemma ChangedQuietly(v: View, f: Roster, k: string, f': Roster)
    requires Valid(f) && Mirrors(v, f) && Changed(f, k, f') && f'.lastTs == f.lastTs
    requires f'.agents[k].done == f.agents[k].done && f'.agents[k].agent.name == f.agents[k].agent.name
    ensures Valid(f') && Mirrors(v, f')
  {
    ChangedIsValid(f, k, f');
    forall j ensures MirrorsKey(v, f', j) {
      assert MirrorsKey(v, f, j);
    }
    forall w: nat ensures MirrorsWire(v, f', w) {
      assert MirrorsWire(v, f, w);
    }
  }

  lemma ChangedAloud(v: View, f: Roster, k: string, f': Roster, fr: Frame)
    requires Valid(f) && Mirrors(v, f) && Changed(f, k, f')
    requires fr.StateFrame? && fr.wire == Wire(f.agents[k].id) && fr.phase == PhaseOf(f'.agents[k])
    requires fr.name == f'.agents[k].agent.name && f'.lastTs == f.lastTs[f.agents[k].id := fr.ts]
    ensures Valid(f') && Mirrors(Seen(v, fr), f')
  {
    assert KeyOk(f, k) && IdOk(f, f.agents[k].id);
    ChangedIsValid(f, k, f');
    forall j | j in f'.agents ensures MirrorsKey(Seen(v, fr), f', j) {
      assert MirrorsKey(v, f, j);
      if j != k { OtherIds(f, j, k); }
    }
    forall w: nat ensures MirrorsWire(Seen(v, fr), f', w) {
      assert MirrorsWire(v, f, w);
    }
  }

  /** A stamp on the agent's clock is later than the last, unless the clock wraps. */
  lemma StampIsLegal(v: View, f: Roster, k: string, now: U32)
    requires Valid(f) && Mirrors(v, f) && k in f.agents
    ensures var w, ts := Wire(f.agents[k].id), Stamped(f.lastTs, f.agents[k].id, now);
            w in v && v[w].phase == PhaseOf(f.agents[k]) && (v[w].ts < ts <==> v[w].ts < U32_MAX)
  {
    assert MirrorsKey(v, f, k) && KeyOk(f, k) && IdOk(f, f.agents[k].id);
  }

  lemma DepartedFollows(v: View, f: Roster, k: string, now: U32)
    requires Valid(f) && Mirrors(v, f) && k in f.agents
    ensures Follows(v, Departed(f, k, now))
  {
    var out := Departed(f, k, now);
    assert KeyOk(f, k);
    if f.agents[k].done {
      ChangedQuietly(v, f, k, out.roster);
      QuietFollows(v, out.roster);
    } else {
      StampIsLegal(v, f, k, now);
      ChangedAloud(v, f, k, out.roster, out.frames[0]);
      ToldFollows(v, out.frames[0], out.roster);
    }
  }

  lemma DismissedFollows(v: View, f: Roster, k: string, now: U32)
    requires Valid(f) && Mirrors(v, f) && k in f.agents && f.agents[k].done
    ensures Follows(v, Dismissed(f, k, now))
  {
    var out := Dismissed(f, k, now);
    var fr, f', id := out.frames[0], out.roster, f.agents[k].id;
    assert KeyOk(f, k);
    StampIsLegal(v, f, k, now);
    forall j ensures KeyOk(f', j) {
      assert KeyOk(f, j);
    }
    forall x: nat ensures IdOk(f', x) {
      assert IdOk(f, x);
    }
    forall j | j in f'.agents ensures MirrorsKey(Seen(v, fr), f', j) {
      assert MirrorsKey(v, f, j) && KeyOk(f, j) && IdOk(f, f.agents[j].id);
      OtherIds(f, j, k);
    }
    forall w: nat ensures MirrorsWire(Seen(v, fr), f', w) {
      assert MirrorsWire(v, f, w);
    }
    ToldFollows(v, fr, f');
  }

  lemma AnnouncedFollows(v: View, f: Roster, k: string, now: U32)
    requires Valid(f) && Mirrors(v, f) && k in f.agents
    ensures Follows(v, Announced(f, k, PhaseOf(f.agents[k]), now))
  {
    var out := Announced(f, k, PhaseOf(f.agents[k]), now);
    assert KeyOk(f, k);
    StampIsLegal(v, f, k, now);
    ChangedAloud(v, f, k, out.roster, out.frames[0]);
    ToldFollows(v, out.frames[0], out.roster);
  }

  lemma RelistedFollows(v: View, f: Roster, source: Source, a: Agent, target: nat, now: U32, hash: Hash)
    requires Valid(f) && Mirrors(v, f) && a.id in f.agents
    ensures Follows(v, Named(f, source, a, target, now, hash))
  {
    var out := Named(f, source, a, target, now, hash);
    if out.frames == [] {
      ChangedQuietly(v, f, a.id, out.roster);
      QuietFollows(v, out.roster);
    } else {
      StampIsLegal(v, f, a.id, now);
      ChangedAloud(v, f, a.id, out.roster, out.frames[0]);
      ToldFollows(v, out.frames[0], out.roster);
    }
  }

  lemma SpawnedFollows(v: View, f: Roster, source: Source, a: Agent, target: nat, now: U32, hash: Hash)
    requires Valid(f) && Mirrors(v, f) && a.id !in f.agents && HasRoom(f.byId)
    ensures Follows(v, Named(f, source, a, target, now, hash))
  {
    AllocateFree(f.byId, hash(a.id));
    var out := Named(f, source, a, target, now, hash);
    SpawnedIsValid(f, Allocate(f.byId, hash(a.id)), out.roster, a.id);
    SpawnedMirrors(v, f, Allocate(f.byId, hash(a.id)), out.roster, a.id, out.frames[0]);
    ToldFollows(v, out.frames[0], out.roster);
  }

  ghost predicate Spawned(f: Roster, id: nat, f': Roster, k: string) {
    && k !in f.agents && id !in f.byId && InBand(id)
    && k in f'.agents && f'.agents == f.agents[k := f'.agents[k]] && f'.byId == f.byId[id := k]
    && f'.agents[k].id == id && f'.agents[k].agent.id == k && !f'.agents[k].left
    && id in f'.lastTs && f'.lastTs == f.lastTs[id := f'.lastTs[id]]
  }

  lemma SpawnedIsValid(f: Roster, id: nat, f': Roster, k: string)
    requires Valid(f) && Spawned(f, id, f', k)
    ensures Valid(f')
  {
    forall j ensures KeyOk(f', j) {
      assert KeyOk(f, j);
    }
    forall x: nat ensures IdOk(f', x) {
      assert IdOk(f, x);
    }
  }

  lemma SpawnedMirrors(v: View, f: Roster, id: nat, f': Roster, k: string, fr: Frame)
    requires Valid(f) && Mirrors(v, f) && Spawned(f, id, f', k) && Valid(f')
    requires fr.StateFrame? && fr.wire == Wire(id) && fr.phase == PhaseOf(f'.agents[k])
    requires fr.name == f'.agents[k].agent.name && f'.lastTs[id] == fr.ts
    ensures IsLegal(v, fr) && Mirrors(Seen(v, fr), f')
  {
    assert Wire(id) !in v by {
      assert MirrorsWire(v, f, Wire(id));
    }
    forall j | j in f'.agents ensures MirrorsKey(Seen(v, fr), f', j) {
      if j != k {
        assert MirrorsKey(v, f, j) && KeyOk(f, j);
      }
    }
    forall w ensures MirrorsWire(Seen(v, fr), f', w) {
      assert MirrorsWire(v, f, w);
    }
  }

  lemma DoFollows(v: View, f: Roster, op: Op, now: U32, hash: Hash)
    requires Valid(f) && Mirrors(v, f) && Allowed(f, op)
    ensures Follows(v, Do(f, op, now, hash))
  {
    match op
    case Leave(k) => if k in f.agents { DepartedFollows(v, f, k, now); }
    case Retire(k) => if k in f.agents { DismissedFollows(v, f, k, now); }
    case Name(source, a, target) =>
      if a.id in f.agents {
        RelistedFollows(v, f, source, a, target, now, hash);
      } else {
        SpawnedFollows(v, f, source, a, target, now, hash);
      }
    case KeepAlive(k) => if k in f.agents { AnnouncedFollows(v, f, k, now); }
  }

  lemma FollowsOn(v: View, before: Out, after: Out)
    requires Follows(v, before) && Follows(Replay(v, before.frames), after)
    ensures Follows(v, Out(after.roster, before.frames + after.frames))
  {
    AllLegalMore(v, before.frames, after.frames);
    ReplayMore(v, before.frames, after.frames);
  }

  lemma OneMoreFollows(v: View, f: Roster, ops: seq<Op>, op: Op, now: U32, hash: Hash)
    requires Follows(v, DoAll(f, ops, now, hash)) && Allowed(DoAll(f, ops, now, hash).roster, op)
    ensures Follows(v, DoAll(f, ops + [op], now, hash))
  {
    var before := DoAll(f, ops, now, hash);
    DoFollows(Replay(v, before.frames), before.roster, op, now, hash);
    FollowsOn(v, before, Do(before.roster, op, now, hash));
    DoOneMore(f, ops, op, now, hash);
  }

  /** Change `i` finds itself allowed when its turn comes, if all is well so far. */
  ghost predicate ReadyAt(v: View, f: Roster, ops: seq<Op>, now: U32, hash: Hash, i: nat)
    requires i < |ops|
  {
    Follows(v, DoAll(f, ops[..i], now, hash)) ==> Allowed(DoAll(f, ops[..i], now, hash).roster, ops[i])
  }

  ghost predicate Ready(v: View, f: Roster, ops: seq<Op>, now: U32, hash: Hash) {
    forall i: nat {:trigger ReadyAt(v, f, ops, now, hash, i)} :: i < |ops| ==> ReadyAt(v, f, ops, now, hash, i)
  }

  lemma {:induction false} DoAllFollows(v: View, f: Roster, ops: seq<Op>, now: U32, hash: Hash)
    requires Valid(f) && Mirrors(v, f) && Ready(v, f, ops, now, hash)
    ensures Follows(v, DoAll(f, ops, now, hash))
  {
    PrefixFollows(v, f, ops, now, hash, |ops|);
    assert ops[..|ops|] == ops;
  }

  lemma {:induction false} PrefixFollows(v: View, f: Roster, ops: seq<Op>, now: U32, hash: Hash, n: nat)
    requires Valid(f) && Mirrors(v, f) && Ready(v, f, ops, now, hash) && n <= |ops|
    ensures Follows(v, DoAll(f, ops[..n], now, hash))
  {
    if n == 0 {
      QuietFollows(v, f);
    } else {
      PrefixFollows(v, f, ops, now, hash, n - 1);
      assert ReadyAt(v, f, ops, now, hash, n - 1);
      OneMoreFollows(v, f, ops[..n - 1], ops[n - 1], now, hash);
      assert ops[..n] == ops[..n - 1] + [ops[n - 1]];
    }
  }
}
