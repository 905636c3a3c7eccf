/**
 The timestamps of the roster feed: each is the least clock value that is not before the time now and later
 than the agent's last, as long as that last was below the wrap of the 32-bit clock; over every frame of
 every call of every run (src/actors/agent_roster_feed.rs:176-186, 226-391).
 */
module RosterClocks {
  import opened Basics
  import opened RosterModel
  import opened RosterReplay
  import opened RosterCalls
  import opened RosterRuns

  // ----- one stamp ----------------------------------------------------------------------------

  /** The time is not before now, and later than `last`. */
  predicate MayStamp(last: Option<U32>, now: U32, ts: U32) {
    ts >= now && (last.Some? ==> ts > last.value)
  }

  ghost predicate IsLeastStamp(last: Option<U32>, now: U32, ts: U32) {
    MayStamp(last, now, ts) && forall t: U32 :: MayStamp(last, now, t) ==> ts <= t
  }

  function LastOf(lastTs: map<nat, U32>, id: nat): Option<U32> {
    if id in lastTs then Some(lastTs[id]) else None
  }

  /** Below the wrap a stamp is the least time it may be; at the wrap there is none, and the clock starts over. */
  lemma StampIsLeast(lastTs: map<nat, U32>, id: nat, now: U32)
    ensures LastOf(lastTs, id) != Some(U32_MAX) ==> IsLeastStamp(LastOf(lastTs, id), now, Stamped(lastTs, id, now))
    ensures LastOf(lastTs, id) == Some(U32_MAX) ==>
              Stamped(lastTs, id, now) == 0 && forall t: U32 :: !MayStamp(LastOf(lastTs, id), now, t)
  {
  }

  // ----- frames in order ----------------------------------------------------------------------

  /** The frame is stamped on time, for a client that has folded all frames before it. */
  ghost predicate OnTime(v: View, fr: Frame, now: U32) {
    var last := if fr.wire in v then Some(v[fr.wire].ts) else None;
    last != Some(U32_MAX) ==> IsLeastStamp(last, now, fr.ts)
  }

  ghost predicate AllOnTime(v: View, frames: seq<Frame>, now: U32) {
    forall i :: 0 <= i < |frames| ==> OnTime(Replay(v, frames[..i]), frames[i], now)
  }

  lemma AllOnTimeMore(v: View, a: seq<Frame>, b: seq<Frame>, now: U32)
    requires AllOnTime(v, a, now) && AllOnTime(Replay(v, a), b, now)
    ensures AllOnTime(v, a + b, now)
  {
    forall i | 0 <= i < |a + b| ensures OnTime(Replay(v, (a + b)[..i]), (a + b)[i], now) {
      if i < |a| {
        assert (a + b)[..i] == a[..i];
      } else {
        assert (a + b)[..i] == a + b[..i - |a|];
        ReplayMore(v, a, b[..i - |a|]);
      }
    }
  }

  /** What the client last saw of a wire is what the clock of its id says. */
  lemma LastSeen(v: View, f: Roster, id: nat)
    requires Valid(f) && Mirrors(v, f)
    ensures (if Wire(id) in v then Some(v[Wire(id)].ts) else None) == LastOf(f.lastTs, id)
  {
    assert MirrorsWire(v, f, Wire(id)) && IdOk(f, id);
    if id in f.byId {
      assert MirrorsKey(v, f, f.byId[id]);
    }
  }

  lemma StampedOnTime(v: View, f: Roster, fr: Frame, id: nat, now: U32)
    requires Valid(f) && Mirrors(v, f) && fr.wire == Wire(id) && fr.ts == Stamped(f.lastTs, id, now)
    ensures OnTime(v, fr, now)
  {
    LastSeen(v, f, id);
    StampIsLeast(f.lastTs, id, now);
  }

  lemma OneOnTime(v: View, fr: Frame, now: U32)
    requires OnTime(v, fr, now)
    ensures AllOnTime(v, [fr], now)
  {
    assert [fr][..0] == [] && Replay(v, [fr][..0]) == v;
  }

  /** Each primitive change sends one frame at most, stamped on the clock of the agent it is about. */
  lemma DoOnTime(v: View, f: Roster, op: Op, now: U32, hash: Hash)
    requires Valid(f) && Mirrors(v, f)
    ensures AllOnTime(v, Do(f, op, now, hash).frames, now)
  {
    var frames := Do(f, op, now, hash).frames;
    if frames != [] {
      var key := if op.Name? then op.agent.id else op.key;
      var id := if key in f.agents then f.agents[key].id else Allocate(f.byId, hash(key));
      StampedOnTime(v, f, frames[0], id, now);
      OneOnTime(v, frames[0], now);
    }
  }

  lemma OneMoreOnTime(v: View, f: Roster, ops: seq<Op>, op: Op, now: U32, hash: Hash)
    requires Follows(v, DoAll(f, ops, now, hash)) && AllOnTime(v, DoAll(f, ops, now, hash).frames, now)
    ensures AllOnTime(v, DoAll(f, ops + [op], now, hash).frames, now)
  {
    var before := DoAll(f, ops, now, hash);
    DoOnTime(Replay(v, before.frames), before.roster, op, now, hash);
    AllOnTimeMore(v, before.frames, Do(before.roster, op, now, hash).frames, now);
    DoOneMore(f, ops, op, now, hash);
  }

  lemma {:induction false} DoAllOnTime(v: View, f: Roster, ops: seq<Op>, now: U32, hash: Hash, n: nat)
    requires Valid(f) && Mirrors(v, f) && Ready(v, f, ops, now, hash) && n <= |ops|
    ensures AllOnTime(v, DoAll(f, ops[..n], now, hash).frames, now)
  {
    if n > 0 {
      DoAllOnTime(v, f, ops, now, hash, n - 1);
      PrefixFollows(v, f, ops, now, hash, n - 1);
      OneMoreOnTime(v, f, ops[..n - 1], ops[n - 1], now, hash);
      assert ops[..n] == ops[..n - 1] + [ops[n - 1]];
    }
  }

  lemma ReadyOnTime(v: View, f: Roster, ops: seq<Op>, now: U32, hash: Hash)
    requires Valid(f) && Mirrors(v, f) && Ready(v, f, ops, now, hash)
    ensures AllOnTime(v, DoAll(f, ops, now, hash).frames, now) && Follows(v, DoAll(f, ops, now, hash))
  {
    DoAllOnTime(v, f, ops, now, hash, |ops|);
    DoAllFollows(v, f, ops, now, hash);
    assert ops[..|ops|] == ops;
  }

  /** After some frames all is well, and they were on time. */
  ghost predicate Keeps(v: View, out: Out, now: U32) {
    Follows(v, out) && AllOnTime(v, out.frames, now)
  }

  lemma KeepsOn(v: View, before: Out, after: Out, now: U32)
    requires Keeps(v, before, now) && Keeps(Replay(v, before.frames), after, now)
    ensures Keeps(v, Out(after.roster, before.frames + after.frames), now)
  {
    FollowsOn(v, before, after);
    AllOnTimeMore(v, before.frames, after.frames, now);
  }

  // ----- whole calls --------------------------------------------------------------------------

  lemma LeavesOnTime(v: View, f: Roster, ks: seq<string>, now: U32, hash: Hash)
    requires Valid(f) && Mirrors(v, f)
    ensures Keeps(v, DoAll(f, Leaves(ks), now, hash), now) && Keeps(v, DoAll(f, KeepAlives(ks), now, hash), now)
  {
    assert forall i :: 0 <= i < |ks| ==> Leaves(ks)[i].Leave? && KeepAlives(ks)[i].KeepAlive?;
    ReadyOnTime(v, f, Leaves(ks), now, hash);
    ReadyOnTime(v, f, KeepAlives(ks), now, hash);
  }

  lemma RetiresOnTime(v: View, f: Roster, ks: seq<string>, now: U32, hash: Hash)
    requires Valid(f) && Mirrors(v, f) && forall k :: k in ks && k in f.agents ==> f.agents[k].done
    ensures Keeps(v, DoAll(f, Retires(ks), now, hash), now)
  {
    RetiresReady(v, f, ks, now, hash);
    ReadyOnTime(v, f, Retires(ks), now, hash);
  }

  lemma ClearedOnTime(v: View, f: Roster, source: Source, names: set<string>, now: U32, hash: Hash)
    requires Valid(f) && Mirrors(v, f)
    ensures Keeps(v, Cleared(f, source, names, now, hash), now)
  {
    var left, retired := LeftOut(f, source, names, now, hash), RetiredOut(f, source, names, now, hash);
    var trimmed := DoAll(retired.roster, Retires(Sorted(Overflow(retired.roster.agents))), now, hash);
    LeavesOnTime(v, f, Sorted(Gone(f.agents, source, names)), now, hash);
    GoneDoneAreDone(f, source, names, now, hash);
    RetiresOnTime(Replay(v, left.frames), left.roster, Sorted(GoneDone(f.agents, source, names)), now, hash);
    KeepsOn(v, left, retired, now);
    var both := Out(retired.roster, left.frames + retired.frames);
    OverflowAreDone(retired.roster);
    RetiresOnTime(Replay(v, both.frames), retired.roster, Sorted(Overflow(retired.roster.agents)), now, hash);
    KeepsOn(v, both, trimmed, now);
  }

  lemma AppliedOnTime(v: View, f: Roster, source: Source, roster: seq<Agent>, targets: seq<Target>, now: U32,
                      hash: Hash)
    requires Valid(f) && Mirrors(v, f)
    requires |Staying(f, source, roster, targets, now).Keys + Names(roster)| <= BAND_SIZE
    ensures Keeps(v, Applied(f, source, roster, targets, now, hash), now)
  {
    var f0 := f.(agents := Retargeted(f.agents, targets));
    RetargetedFollows(v, f, targets);
    ClearedOnTime(v, f0, source, Names(roster), now, hash);
    var cleared := Cleared(f0, source, Names(roster), now, hash);
    ClearedShape(f0, source, Names(roster), now, hash);
    LinesOf(roster);
    var ops := Namings(source, Lines(roster), targets);
    NamingsReady(Replay(v, cleared.frames), cleared.roster, source, Lines(roster), targets, now, hash);
    ReadyOnTime(Replay(v, cleared.frames), cleared.roster, ops, now, hash);
    KeepsOn(v, cleared, DoAll(cleared.roster, ops, now, hash), now);
  }

  lemma TickedOnTime(v: View, f: Roster, dt: nat, now: U32, hash: Hash)
    requires Valid(f) && Mirrors(v, f)
    ensures Keeps(v, Ticked(f, dt, now, hash), now)
  {
    TickedFollows(v, f, dt, now, hash);
    if f.sinceKeepalive + dt >= KEEPALIVE_MS {
      CountedFollows(v, f, 0);
      LeavesOnTime(v, f.(sinceKeepalive := 0), Sorted(f.agents.Keys), now, hash);
    }
  }

  lemma JoinedOnTime(v: View, f: Roster, task: Option<string>, target: nat, at: U32)
    requires Valid(f) && Mirrors(v, f)
    ensures Keeps(v, Joined(f, task, target, at), at)
  {
    JoinedFollows(v, f, task, target, at);
    if task.Some? && task.value in f.agents {
      var fr := Joined(f, task, target, at).frames[0];
      StampedOnTime(v, f, fr, f.agents[task.value].id, at);
      OneOnTime(v, fr, at);
    }
  }

  /** The time a call is given. */
  function TimeOf(call: Call): U32 {
    match call
    case Apply(_, _, _, now) => now
    case Tick(_, now) => now
    case Join(_, _, at) => at
  }

  lemma CalledOnTime(v: View, f: Roster, call: Call, hash: Hash)
    requires Valid(f) && Mirrors(v, f) && Fits(f, call)
    ensures AllOnTime(v, Called(f, call, hash).frames, TimeOf(call))
  {
    match call
    case Apply(source, roster, targets, now) => AppliedOnTime(v, f, source, roster, targets, now, hash);
    case Tick(dt, now) => TickedOnTime(v, f, dt, now, hash);
    case Join(task, target, at) => JoinedOnTime(v, f, task, target, at);
  }

  // ----- whole runs ---------------------------------------------------------------------------

  /**
   In every run, every frame of every call carries the least clock value that is not before the time of the
   call and later than the last of its agent, unless that last was the end of the 32-bit clock.
   */
  lemma RunIsOnTime(calls: seq<Call>, hash: Hash, n: nat)
    requires AllFit(calls, hash) && n < |calls|
    ensures AllOnTime(Replay(map[], Run(calls[..n], hash).frames),
                      Called(Run(calls[..n], hash).roster, calls[n], hash).frames, TimeOf(calls[n]))
  {
    RunReplays(calls, hash, n);
    assert FitsAt(calls, hash, n);
    CalledOnTime(Replay(map[], Run(calls[..n], hash).frames), Run(calls[..n], hash).roster, calls[n], hash);
  }

  /** In particular none is dated before the call, as long as no clock has reached its end. */
  lemma NoFrameIsEarly(calls: seq<Call>, hash: Hash, n: nat, i: nat)
    requires AllFit(calls, hash) && n < |calls|
    requires i < |Called(Run(calls[..n], hash).roster, calls[n], hash).frames|
    ensures var frames := Called(Run(calls[..n], hash).roster, calls[n], hash).frames;
            var v := Replay(Replay(map[], Run(calls[..n], hash).frames), frames[..i]);
            (frames[i].wire in v ==> v[frames[i].wire].ts < U32_MAX) ==> frames[i].ts >= TimeOf(calls[n])
  {
    RunIsOnTime(calls, hash, n);
    var frames := Called(Run(calls[..n], hash).roster, calls[n], hash).frames;
    assert OnTime(Replay(Replay(map[], Run(calls[..n], hash).frames), frames[..i]), frames[i], TimeOf(calls[n]));
  }
}
