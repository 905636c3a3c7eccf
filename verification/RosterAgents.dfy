/**
 What a roster does to each agent, outright: every field of every agent after a call, in terms of the
 agents before it and the lines of the roster; which line counts, which work node, which id, and when a
 keep-alive is due (src/actors/agent_roster_feed.rs:73-79, 160-174, 226-391).
 */
module RosterAgents {
  import opened Basics
  import opened RosterModel
  import opened RosterCalls
  import opened RosterRuns

  // ----- words and ids ------------------------------------------------------------------------

  /** The same letter of a lower-case word, in either case. */
  predicate Alike(c: char, w: char) {
    c == w || ('A' <= c <= 'Z' && c as int + 32 == w as int)
  }

  predicate Spells(status: string, word: string) {
    |status| == |word| && forall i :: 0 <= i < |word| ==> Alike(status[i], word[i])
  }

  lemma LoweredSpells(status: string, word: string)
    requires forall i :: 0 <= i < |word| ==> 'a' <= word[i] <= 'z'
    ensures Lowered(status) == word <==> Spells(status, word)
  {
    if Lowered(status) == word {
      forall i | 0 <= i < |word| ensures Alike(status[i], word[i]) {
        assert Lowered(status)[i] == word[i];
      }
    }
  }

  /** An agent has finished exactly if its status spells one of three words, in any mixture of cases. */
  lemma FinishedIff(status: string)
    ensures IsFinished(status) <==> Spells(status, "completed") || Spells(status, "failed") || Spells(status, "done")
  {
    LoweredSpells(status, "completed");
    LoweredSpells(status, "failed");
    LoweredSpells(status, "done");
  }

  /** The `j`-th id of the band from the one a key hashes to, around its end. */
  function IdFrom(hash: nat, j: nat): nat {
    BAND_BASE + (hash + j) % BAND_SIZE
  }

  lemma ProbedFrom(hash: nat, j: nat)
    ensures ProbedId(hash % BAND_SIZE, j) == IdFrom(hash, j)
  {
  }

  /** A new agent gets the id its key hashes to, or the next free one above it, around the end of the band. */
  lemma AllocateIsNext(byId: map<nat, string>, hash: nat) returns (m: nat)
    ensures m < BAND_SIZE && Allocate(byId, hash) == IdFrom(hash, m)
    ensures forall j: nat :: j < m ==> IdFrom(hash, j) in byId
    ensures Allocate(byId, hash) in byId ==> m == 0
  {
    m := ProbeIsNext(byId, hash % BAND_SIZE, 0);
    ProbedFrom(hash, m);
    forall j: nat | j < m ensures IdFrom(hash, j) in byId {
      ProbedFrom(hash, j);
      assert ProbedId(hash % BAND_SIZE, j) in byId;
    }
  }

  lemma {:induction false} ProbeIsNext(byId: map<nat, string>, start: nat, n: nat) returns (m: nat)
    requires n < BAND_SIZE && forall j: nat :: j < n ==> ProbedId(start, j) in byId
    ensures m < BAND_SIZE && Probe(byId, start, n) == ProbedId(start, m)
    ensures forall j: nat :: j < m ==> ProbedId(start, j) in byId
    ensures ProbedId(start, m) in byId ==> m == 0
    decreases BAND_SIZE - n
  {
    if ProbedId(start, n) !in byId {
      m := n;
    } else if n + 1 == BAND_SIZE {
      m := 0;
    } else {
      m := ProbeIsNext(byId, start, n + 1);
    }
  }

  // ----- which line, which node ---------------------------------------------------------------

  /** The line at `i` is the first of its non-empty id. */
  predicate FirstOfId(roster: seq<Agent>, i: nat)
    requires i < |roster|
  {
    roster[i].id != "" && forall j :: 0 <= j < i ==> roster[j].id != roster[i].id
  }

  /** The lines that count are exactly the first of each non-empty id. */
  lemma LinesAreFirst(roster: seq<Agent>, a: Agent)
    ensures a in Lines(roster) <==> exists i :: 0 <= i < |roster| && roster[i] == a && FirstOfId(roster, i)
  {
    if a in Lines(roster) {
      var i := LineIsFirst(roster, a);
    }
    if i :| 0 <= i < |roster| && roster[i] == a && FirstOfId(roster, i) {
      FirstIsLine(roster, i);
    }
  }

  lemma {:induction false} LineIsFirst(roster: seq<Agent>, a: Agent) returns (i: nat)
    requires a in Lines(roster)
    ensures i < |roster| && roster[i] == a && FirstOfId(roster, i)
  {
    var n := |roster| - 1;
    if a in Lines(roster[..n]) {
      i := LineIsFirst(roster[..n], a);
    } else {
      i := n;
      forall j | 0 <= j < n ensures roster[j].id != a.id {
        assert roster[..n][j] in roster[..n];
      }
    }
  }

  lemma {:induction false} FirstIsLine(roster: seq<Agent>, i: nat)
    requires i < |roster| && FirstOfId(roster, i)
    ensures roster[i] in Lines(roster)
  {
    var n := |roster| - 1;
    if i < n {
      FirstIsLine(roster[..n], i);
    }
  }

  predicate Unlisted(targets: seq<Target>, k: string) {
    forall i :: 0 <= i < |targets| ==> targets[i].0 != k
  }

  /** `node` stands in the last entry for `k`. */
  predicate LastListed(targets: seq<Target>, k: string, node: nat) {
    exists i :: 0 <= i < |targets| && targets[i] == (k, node) && forall j :: i < j < |targets| ==> targets[j].0 != k
  }

  predicate FirstListed(targets: seq<Target>, k: string, node: nat) {
    exists i :: 0 <= i < |targets| && targets[i] == (k, node) && forall j :: 0 <= j < i ==> targets[j].0 != k
  }

  lemma {:induction false} NewTargetIsLast(targets: seq<Target>, k: string, current: nat)
    ensures if Unlisted(targets, k) then NewTarget(targets, k, current) == current
            else LastListed(targets, k, NewTarget(targets, k, current))
  {
    if targets != [] {
      var n := |targets| - 1;
      NewTargetIsLast(targets[..n], k, current);
      if targets[n].0 == k {
        assert targets[n] == (k, NewTarget(targets, k, current));
      } else if !Unlisted(targets, k) {
        var j :| 0 <= j < |targets| && targets[j].0 == k;
        assert targets[..n][j].0 == k;
        var i :| 0 <= i < n && targets[..n][i] == (k, NewTarget(targets, k, current))
                 && forall j :: i < j < n ==> targets[..n][j].0 != k;
        assert targets[i] == (k, NewTarget(targets, k, current));
        forall j | i < j < |targets| ensures targets[j].0 != k {
          assert j < n ==> targets[j] == targets[..n][j];
        }
      }
    }
  }

  lemma {:induction false} TargetForIsFirst(targets: seq<Target>, k: string)
    ensures if Unlisted(targets, k) then TargetFor(targets, k) == 0
            else FirstListed(targets, k, TargetFor(targets, k))
  {
    if targets != [] {
      if targets[0].0 == k {
        assert targets[0] == (k, TargetFor(targets, k));
      } else {
        TargetForIsFirst(targets[1..], k);
        if !Unlisted(targets, k) {
          var j :| 0 <= j < |targets| && targets[j].0 == k;
          assert targets[1..][j - 1].0 == k;
          var i :| 0 <= i < |targets| - 1 && targets[1..][i] == (k, TargetFor(targets, k))
                   && forall j :: 0 <= j < i ==> targets[1..][j].0 != k;
          assert targets[i + 1] == (k, TargetFor(targets, k));
          forall j | 0 <= j < i + 1 ensures targets[j].0 != k {
            assert j > 0 ==> targets[j] == targets[1..][j - 1];
          }
        }
      }
    }
  }

  // ----- every agent after a roster -----------------------------------------------------------

  /** The work node of an agent that stays: the last its producer lists, or the one it had. */
  predicate KeepsNode(targets: seq<Target>, k: string, was: nat, node: nat) {
    if Unlisted(targets, k) then node == was else LastListed(targets, k, node)
  }

  predicate GetsNode(targets: seq<Target>, k: string, node: nat) {
    if Unlisted(targets, k) then node == 0 else FirstListed(targets, k, node)
  }

  /** Those sent away: of this producer, not left before, done, and named no more; and the overflow. */
  lemma SentAwayIff(f: Roster, source: Source, roster: seq<Agent>, targets: seq<Target>, now: U32, k: string)
    ensures k in SentAway(f, source, roster, targets, now) <==>
              || (k in f.agents && f.agents[k].source == source && !f.agents[k].left && f.agents[k].done
                  && k !in Names(roster))
              || k in Overflow(Remaining(Retargeted(f.agents, targets), source, Names(roster), now))
  {
  }

  /** An agent that stays and is named: the line's own data, done by its status, dated when it became so. */
  lemma NamedAgent(f: Roster, source: Source, roster: seq<Agent>, targets: seq<Target>, now: U32, hash: Hash,
                   k: string, a: Agent)
    requires k in f.agents && k !in SentAway(f, source, roster, targets, now) && a in Lines(roster) && a.id == k
    ensures var l, g := f.agents[k], Applied(f, source, roster, targets, now, hash).roster.agents;
            && k in g && g[k].id == l.id && g[k].source == l.source && g[k].agent == a && !g[k].left
            && (g[k].done <==> IsFinished(a.status))
            && g[k].doneAt == (if IsFinished(a.status) && !l.done then now else l.doneAt)
            && KeepsNode(targets, k, l.target, g[k].target)
  {
    NewTargetIsLast(targets, k, f.agents[k].target);
    AppliedShape(f, source, roster, targets, now, hash, k);
    LinesOf(roster);
    assert k in LineIds(Lines(roster));
    RetargetedGone(f.agents, targets, source, Names(roster));
  }

  lemma StayingUnnamed(f: Roster, source: Source, roster: seq<Agent>, targets: seq<Target>, now: U32, k: string)
    requires k in f.agents && k !in SentAway(f, source, roster, targets, now) && k !in Names(roster)
    ensures var l, staying := f.agents[k], Staying(f, source, roster, targets, now);
            && k in staying && staying[k].target == NewTarget(targets, k, l.target)
            && (l.source == source && !l.left ==>
                  staying[k] == l.(left := true, done := true, doneAt := now, target := staying[k].target))
            && (l.source != source || l.left ==> staying[k] == l.(target := staying[k].target))
  {
    RetargetedGone(f.agents, targets, source, Names(roster));
  }

  lemma UnnamedStays(f: Roster, source: Source, roster: seq<Agent>, targets: seq<Target>, now: U32, hash: Hash,
                     k: string)
    requires k in Staying(f, source, roster, targets, now) && k !in Names(roster)
    ensures var g := Applied(f, source, roster, targets, now, hash).roster.agents;
            k in g && g[k] == Staying(f, source, roster, targets, now)[k]
  {
    AppliedShape(f, source, roster, targets, now, hash, k);
  }

  /** An agent that stays and is not named: if it was its producer's to name, it has left and is done, from now on. */
  lemma UnnamedAgent(f: Roster, source: Source, roster: seq<Agent>, targets: seq<Target>, now: U32, hash: Hash,
                     k: string)
    requires k in f.agents && k !in SentAway(f, source, roster, targets, now) && k !in Names(roster)
    ensures var l, g := f.agents[k], Applied(f, source, roster, targets, now, hash).roster.agents;
            && k in g && KeepsNode(targets, k, l.target, g[k].target)
            && (l.source == source && !l.left ==>
                  g[k] == l.(left := true, done := true, doneAt := now, target := g[k].target))
            && (l.source != source || l.left ==> g[k] == l.(target := g[k].target))
  {
    NewTargetIsLast(targets, k, f.agents[k].target);
    StayingUnnamed(f, source, roster, targets, now, k);
    UnnamedStays(f, source, roster, targets, now, hash, k);
  }

  /** A name the roster brings: a new agent of this producer, done or not by its status, dated now. */
  lemma NewAgent(f: Roster, source: Source, roster: seq<Agent>, targets: seq<Target>, now: U32, hash: Hash,
                 k: string, a: Agent)
    requires k !in f.agents || k in SentAway(f, source, roster, targets, now)
    requires a in Lines(roster) && a.id == k
    ensures var g := Applied(f, source, roster, targets, now, hash).roster.agents;
            && k in g && GetsNode(targets, k, g[k].target)
            && g[k] == Live(g[k].id, source, a, IsFinished(a.status), now, false, g[k].target)
  {
    TargetForIsFirst(targets, k);
    AppliedShape(f, source, roster, targets, now, hash, k);
    LinesOf(roster);
    assert k in LineIds(Lines(roster));
    RetargetedGone(f.agents, targets, source, Names(roster));
    assert k !in Staying(f, source, roster, targets, now);
  }

  /** Nobody else is there. */
  lemma NobodyElse(f: Roster, source: Source, roster: seq<Agent>, targets: seq<Target>, now: U32, hash: Hash, k: string)
    requires k !in f.agents || k in SentAway(f, source, roster, targets, now)
    requires k !in Names(roster)
    ensures k !in Applied(f, source, roster, targets, now, hash).roster.agents
  {
    AppliedShape(f, source, roster, targets, now, hash, k);
    RetargetedGone(f.agents, targets, source, Names(roster));
  }

  // ----- a joined action ----------------------------------------------------------------------

  /**
   A hub action of a roster task goes out under the agent's own wire id with its own target; a target other
   than none becomes the agent's work node, and nothing else about anybody changes.
   */
  lemma JoinedAgent(f: Roster, k: string, target: nat, at: U32)
    requires k in f.agents
    ensures var out := Joined(f, Some(k), target, at);
            && |out.frames| == 1 && out.frames[0].ActionFrame?
            && out.frames[0].wire == AGENT_FLAG + f.agents[k].id && out.frames[0].target == target
            && k in out.roster.agents
            && out.roster.agents[k] == f.agents[k].(target := if target == 0 then f.agents[k].target else target)
            && (forall j :: j != k ==> (j in out.roster.agents <==> j in f.agents))
            && (forall j :: j != k && j in f.agents ==> out.roster.agents[j] == f.agents[j])
            && out.roster.byId == f.byId && out.roster.sinceKeepalive == f.sinceKeepalive
  {
  }

  /** So the next keep-alive names the node the action was about. */
  lemma JoinedNodeIsAnnounced(f: Roster, k: string, target: nat, at: U32, now: U32, hash: Hash)
    requires k in f.agents && f.agents[k].agent.id == k && target != 0
    ensures var frames := Do(Joined(f, Some(k), target, at).roster, KeepAlive(k), now, hash).frames;
            |frames| == 1 && frames[0].wire == AGENT_FLAG + f.agents[k].id && frames[0].target == target
  {
    KeepAliveSays(Joined(f, Some(k), target, at).roster, k, now, hash);
  }

  // ----- when a keep-alive is due -------------------------------------------------------------

  /** Below five seconds since the last one nothing is sent and the time is counted; then the count starts over. */
  lemma TickCounts(f: Roster, dt: nat, now: U32, hash: Hash)
    ensures f.sinceKeepalive + dt < 5_000 ==>
              Ticked(f, dt, now, hash) == Out(f.(sinceKeepalive := f.sinceKeepalive + dt), [])
    ensures f.sinceKeepalive + dt >= 5_000 ==> Ticked(f, dt, now, hash).roster.sinceKeepalive == 0
  {
    KeepAlivesCount(f.(sinceKeepalive := 0), KeepAlives(Sorted(f.agents.Keys)), now, hash);
  }

  lemma {:induction false} KeepAlivesCount(f: Roster, ops: seq<Op>, now: U32, hash: Hash)
    ensures DoAll(f, ops, now, hash).roster.sinceKeepalive == f.sinceKeepalive
  {
    if ops != [] {
      KeepAlivesCount(f, ops[..|ops| - 1], now, hash);
    }
  }

  /** The time that passes in some ticks. */
  function Passed(ticks: seq<Call>): nat {
    if ticks == [] then 0
    else Passed(ticks[..|ticks| - 1]) + if ticks[|ticks| - 1].Tick? then ticks[|ticks| - 1].dt else 0
  }

  lemma {:induction false} QuietTicks(f: Roster, ticks: seq<Call>, hash: Hash)
    requires forall c :: c in ticks ==> c.Tick?
    requires f.sinceKeepalive + Passed(ticks) < 5_000
    ensures Later(f, ticks, hash) == f.(sinceKeepalive := f.sinceKeepalive + Passed(ticks))
  {
    if ticks != [] {
      var n := |ticks| - 1;
      assert ticks[n] in ticks;
      QuietTicks(f, ticks[..n], hash);
      TickCounts(Later(f, ticks[..n], hash), ticks[n].dt, ticks[n].now, hash);
    }
  }

  /**
   Keep-alives come when they are due: ticks are silent until five seconds have passed since the last
   keep-alive, and the very tick in which they have describes every live agent, once each, in key order.
   */
  lemma KeepAliveIsDue(f: Roster, ticks: seq<Call>, last: Call, hash: Hash)
    requires Valid(f) && last.Tick? && forall c :: c in ticks ==> c.Tick?
    requires f.sinceKeepalive + Passed(ticks) < 5_000
    ensures var g := Later(f, ticks, hash);
            var frames := Called(g, last, hash).frames;
            && (f.sinceKeepalive + Passed(ticks) + last.dt < 5_000 ==> frames == [])
            && (f.sinceKeepalive + Passed(ticks) + last.dt >= 5_000 ==>
                  Elements(Sorted(f.agents.Keys)) == f.agents.Keys && SaysAll(frames, f.agents, Sorted(f.agents.Keys)))
  {
    QuietTicks(f, ticks, hash);
    var g := Later(f, ticks, hash);
    var v := HasView(f);
    CountedFollows(v, f, g.sinceKeepalive);
    TickCounts(g, last.dt, last.now, hash);
    if g.sinceKeepalive + last.dt >= 5_000 {
      TickDescribesAll(g, last.dt, last.now, hash);
    }
  }
}
