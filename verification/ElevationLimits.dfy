/**
 Where the safety of elevation stops. Opening a case is an upsert that puts it back to `pending`; `seen`
 lives in memory only and is filled in after the case is published; what the boot reads back includes cases
 opened since; and a future that expires or refuses a case writes its end unconditionally. Each lemma here
 leads from any state whatever with such a future or question about a case to a second pull request, or to
 a tracked pull request that is expired
 (src/actors/decision_elevation_actor.rs:398-479, 583-719, src/adapters/sqlite_enrichment_repository.rs:401-432).
 */
module ElevationLimits {
  import opened Basics
  import opened DecisionElevation
  import opened ElevationCases

  ghost predicate IsPath(states: seq<State>, actions: seq<Action>) {
    && |states| == |actions| + 1
    && forall i :: 0 <= i < |actions| ==> IsStep(states[i], actions[i], states[i + 1])
  }

  ghost predicate Opens(actions: seq<Action>) {
    exists i :: 0 <= i < |actions| && actions[i].Trigger?
  }

  /** `s'` can follow `s` without another trigger. */
  ghost predicate Leads(s: State, s': State) {
    exists states, actions ::
      IsPath(states, actions) && states[0] == s && states[|actions|] == s' && !Opens(actions)
  }

  lemma StepLeads(s: State, a: Action)
    requires Enabled(s, a) && !a.Trigger?
    ensures Leads(s, Step(s, a))
  {
    assert IsPath([s, Step(s, a)], [a]) && !Opens([a]);
  }

  lemma JoinPaths(states: seq<State>, actions: seq<Action>, states': seq<State>, actions': seq<Action>)
    requires IsPath(states, actions) && IsPath(states', actions') && states[|actions|] == states'[0]
    ensures IsPath(states + states'[1..], actions + actions')
    ensures (states + states'[1..])[|actions + actions'|] == states'[|actions'|]
  {
    var all, done := states + states'[1..], actions + actions';
    forall i | 0 <= i < |done| ensures IsStep(all[i], done[i], all[i + 1]) {
      if i < |actions| {
        assert IsStep(states[i], actions[i], states[i + 1]);
      } else {
        var j := i - |actions|;
        assert IsStep(states'[j], actions'[j], states'[j + 1]);
      }
    }
  }

  lemma LeadsOn(s: State, mid: State, s': State)
    requires Leads(s, mid) && Leads(mid, s')
    ensures Leads(s, s')
  {
    var states, actions :|
      IsPath(states, actions) && states[0] == s && states[|actions|] == mid && !Opens(actions);
    var states', actions' :|
      IsPath(states', actions') && states'[0] == mid && states'[|actions'|] == s' && !Opens(actions');
    JoinPaths(states, actions, states', actions');
    NoOpening(actions, actions');
  }

  lemma NoOpening(a: seq<Action>, b: seq<Action>)
    requires !Opens(a) && !Opens(b)
    ensures !Opens(a + b)
  {
    forall i | 0 <= i < |a + b| ensures !(a + b)[i].Trigger? {
      assert i < |a| ==> !a[i].Trigger?;
      assert i >= |a| ==> !b[i - |a|].Trigger?;
    }
  }

  /** One more step at the end of a path. */
  lemma LeadsToStep(s: State, mid: State, a: Action)
    requires Leads(s, mid) && Enabled(mid, a) && !a.Trigger?
    ensures Leads(s, Step(mid, a))
  {
    StepLeads(mid, a);
    LeadsOn(s, mid, Step(mid, a));
  }

  // ----- ways to a pull request ---------------------------------------------------------------

  /** A future resumed on an approved case proposes it and ends. */
  lemma ClaimCanBeProposed(s: State, t: TaskId) returns (s': State)
    requires t in s.tasks && s.tasks[t].Claim?
    requires At(s.store, s.tasks[t].c, Approved)
    ensures Leads(s, s')
    ensures s'.store.attempts[s.tasks[t].c] == s.store.attempts[s.tasks[t].c] + 1
    ensures s'.tasks == s.tasks - {t} && s'.boot == s.boot && At(s'.store, s.tasks[t].c, Applying)
    ensures s'.store.events == s.store.events
  {
    var s1 := Step(s, DoClaim(t));
    StepLeads(s, DoClaim(t));
    s' := Step(s1, DoCreatePr(t, None));
    LeadsToStep(s, s1, DoCreatePr(t, None));
  }

  /** An open question answered: the decision is committed and its future resumed. */
  lemma Answered(s: State, t: TaskId, c: CaseId, answer: Answer) returns (s': State)
    requires c in s.pending && c in s.store.rows && t !in s.tasks && StatusFor(answer) == Approved
    ensures Leads(s, s')
    ensures s'.tasks == if answer == Approve then s.tasks[t := Claim(c, s.pending[c])] else s.tasks
    ensures s'.store.rows == s.store.rows[c := s.store.rows[c].(status := Approved)]
    ensures s'.store.attempts == s.store.attempts && s'.pending == s.pending - {c}
    ensures s'.boot == s.boot && s'.elevating == s.elevating && s'.store.events == s.store.events
    ensures s'.store.proposed == s.store.proposed
  {
    var s1 := Step(s, Decide(t, c, answer, None));
    StepLeads(s, Decide(t, c, answer, None));
    s' := Step(s1, DoRecord(t));
    LeadsToStep(s, s1, DoRecord(t));
  }

  lemma PendingCanBeProposed(s: State, t: TaskId, c: CaseId) returns (s': State)
    requires c in s.pending && c in s.store.rows && t !in s.tasks
    ensures Leads(s, s')
    ensures s'.store.attempts[c] == s.store.attempts[c] + 1
    ensures s'.tasks == s.tasks && At(s'.store, c, Applying) && s'.boot == s.boot && s'.store.events == s.store.events
  {
    var s1 := Answered(s, t, c, Approve);
    s' := ClaimCanBeProposed(s1, t);
    LeadsOn(s, s1, s');
  }

  /** A future about to publish its case can get it proposed. */
  lemma PublishedCanBeProposed(s: State, t: TaskId) returns (s': State)
    requires t in s.tasks && s.tasks[t].Publish? && s.tasks[t].c in s.store.rows
    ensures Leads(s, s')
    ensures s'.store.attempts[s.tasks[t].c] == s.store.attempts[s.tasks[t].c] + 1
    ensures s'.tasks == s.tasks - {t} && At(s'.store, s.tasks[t].c, Applying) && s'.store.events == s.store.events
  {
    var s1 := Step(s, DoPublish(t, true));
    StepLeads(s, DoPublish(t, true));
    s' := PendingCanBeProposed(s1, t, s.tasks[t].c);
    LeadsOn(s, s1, s');
  }

  /** A future about to write its row can always get its case proposed, whatever happened to the case before. */
  lemma OpeningCanBeProposed(s: State, t: TaskId) returns (s': State)
    requires t in s.tasks && s.tasks[t].WriteRow?
    ensures Leads(s, s')
    ensures s'.store.attempts[s.tasks[t].c] == s.store.attempts[s.tasks[t].c] + 1
    ensures s'.tasks == s.tasks - {t} && At(s'.store, s.tasks[t].c, Applying) && s'.store.events == s.store.events
  {
    var s1 := Step(s, DoWriteRow(t));
    StepLeads(s, DoWriteRow(t));
    s' := PublishedCanBeProposed(s1, t);
    LeadsOn(s, s1, s');
  }

  // ----- opened again -------------------------------------------------------------------------

  /**
   From every state in which a trigger on `c` is accepted, the case can be proposed once more, however
   often it was proposed before.
   */
  lemma ReopenedIsProposedAgain(s: State, a: Action) returns (s': State)
    requires Enabled(s, a) && a.Trigger?
    ensures Leads(Step(s, a), s') && s'.store.attempts[a.c] == s.store.attempts[a.c] + 1
  {
    s' := OpeningCanBeProposed(Step(s, a), a.t);
  }

  /** A row that says `applying` leaves it open: the same durable row with and without a pull request. */
  lemma ApplyingIsInDoubt(s: State, t: TaskId) returns (before: State, after: State)
    requires t in s.tasks && s.tasks[t].Claim? && At(s.store, s.tasks[t].c, Approved)
    ensures Leads(s, before) && Leads(s, after) && before.store.rows == after.store.rows
    ensures At(before.store, s.tasks[t].c, Applying) && before.tasks == after.tasks == map[]
    ensures before.store.attempts[s.tasks[t].c] == s.store.attempts[s.tasks[t].c]
    ensures after.store.attempts[s.tasks[t].c] == s.store.attempts[s.tasks[t].c] + 1
  {
    var s1 := Step(s, DoClaim(t));
    StepLeads(s, DoClaim(t));
    before := Step(s1, Crash);
    LeadsToStep(s, s1, Crash);
    var s2 := Step(s1, DoCreatePr(t, None));
    LeadsToStep(s, s1, DoCreatePr(t, None));
    after := Step(s2, Crash);
    LeadsToStep(s, s2, Crash);
  }

  // ----- opened while not idle ----------------------------------------------------------------

  /** Opened twice at once: the second trigger passes because `seen` is not yet filled in. */
  lemma ConcurrentOpeningsRepeat(s: State, a: Action, u: TaskId) returns (s': State)
    requires Enabled(s, a) && a.Trigger? && u !in s.tasks && u != a.t
    ensures var b := Trigger(u, a.c, a.urn, a.draft, a.at);
            && Enabled(Step(s, a), b) && Leads(Step(Step(s, a), b), s')
            && s'.store.attempts[a.c] == s.store.attempts[a.c] + 2
  {
    var s2 := Step(Step(s, a), Trigger(u, a.c, a.urn, a.draft, a.at));
    var s3 := OpeningCanBeProposed(s2, a.t);
    s' := OpeningCanBeProposed(s3, u);
    LeadsOn(s2, s3, s');
  }

  /** Opened while its question is open: the question can be answered, and then the new one. */
  lemma OpenQuestionRepeats(s: State, a: Action, u: TaskId) returns (s': State)
    requires Enabled(s, a) && a.Trigger? && a.c in s.pending && a.c in s.store.rows && u !in s.tasks && u != a.t
    ensures Leads(Step(s, a), s') && s'.store.attempts[a.c] == s.store.attempts[a.c] + 2
  {
    var s1 := Step(s, a);
    var s2 := PendingCanBeProposed(s1, u, a.c);
    s' := OpeningCanBeProposed(s2, a.t);
    LeadsOn(s1, s2, s');
  }

  // ----- opened before the boot has read ------------------------------------------------------

  lemma {:induction false} AskedAgain(s: State, plan: seq<ReconcileAction>, t: TaskId, k: Case)
    requires ResumePending(k) in plan
    ensures k.id in ReconciledAll(s, plan, t).pending
  {
    var n := |plan| - 1;
    if plan[n] != ResumePending(k) {
      assert plan == plan[..n] + [plan[n]];
      AskedAgain(s, plan[..n], t, k);
    }
  }

  /** Reconciliation keeps the futures there are. */
  lemma {:induction false} KeepsFutures(s: State, plan: seq<ReconcileAction>, t: TaskId, u: TaskId)
    requires u in s.tasks && u < t
    ensures u in ReconciledAll(s, plan, t).tasks && ReconciledAll(s, plan, t).tasks[u] == s.tasks[u]
    ensures ReconciledAll(s, plan, t).store == s.store
  {
    if plan != [] {
      KeepsFutures(s, plan[..|plan| - 1], t, u);
    }
  }

  /** A task id beyond all those in use. */
  lemma {:induction false} FreeTask(tasks: map<TaskId, Task>, t: TaskId) returns (u: TaskId)
    ensures t < u && forall x :: x in tasks ==> x < u
    decreases |tasks|
  {
    if tasks == map[] {
      u := t + 1;
    } else {
      var x :| x in tasks;
      u := FreeTask(tasks - {x}, if x <= t then t else x);
      forall y | y in tasks ensures y < u {
        assert y == x || y in tasks - {x};
      }
    }
  }

  /** Read back as an open question while a future has still to publish it: the case is asked about twice. */
  lemma ReadBackRepeats(s: State, t: TaskId, k: Case, now: int) returns (s': State)
    requires s.boot.Reading? && k in s.boot.snapshot && k.row.status == Pending && !Stale(k.row, now)
    requires t in s.tasks && s.tasks[t].Publish? && s.tasks[t].c == k.id && k.id in s.store.rows
    ensures Leads(s, s') && s'.store.attempts[k.id] == s.store.attempts[k.id] + 2
  {
    var s1, r, u := TakenUpAt(s, k, now, t);
    s' := AskedTwice(s1, t);
    LeadsOn(s, s1, s');
  }

  lemma AskedTwice(s: State, t: TaskId) returns (s': State)
    requires t in s.tasks && s.tasks[t].Publish? && s.tasks[t].c in s.pending && s.tasks[t].c in s.store.rows
    ensures Leads(s, s') && s'.store.attempts[s.tasks[t].c] == s.store.attempts[s.tasks[t].c] + 2
  {
    var u := FreeTask(s.tasks, t);
    var s1 := PendingCanBeProposed(s, u, s.tasks[t].c);
    s' := PublishedCanBeProposed(s1, t);
    LeadsOn(s, s1, s');
  }

  /**
   Opened before the boot has read: the new row is read back as an open question of the last session, so
   the case is asked about twice, although it was opened once.
   */
  lemma EarlyOpeningRepeats(s: State, a: Action) returns (s': State)
    requires s.boot == Waiting && Enabled(s, a) && a.Trigger?
    ensures Leads(Step(s, a), s') && s'.store.attempts[a.c] == s.store.attempts[a.c] + 2
  {
    var s1 := Step(s, a);
    var s2 := Step(s1, DoWriteRow(a.t));
    StepLeads(s1, DoWriteRow(a.t));
    var k := Case(a.c, s2.store.rows[a.c]);
    var s3 := Step(s2, Read([k]));
    LeadsToStep(s1, s2, Read([k]));
    s' := ReadBackRepeats(s3, a.t, k, a.at);
    LeadsOn(s1, s3, s');
  }

  // ----- an approval in other words -----------------------------------------------------------

  /**
   An answer that means approval without being the literal `approve` is durably an approval: the next
   boot proposes the case.
   */
  lemma SynonymIsProposedAtReboot(s: State, t: TaskId, c: CaseId, now: int) returns (later: State, s': State)
    requires c in s.pending && c in s.store.rows && t !in s.tasks && !Stale(s.store.rows[c], now)
    ensures Leads(s, later) && later.tasks == s.tasks && c !in later.pending && later.store.attempts == s.store.attempts
    ensures Leads(later, s') && s'.store.attempts[c] == s.store.attempts[c] + 1
  {
    later := Answered(s, t, c, ApproveSynonym);
    s' := ApprovedAtReboot(later, c, now);
  }

  lemma ApprovedAtReboot(s: State, c: CaseId, now: int) returns (s': State)
    requires At(s.store, c, Approved) && !Stale(s.store.rows[c], now)
    ensures Leads(s, s') && s'.store.attempts[c] == s.store.attempts[c] + 1
  {
    var s1 := Step(s, Crash);
    StepLeads(s, Crash);
    var k := Case(c, s.store.rows[c]);
    var s2 := ReadBack(s1, k, 0, now, ResumePr(k));
    LeadsOn(s, s1, s2);
    s' := ClaimCanBeProposed(s2, 0);
    LeadsOn(s, s2, s');
  }

  /** A boot that reads one open case back and applies what is planned for it. */
  lemma ReadBack(s: State, k: Case, t: TaskId, now: int, a: ReconcileAction) returns (s': State)
    requires s.boot == Waiting && SnapshotOf(s.store, [k]) && forall u :: u in s.tasks ==> u < t
    requires PlanOne(k, now) == Some(a)
    ensures Leads(s, s') && s' == Reconciled(s.(boot := Done), a, t)
  {
    var s1 := Step(s, Read([k]));
    StepLeads(s, Read([k]));
    s' := Step(s1, Apply(t, now));
    LeadsToStep(s, s1, Apply(t, now));
    PlanOfOne(s1.(boot := Done), k, t, now, a);
  }

  lemma PlanOfOne(s: State, k: Case, t: TaskId, now: int, a: ReconcileAction)
    requires PlanOne(k, now) == Some(a)
    ensures ReconciledAll(s, PlanReconciliation([k], now), t) == Reconciled(s, a, t)
  {
    assert [k][..0] == [] && PlanReconciliation([k][..0], now) == [];
    assert PlanReconciliation([k], now) == [a];
    assert [a][..0] == [] && ReconciledAll(s, [a][..0], t) == s;
  }

  // ----- a tracked pull request, expired ------------------------------------------------------

  /** Case `c` tracks the pull request `url`, durably and in memory, and its row has this status. */
  predicate TrackedAt(s: State, c: CaseId, status: Status, url: string) {
    At(s.store, c, status) && s.store.rows[c].pr == Some(url) && c in s.elevating
  }

  /** A future about to publish its case can get it proposed and tracked. */
  lemma PublishedCanBeTracked(s: State, t: TaskId, url: string) returns (s': State)
    requires t in s.tasks && s.tasks[t].Publish? && s.tasks[t].c in s.store.rows
    ensures Leads(s, s') && s'.tasks == s.tasks - {t} && TrackedAt(s', s.tasks[t].c, Elevating, url)
    ensures s'.store.attempts[s.tasks[t].c] == s.store.attempts[s.tasks[t].c] + 1
  {
    var s1 := Step(s, DoPublish(t, true));
    StepLeads(s, DoPublish(t, true));
    var s2 := Answered(s1, t, s.tasks[t].c, Approve);
    LeadsOn(s, s1, s2);
    s' := ClaimCanBeTracked(s2, t, url);
    LeadsOn(s, s2, s');
  }

  lemma ClaimCanBeTracked(s: State, t: TaskId, url: string) returns (s': State)
    requires t in s.tasks && s.tasks[t].Claim? && At(s.store, s.tasks[t].c, Approved)
    ensures Leads(s, s') && s'.tasks == s.tasks - {t} && TrackedAt(s', s.tasks[t].c, Elevating, url)
    ensures s'.store.attempts[s.tasks[t].c] == s.store.attempts[s.tasks[t].c] + 1
  {
    var s1 := Step(s, DoClaim(t));
    StepLeads(s, DoClaim(t));
    var s2 := Step(s1, DoCreatePr(t, Some(url)));
    LeadsToStep(s, s1, DoCreatePr(t, Some(url)));
    s' := StampedCanBeTracked(s2, t);
    LeadsOn(s, s2, s');
  }

  lemma StampedCanBeTracked(s: State, t: TaskId) returns (s': State)
    requires t in s.tasks && s.tasks[t].Stamp? && s.tasks[t].c in s.store.rows
    ensures Leads(s, s') && s'.tasks == s.tasks - {t} && TrackedAt(s', s.tasks[t].c, Elevating, s.tasks[t].url)
    ensures s'.store.attempts == s.store.attempts
  {
    var s1 := Step(s, DoStamp(t, true));
    StepLeads(s, DoStamp(t, true));
    s' := Step(s1, DoWriteStamp(t, true));
    LeadsToStep(s, s1, DoWriteStamp(t, true));
  }

  /** Published while a future is expiring it: the case is proposed and tracked, and then expired all the same. */
  lemma TrackedThenExpired(s: State, t: TaskId, u: TaskId, url: string) returns (mid: State, s': State)
    requires t in s.tasks && s.tasks[t].Publish? && s.tasks[t].c in s.store.rows
    requires u in s.tasks && s.tasks[u] == Expiring(s.tasks[t].c)
    ensures Leads(s, mid) && TrackedAt(mid, s.tasks[t].c, Elevating, url)
    ensures Leads(mid, s') && TrackedAt(s', s.tasks[t].c, Expired, url)
    ensures s'.store.attempts[s.tasks[t].c] == s.store.attempts[s.tasks[t].c] + 1
  {
    mid := PublishedCanBeTracked(s, t, url);
    s' := Step(mid, DoExpire(u));
    StepLeads(mid, DoExpire(u));
  }

  /**
   A case is never expired while it tracks a pull request, says the policy; opened while its expiry is under
   way, it is.
   */
  lemma OpenedWhileExpiring(s: State, a: Action, u: TaskId, url: string) returns (mid: State, s': State)
    requires Enabled(s, a) && a.Trigger? && u in s.tasks && s.tasks[u] == Expiring(a.c)
    ensures Leads(Step(s, a), mid) && TrackedAt(mid, a.c, Elevating, url)
    ensures Leads(mid, s') && TrackedAt(s', a.c, Expired, url) && s'.store.attempts[a.c] == s.store.attempts[a.c] + 1
  {
    var s1 := Step(s, a);
    var s2 := Step(s1, DoWriteRow(a.t));
    StepLeads(s1, DoWriteRow(a.t));
    mid, s' := TrackedThenExpired(s2, a.t, u, url);
    LeadsOn(s1, s2, mid);
  }

  /** So it is when it is opened before the boot has read. */
  lemma OpenedBeforeRead(s: State, a: Action, url: string) returns (mid: State, s': State)
    requires Enabled(s, a) && a.Trigger? && s.boot == Waiting
    ensures Leads(Step(s, a), mid) && TrackedAt(mid, a.c, Elevating, url)
    ensures Leads(mid, s') && TrackedAt(s', a.c, Expired, url) && s'.store.attempts[a.c] == s.store.attempts[a.c] + 1
  {
    var s1 := Step(s, a);
    var s2 := Step(s1, DoWriteRow(a.t));
    StepLeads(s1, DoWriteRow(a.t));
    var k := Case(a.c, s2.store.rows[a.c]);
    var u := FreeTask(s2.tasks, a.t);
    var s3 := ReadBack(s2, k, u, a.at + OPEN_CASE_TTL + 1, Expire(k));
    LeadsOn(s1, s2, s3);
    mid, s' := TrackedThenExpired(s3, a.t, u, url);
    LeadsOn(s1, s3, mid);
  }

  /** And so it is when it is opened after it was read and before it is dealt with. */
  lemma OpenedWhileCarried(s: State, a: Action, k: Case, url: string) returns (mid: State, s': State)
    requires Enabled(s, a) && a.Trigger? && s.boot.Reading? && k in s.boot.snapshot && Waits(k, a.c)
    ensures Leads(Step(s, a), mid) && TrackedAt(mid, a.c, Elevating, url)
    ensures Leads(mid, s') && TrackedAt(s', a.c, Expired, url) && s'.store.attempts[a.c] == s.store.attempts[a.c] + 1
  {
    var s1 := Step(s, a);
    var s2 := Step(s1, DoWriteRow(a.t));
    StepLeads(s1, DoWriteRow(a.t));
    var s3, r, u := TakenUpAt(s2, k, k.row.openedAt + OPEN_CASE_TTL + 1, a.t);
    LeadsOn(s1, s2, s3);
    mid, s' := TrackedThenExpired(s3, a.t, u, url);
    LeadsOn(s1, s3, mid);
  }

  /** The boot deals with a case it read, at this time: it is asked about, or a future takes it up. */
  lemma TakenUpAt(s: State, k: Case, now: int, t: TaskId) returns (s': State, r: ReconcileAction, u: TaskId)
    requires s.boot.Reading? && k in s.boot.snapshot && Waits(k, k.id) && t in s.tasks
    ensures Leads(s, s') && s'.store == s.store && t in s'.tasks && s'.tasks[t] == s.tasks[t] && t != u
    ensures r == if Stale(k.row, now) then Expire(k)
                 else if k.row.status == Approved then ResumePr(k)
                 else ResumePending(k)
    ensures if GetsFuture(r) then u in s'.tasks && s'.tasks[u] == TaskOf(r) else k.id in s'.pending
  {
    var v := FreeTask(s.tasks, t);
    var plan := PlanReconciliation(s.boot.snapshot, now);
    PlanIsComplete(s.boot.snapshot, now, k);
    r :| r in plan && r.case_ == k;
    PlanIsSafe(s.boot.snapshot, now, r);
    s' := Step(s, Apply(v, now));
    StepLeads(s, Apply(v, now));
    KeepsFutures(s.(boot := Done), plan, v, t);
    if GetsFuture(r) {
      u := HandedOn(s.(boot := Done), plan, v, r);
    } else {
      AskedAgain(s.(boot := Done), plan, v, k);
      u := v;
    }
  }

  lemma {:induction false} HandedOn(s: State, plan: seq<ReconcileAction>, t: TaskId, r: ReconcileAction)
    returns (u: TaskId)
    requires r in plan && GetsFuture(r)
    ensures t <= u < t + |plan| && u in ReconciledAll(s, plan, t).tasks
    ensures ReconciledAll(s, plan, t).tasks[u] == TaskOf(r)
  {
    var n := |plan| - 1;
    if plan[n] == r {
      u := t + n;
    } else {
      assert plan == plan[..n] + [plan[n]];
      u := HandedOn(s, plan[..n], t, r);
    }
  }
}
