/**
 Decision elevation, whatever happens: in every run each corpus pull request is backed by its own
 committed approval (src/actors/decision_elevation_actor.rs:284-393, 398-479, 583-748, 824-851).
 */
module ElevationBacking {
  import opened Basics
  import opened DecisionElevation

  predicate IsCreating(k: Task, c: CaseId) {
    k.CreatePr? && k.c == c
  }

  /** Futures that hold a claim on `c` and are about to propose it. */
  function Creating(tasks: map<TaskId, Task>, c: CaseId): set<TaskId> {
    set t | t in tasks && IsCreating(tasks[t], c)
  }

  function ApprovedBit(st: Store, c: CaseId): nat {
    if c in st.rows && st.rows[c].status == Approved then 1 else 0
  }

  /** Claims and the unclaimed approval fit the approvals of a case, attempts fit its claims. */
  ghost predicate BackedCase(s: State, c: CaseId) {
    && s.store.claims[c] + ApprovedBit(s.store, c) <= s.store.approvals[c]
    && s.store.attempts[c] + |Creating(s.tasks, c)| <= s.store.claims[c]
  }

  lemma CreatingGoto(tasks: map<TaskId, Task>, t: TaskId, k: Task, c: CaseId)
    ensures |Creating(tasks[t := k], c)| <= |Creating(tasks, c)| + (if IsCreating(k, c) then 1 else 0)
    ensures t in tasks && IsCreating(tasks[t], c) && !IsCreating(k, c) ==>
            |Creating(tasks[t := k], c)| + 1 <= |Creating(tasks, c)|
  {
    var was, now := Creating(tasks, c), Creating(tasks[t := k], c);
    if IsCreating(k, c) {
      SubsetSize(now, was + {t});
    } else {
      SubsetSize(now, was - {t});
      SubsetSize(was - {t}, was);
    }
  }

  lemma CreatingFinish(tasks: map<TaskId, Task>, t: TaskId, c: CaseId)
    ensures |Creating(tasks - {t}, c)| <= |Creating(tasks, c)|
    ensures t in tasks && IsCreating(tasks[t], c) ==> |Creating(tasks - {t}, c)| + 1 <= |Creating(tasks, c)|
  {
    var was, now := Creating(tasks, c), Creating(tasks - {t}, c);
    SubsetSize(now, was - {t});
    SubsetSize(was - {t}, was);
  }

  lemma {:induction false} ReconciledAllQuiet(s: State, plan: seq<ReconcileAction>, t: TaskId, c: CaseId)
    ensures ReconciledAll(s, plan, t).store == s.store
    ensures |Creating(ReconciledAll(s, plan, t).tasks, c)| <= |Creating(s.tasks, c)|
  {
    if plan != [] {
      var front := plan[..|plan| - 1];
      ReconciledAllQuiet(s, front, t, c);
      var mid := ReconciledAll(s, front, t);
      var a := plan[|plan| - 1];
      CreatingGoto(mid.tasks, t + |plan| - 1, Claim(a.case_.id, a.case_.row.draft), c);
      CreatingGoto(mid.tasks, t + |plan| - 1, Expiring(a.case_.id), c);
    }
  }

  /** Future `t` moved on or ended; no other future changed. */
  ghost predicate Moves(tasks: map<TaskId, Task>, t: TaskId, tasks': map<TaskId, Task>) {
    if t in tasks' then tasks' == tasks[t := tasks'[t]] else tasks' == tasks - {t}
  }

  predicate CreatesAt(tasks: map<TaskId, Task>, t: TaskId, c: CaseId) {
    t in tasks && IsCreating(tasks[t], c)
  }

  lemma CreatingMoves(tasks: map<TaskId, Task>, t: TaskId, tasks': map<TaskId, Task>, c: CaseId)
    requires Moves(tasks, t, tasks')
    ensures |Creating(tasks', c)| + (if CreatesAt(tasks, t, c) && !CreatesAt(tasks', t, c) then 1 else 0)
         <= |Creating(tasks, c)| + (if CreatesAt(tasks', t, c) then 1 else 0)
  {
    if t in tasks' {
      CreatingGoto(tasks, t, tasks'[t], c);
    } else {
      CreatingFinish(tasks, t, c);
    }
  }

  predicate OfTask(a: Action) {
    !a.Read? && !a.ReadFailed? && !a.Apply? && !a.Crash?
  }

  lemma TaskMoves(s: State, a: Action, s': State)
    requires IsStep(s, a, s') && OfTask(a)
    ensures Moves(s.tasks, a.t, s'.tasks)
  {
  }

  /** Attempting is what a future that creates does, and it does so once. */
  lemma AttemptStep(s: State, a: Action, s': State, c: CaseId)
    requires IsStep(s, a, s') && OfTask(a)
    ensures s'.store.attempts[c] == s.store.attempts[c] + (if a.DoCreatePr? && CreatesAt(s.tasks, a.t, c) then 1 else 0)
    ensures a.DoCreatePr? ==> !CreatesAt(s'.tasks, a.t, c)
  {
    if !a.DoCreatePr? {
      NoAttempt(s, a, s');
    }
  }

  lemma NoAttempt(s: State, a: Action, s': State)
    requires IsStep(s, a, s') && OfTask(a) && !a.DoCreatePr?
    ensures s'.store.attempts == s.store.attempts
  {
  }

  /** Claiming is what makes a future create. */
  lemma ClaimedStep(s: State, a: Action, s': State, c: CaseId)
    requires IsStep(s, a, s') && OfTask(a)
    ensures s'.store.claims[c] == s.store.claims[c] + (if CreatesAt(s'.tasks, a.t, c) then 1 else 0)
  {
    if a.DoRecord? {
      assert s'.store.claims == s.store.claims;
    }
  }

  /** Claims not yet used up by an attempt never fall below the futures holding one. */
  lemma CreatingStep(s: State, a: Action, s': State, c: CaseId)
    requires IsStep(s, a, s')
    ensures s'.store.attempts[c] + |Creating(s'.tasks, c)| + s.store.claims[c]
         <= s.store.attempts[c] + |Creating(s.tasks, c)| + s'.store.claims[c]
  {
    if a.Apply? {
      ReconciledAllQuiet(s.(boot := Done), PlanReconciliation(s.boot.snapshot, a.now), a.t, c);
    } else if a.Crash? {
      assert Creating(s'.tasks, c) == {};
    } else if !a.Read? && !a.ReadFailed? {
      TaskMoves(s, a, s');
      AttemptStep(s, a, s', c);
      ClaimedStep(s, a, s', c);
      CreatingMoves(s.tasks, a.t, s'.tasks, c);
    }
  }

  ghost predicate ClaimFits(s: State, s': State, c: CaseId) {
    s'.store.claims[c] + ApprovedBit(s'.store, c) + s.store.approvals[c]
      <= s.store.claims[c] + ApprovedBit(s.store, c) + s'.store.approvals[c]
  }

  lemma RecordFits(s: State, a: Action, s': State, c: CaseId)
    requires IsStep(s, a, s') && a.DoRecord?
    ensures ClaimFits(s, s', c)
  {
  }

  lemma ClaimFitsClaim(s: State, a: Action, s': State, c: CaseId)
    requires IsStep(s, a, s') && a.DoClaim?
    ensures ClaimFits(s, s', c)
  {
  }

  lemma OtherFits(s: State, a: Action, s': State, c: CaseId)
    requires IsStep(s, a, s') && !a.DoRecord? && !a.DoClaim? && !a.Apply?
    ensures ClaimFits(s, s', c)
  {
  }

  /** Only a committed approval makes room for a claim. */
  lemma ClaimStep(s: State, a: Action, s': State, c: CaseId)
    requires IsStep(s, a, s')
    ensures ClaimFits(s, s', c)
  {
    if a.Apply? {
      ReconciledAllQuiet(s.(boot := Done), PlanReconciliation(s.boot.snapshot, a.now), a.t, c);
    } else if a.DoRecord? {
      RecordFits(s, a, s', c);
    } else if a.DoClaim? {
      ClaimFitsClaim(s, a, s', c);
    } else {
      OtherFits(s, a, s', c);
    }
  }

  lemma StepKeepsBacked(s: State, a: Action, s': State, c: CaseId)
    requires IsStep(s, a, s') && BackedCase(s, c)
    ensures BackedCase(s', c)
  {
    CreatingStep(s, a, s', c);
    ClaimStep(s, a, s', c);
  }

  lemma {:induction false} RunIsBacked(states: seq<State>, actions: seq<Action>, n: nat, c: CaseId)
    requires IsRun(states, actions) && n <= |actions|
    ensures BackedCase(states[n], c)
  {
    if n == 0 {
      assert Creating(states[0].tasks, c) == {};
    } else {
      RunIsBacked(states, actions, n - 1, c);
      assert IsStep(states[n - 1], actions[n - 1], states[n - 1 + 1]);
      StepKeepsBacked(states[n - 1], actions[n - 1], states[n], c);
    }
  }

  /**
   In every run, however cases are opened and wherever it crashes: no pull request without its own
   committed approval.
   */
  lemma AttemptsNeedApprovals(states: seq<State>, actions: seq<Action>, n: nat, c: CaseId)
    requires IsRun(states, actions) && n <= |actions|
    ensures states[n].store.attempts[c] <= states[n].store.approvals[c]
  {
    RunIsBacked(states, actions, n, c);
  }
}
