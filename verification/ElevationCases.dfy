/**
 One case of decision elevation, seen across the store, the memory of the actor and its futures: what
 holds of it in every run, and what boot reconciliation does to it
 (src/actors/decision_elevation_actor.rs:284-479, 824-898).
 */
module ElevationCases {
  import opened Basics
  import opened DecisionElevation
  import opened ElevationBacking

  // ----- vocabulary ---------------------------------------------------------------------------

  predicate At(st: Store, c: CaseId, status: Status) {
    c in st.rows && st.rows[c].status == status
  }

  /** Settled by git: a pull request is tracked, merged or closed. */
  predicate InGit(st: Store, c: CaseId) {
    At(st, c, Elevating) || At(st, c, Published) || At(st, c, Abandoned)
  }

  /** Claimed, and so beyond decision and expiry. */
  predicate Applied(st: Store, c: CaseId) {
    At(st, c, Applying) || InGit(st, c)
  }

  predicate HasDraft(st: Store, c: CaseId, draft: string) {
    c in st.rows && st.rows[c].draft == draft
  }

  /** Future `k` deals with case `c`. */
  predicate On(k: Task, c: CaseId) {
    !k.Polling? && k.c == c
  }

  predicate Tracks(k: Task, c: CaseId) {
    k.Polling? && c in k.tracked
  }

  /** Nothing in memory concerns case `c`. */
  ghost predicate OutOfMind(s: State, c: CaseId) {
    && c !in s.pending && c !in s.elevating
    && forall t :: t in s.tasks ==> !On(s.tasks[t], c) && !Tracks(s.tasks[t], c)
  }

  /** Case `k` is `c`, read back as an open question or an unclaimed approval. */
  predicate Waits(k: Case, c: CaseId) {
    k.id == c && (k.row.status == Pending || k.row.status == Approved)
  }

  /** The boot has read `c` as a case to be resumed or expired, and has yet to do so. */
  ghost predicate Carried(s: State, c: CaseId) {
    s.boot.Reading? && exists k :: k in s.boot.snapshot && Waits(k, c)
  }

  // ----- what holds in every run --------------------------------------------------------------

  ghost predicate TaskGrounded(st: Store, k: Task, c: CaseId) {
    && (On(k, c) && !k.WriteRow? ==> c in st.rows)
    && (On(k, c) && (k.Stamp? || k.WriteStamp?) ==> st.attempts[c] > 0)
    && (Tracks(k, c) ==> st.attempts[c] > 0)
  }

  predicate RowGrounded(st: Store, c: CaseId) {
    && (InGit(st, c) ==> st.attempts[c] > 0)
    && (c in st.rows && st.rows[c].pr.Some? ==> st.attempts[c] > 0)
    && (At(st, c, Elevating) ==> st.rows[c].pr.Some?)
  }

  ghost predicate DistinctIds(cases: seq<Case>) {
    forall i, j :: 0 <= i < j < |cases| ==> cases[i].id != cases[j].id
  }

  predicate CaseGrounded(st: Store, k: Case) {
    && k.id in st.rows
    && (k.row.status == Elevating ==> k.row.pr.Some? && st.attempts[k.id] > 0)
  }

  /** Whatever tracks a pull request follows an attempt; whatever works on a case knows its row. */
  ghost predicate Grounded(s: State, c: CaseId) {
    && RowGrounded(s.store, c)
    && (forall t :: t in s.tasks ==> TaskGrounded(s.store, s.tasks[t], c))
    && (c in s.pending ==> c in s.store.rows)
    && (c in s.elevating ==> s.store.attempts[c] > 0)
    && (s.boot.Reading? ==> DistinctIds(s.boot.snapshot))
    && (s.boot.Reading? ==> forall k :: k in s.boot.snapshot && k.id == c ==> CaseGrounded(s.store, k))
  }

  /** The step is about case `c`. */
  predicate Concerns(s: State, a: Action, c: CaseId)
    requires OfTask(a)
  {
    ((a.Trigger? || a.Decide? || a.DoResolve?) && a.c == c) || (a.t in s.tasks && On(s.tasks[a.t], c))
  }

  ghost predicate SameRow(st: Store, st': Store, c: CaseId) {
    (c in st'.rows <==> c in st.rows) && (c in st.rows ==> st'.rows[c] == st.rows[c])
  }

  /** What is durably known of `c` is as before. */
  ghost predicate SameCase(st: Store, st': Store, c: CaseId) {
    SameRow(st, st', c) && SameCounts(st, st', c)
  }

  ghost predicate SameMemory(s: State, s': State, c: CaseId) {
    && (c in s'.pending <==> c in s.pending) && (c in s.pending ==> s'.pending[c] == s.pending[c])
    && (c in s'.elevating ==> c in s.elevating)
  }

  lemma ElsewhereRow(s: State, a: Action, s': State, c: CaseId)
    requires IsStep(s, a, s') && OfTask(a) && !Concerns(s, a, c)
    ensures SameRow(s.store, s'.store, c)
  {
  }

  ghost predicate SameCounts(st: Store, st': Store, c: CaseId) {
    && st'.attempts[c] == st.attempts[c] && st'.claims[c] == st.claims[c] && st'.approvals[c] == st.approvals[c]
    && forall draft :: (c, draft) in st'.proposed <==> (c, draft) in st.proposed
  }

  predicate Counts(a: Action) {
    a.DoRecord? || a.DoClaim? || a.DoCreatePr?
  }

  /** Only these steps count anything. */
  lemma NothingCounted(s: State, a: Action, s': State)
    requires IsStep(s, a, s') && OfTask(a) && !Counts(a)
    ensures s'.store.attempts == s.store.attempts && s'.store.claims == s.store.claims
    ensures s'.store.approvals == s.store.approvals && s'.store.proposed == s.store.proposed
  {
  }

  lemma CountedElsewhere(s: State, a: Action, s': State, c: CaseId)
    requires IsStep(s, a, s') && Counts(a) && !On(s.tasks[a.t], c)
    ensures SameCounts(s.store, s'.store, c)
  {
  }

  lemma ElsewhereCounts(s: State, a: Action, s': State, c: CaseId)
    requires IsStep(s, a, s') && OfTask(a) && !Concerns(s, a, c)
    ensures SameCounts(s.store, s'.store, c)
  {
    if Counts(a) {
      CountedElsewhere(s, a, s', c);
    } else {
      NothingCounted(s, a, s');
    }
  }

  lemma ElsewhereStore(s: State, a: Action, s': State, c: CaseId)
    requires IsStep(s, a, s') && OfTask(a) && !Concerns(s, a, c)
    ensures SameCase(s.store, s'.store, c)
  {
    ElsewhereRow(s, a, s', c);
    ElsewhereCounts(s, a, s', c);
  }

  predicate Remembers(a: Action) {
    a.DoPublish? || a.Decide? || a.DoStamp? || a.DoWriteStamp? || a.EndPoll?
  }

  /** Only these steps change what is asked about or tracked. */
  lemma NothingRemembered(s: State, a: Action, s': State)
    requires IsStep(s, a, s') && OfTask(a) && !Remembers(a)
    ensures s'.pending == s.pending && s'.elevating == s.elevating
  {
  }

  lemma RememberedElsewhere(s: State, a: Action, s': State, c: CaseId)
    requires IsStep(s, a, s') && Remembers(a) && !Concerns(s, a, c)
    ensures SameMemory(s, s', c)
  {
  }

  lemma ElsewhereMemory(s: State, a: Action, s': State, c: CaseId)
    requires IsStep(s, a, s') && OfTask(a) && !Concerns(s, a, c)
    ensures SameMemory(s, s', c)
  {
    if Remembers(a) {
      RememberedElsewhere(s, a, s', c);
    } else {
      NothingRemembered(s, a, s');
    }
  }

  lemma ElsewhereTask(s: State, a: Action, s': State, c: CaseId)
    requires IsStep(s, a, s') && OfTask(a) && !Concerns(s, a, c) && a.t in s'.tasks
    ensures !On(s'.tasks[a.t], c)
    ensures Tracks(s'.tasks[a.t], c) ==> c in s.elevating || (a.t in s.tasks && Tracks(s.tasks[a.t], c))
  {
  }

  /** A step about something else. */
  lemma Elsewhere(s: State, a: Action, s': State, c: CaseId)
    requires IsStep(s, a, s') && OfTask(a) && !Concerns(s, a, c)
    ensures SameCase(s.store, s'.store, c) && SameMemory(s, s', c)
    ensures a.t in s'.tasks ==> !On(s'.tasks[a.t], c)
    ensures a.t in s'.tasks && Tracks(s'.tasks[a.t], c) ==>
              c in s.elevating || (a.t in s.tasks && Tracks(s.tasks[a.t], c))
  {
    ElsewhereStore(s, a, s', c);
    ElsewhereMemory(s, a, s', c);
    if a.t in s'.tasks {
      ElsewhereTask(s, a, s', c);
    }
  }

  /** Case `c` is as it was, or some future on it is gone. */
  ghost predicate Framed(s: State, s': State, c: CaseId) {
    && SameCase(s.store, s'.store, c) && s.store.events <= s'.store.events
    && (c in s'.pending ==> c in s.pending && s'.pending[c] == s.pending[c])
    && (forall u :: u in s'.tasks && On(s'.tasks[u], c) ==> u in s.tasks && s'.tasks[u] == s.tasks[u])
    && (s'.boot == Done || (s'.boot == s.boot && (OutOfMind(s, c) ==> OutOfMind(s', c))))
  }

  lemma FramedFrom(s: State, t: TaskId, s': State, c: CaseId)
    requires Moves(s.tasks, t, s'.tasks) && s'.boot == s.boot && s.store.events <= s'.store.events
    requires SameCase(s.store, s'.store, c) && SameMemory(s, s', c)
    requires t in s'.tasks ==> !On(s'.tasks[t], c)
    requires t in s'.tasks && Tracks(s'.tasks[t], c) ==> c in s.elevating || (t in s.tasks && Tracks(s.tasks[t], c))
    ensures Framed(s, s', c)
  {
  }

  lemma ElsewhereFramed(s: State, a: Action, s': State, c: CaseId)
    requires IsStep(s, a, s') && OfTask(a) && !Concerns(s, a, c)
    ensures Framed(s, s', c)
  {
    Elsewhere(s, a, s', c);
    StoreGrows(s, a, s', c);
    TaskMoves(s, a, s');
    FramedFrom(s, a.t, s', c);
  }

  /** Rows are never deleted, attempts never undone and events never forgotten. */
  lemma StoreGrows(s: State, a: Action, s': State, c: CaseId)
    requires IsStep(s, a, s') && OfTask(a)
    ensures c in s.store.rows ==> c in s'.store.rows
    ensures s'.store.attempts[c] >= s.store.attempts[c] && s.store.events <= s'.store.events
    ensures s'.boot == s.boot
  {
  }

  lemma RowStaysGrounded(s: State, a: Action, s': State, c: CaseId)
    requires IsStep(s, a, s') && OfTask(a) && Grounded(s, c) && Concerns(s, a, c)
    ensures RowGrounded(s'.store, c)
  {
    if a.DoRecord? {
      RecordedStaysGrounded(s.store, s.tasks[a.t].c, s.tasks[a.t].answer, s.tasks[a.t].event);
    } else if a.t in s.tasks {
      assert TaskGrounded(s.store, s.tasks[a.t], c);
    }
  }

  lemma RecordedStaysGrounded(st: Store, c: CaseId, answer: Answer, event: Option<EventId>)
    requires RowGrounded(st, c)
    ensures RowGrounded(RecordDecision(st, c, answer, event), c)
  {
  }

  lemma TaskStaysGrounded(s: State, a: Action, s': State, c: CaseId)
    requires IsStep(s, a, s') && OfTask(a) && Grounded(s, c) && a.t in s'.tasks
    ensures TaskGrounded(s'.store, s'.tasks[a.t], c)
  {
    if a.t in s.tasks {
      assert TaskGrounded(s.store, s.tasks[a.t], c);
    }
  }

  lemma RememberedGrounded(s: State, a: Action, s': State, c: CaseId)
    requires IsStep(s, a, s') && Remembers(a) && Grounded(s, c) && Concerns(s, a, c)
    ensures c in s'.pending ==> c in s'.store.rows
    ensures c in s'.elevating ==> s'.store.attempts[c] > 0
  {
    if a.t in s.tasks {
      assert TaskGrounded(s.store, s.tasks[a.t], c);
    }
  }

  lemma MemoryStaysGrounded(s: State, a: Action, s': State, c: CaseId)
    requires IsStep(s, a, s') && OfTask(a) && Grounded(s, c) && Concerns(s, a, c)
    ensures c in s'.pending ==> c in s'.store.rows
    ensures c in s'.elevating ==> s'.store.attempts[c] > 0
  {
    if Remembers(a) {
      RememberedGrounded(s, a, s', c);
    } else {
      NothingRemembered(s, a, s');
      StoreGrows(s, a, s', c);
    }
  }

  lemma TaskStepGrounded(s: State, a: Action, s': State, c: CaseId)
    requires IsStep(s, a, s') && OfTask(a) && Grounded(s, c)
    ensures Grounded(s', c)
  {
    StoreGrows(s, a, s', c);
    TaskMoves(s, a, s');
    if Concerns(s, a, c) {
      RowStaysGrounded(s, a, s', c);
      MemoryStaysGrounded(s, a, s', c);
    } else {
      Elsewhere(s, a, s', c);
    }
    forall u | u in s'.tasks ensures TaskGrounded(s'.store, s'.tasks[u], c) {
      if u == a.t {
        TaskStaysGrounded(s, a, s', c);
      } else {
        assert TaskGrounded(s.store, s.tasks[u], c);
      }
    }
  }

  // ----- reconciliation -----------------------------------------------------------------------

  function TaskOf(a: ReconcileAction): Task {
    if a.ResumePr? then Claim(a.case_.id, a.case_.row.draft) else Expiring(a.case_.id)
  }

  predicate GetsFuture(a: ReconcileAction) {
    a.ResumePr? || a.Expire?
  }

  /** The futures after reconciliation are those there were and those the plan asks for. */
  ghost predicate TasksFrom(was: map<TaskId, Task>, tasks: map<TaskId, Task>, plan: seq<ReconcileAction>, t: TaskId) {
    forall u :: u in tasks ==>
      || (u in was && u < t && tasks[u] == was[u])
      || (t <= u < t + |plan| && GetsFuture(plan[u - t]) && tasks[u] == TaskOf(plan[u - t]))
  }

  predicate AsksAgain(a: ReconcileAction, c: CaseId, draft: string) {
    a.ResumePending? && a.case_.id == c && a.case_.row.draft == draft
  }

  ghost predicate PendingFrom(was: map<CaseId, string>, pending: map<CaseId, string>, plan: seq<ReconcileAction>) {
    forall c :: c in pending ==>
      (c in was && pending[c] == was[c]) || exists a :: a in plan && AsksAgain(a, c, pending[c])
  }

  predicate TracksAgain(a: ReconcileAction, c: CaseId) {
    a.ResumeTracking? && a.case_.id == c
  }

  ghost predicate ElevatingFrom(was: set<CaseId>, elevating: set<CaseId>, plan: seq<ReconcileAction>) {
    forall c :: c in elevating ==> c in was || exists a :: a in plan && TracksAgain(a, c)
  }

  lemma {:induction false} ReconcileAllTasks(s: State, plan: seq<ReconcileAction>, t: TaskId)
    requires forall u :: u in s.tasks ==> u < t
    ensures TasksFrom(s.tasks, ReconciledAll(s, plan, t).tasks, plan, t)
  {
    if plan != [] {
      ReconcileAllTasks(s, plan[..|plan| - 1], t);
    }
  }

  lemma {:induction false} ReconcileAllPending(s: State, plan: seq<ReconcileAction>, t: TaskId)
    ensures PendingFrom(s.pending, ReconciledAll(s, plan, t).pending, plan)
  {
    if plan != [] {
      var n := |plan| - 1;
      ReconcileAllPending(s, plan[..n], t);
      var before, after := ReconciledAll(s, plan[..n], t).pending, ReconciledAll(s, plan, t).pending;
      forall c | c in after && !(c in s.pending && after[c] == s.pending[c])
        ensures exists a :: a in plan && AsksAgain(a, c, after[c]) {
        if c in before && before[c] == after[c] {
          var a :| a in plan[..n] && AsksAgain(a, c, before[c]);
          assert a in plan;
        } else {
          assert AsksAgain(plan[n], c, after[c]);
        }
      }
    }
  }

  lemma {:induction false} ReconcileAllElevating(s: State, plan: seq<ReconcileAction>, t: TaskId)
    ensures ElevatingFrom(s.elevating, ReconciledAll(s, plan, t).elevating, plan)
    ensures ReconciledAll(s, plan, t).store == s.store && ReconciledAll(s, plan, t).boot == s.boot
  {
    if plan != [] {
      var n := |plan| - 1;
      ReconcileAllElevating(s, plan[..n], t);
      var before, after := ReconciledAll(s, plan[..n], t).elevating, ReconciledAll(s, plan, t).elevating;
      forall c | c in after && c !in s.elevating ensures exists a :: a in plan && TracksAgain(a, c) {
        if c in before {
          var a :| a in plan[..n] && TracksAgain(a, c);
          assert a in plan;
        } else {
          assert TracksAgain(plan[n], c);
        }
      }
    }
  }

  lemma {:induction false} PlanIdsDistinct(cases: seq<Case>, now: int, i: nat, j: nat)
    requires DistinctIds(cases) && i < j < |PlanReconciliation(cases, now)|
    ensures PlanReconciliation(cases, now)[i].case_.id != PlanReconciliation(cases, now)[j].case_.id
  {
    var front, last := cases[..|cases| - 1], cases[|cases| - 1];
    var rest := PlanReconciliation(front, now);
    if j < |rest| {
      PlanIdsDistinct(front, now, i, j);
    } else {
      PlanIsSafe(front, now, rest[i]);
      assert rest[i].case_ in front;
    }
  }

  /** What the boot does about `c` follows from the one case with that id that it read. */
  lemma PlannedFor(s: State, now: int, r: ReconcileAction)
    requires s.boot.Reading? && r in PlanReconciliation(s.boot.snapshot, now) && Grounded(s, r.case_.id)
    ensures r.case_ in s.boot.snapshot && CaseGrounded(s.store, r.case_)
    ensures r.ResumePending? ==> r.case_.row.status == Pending
    ensures r.ResumePr? ==> r.case_.row.status == Approved
    ensures !r.ResumeTracking? ==> Waits(r.case_, r.case_.id)
  {
    PlanIsSafe(s.boot.snapshot, now, r);
  }

  /** The effect of reconciliation, in terms of its plan. */
  lemma AppliedPlan(s: State, a: Action, s': State) returns (plan: seq<ReconcileAction>)
    requires IsStep(s, a, s') && a.Apply?
    ensures plan == PlanReconciliation(s.boot.snapshot, a.now)
    ensures TasksFrom(s.tasks, s'.tasks, plan, a.t) && PendingFrom(s.pending, s'.pending, plan)
    ensures ElevatingFrom(s.elevating, s'.elevating, plan) && s'.store == s.store && s'.boot == Done
  {
    plan := PlanReconciliation(s.boot.snapshot, a.now);
    ReconcileAllTasks(s.(boot := Done), plan, a.t);
    ReconcileAllPending(s.(boot := Done), plan, a.t);
    ReconcileAllElevating(s.(boot := Done), plan, a.t);
  }

  /** A case the boot has not to deal with comes out of it as it went in. */
  lemma ApplyElsewhere(s: State, a: Action, s': State, c: CaseId)
    requires IsStep(s, a, s') && a.Apply? && Grounded(s, c) && !Carried(s, c)
    ensures Framed(s, s', c)
  {
    var plan := AppliedPlan(s, a, s');
    forall u | u in s'.tasks && On(s'.tasks[u], c) ensures u in s.tasks && s'.tasks[u] == s.tasks[u] {
      if !(u in s.tasks && u < a.t && s'.tasks[u] == s.tasks[u]) {
        PlannedFor(s, a.now, plan[u - a.t]);
        assert false;
      }
    }
    if c in s'.pending && !(c in s.pending && s'.pending[c] == s.pending[c]) {
      var r :| r in plan && AsksAgain(r, c, s'.pending[c]);
      PlannedFor(s, a.now, r);
      assert false;
    }
  }

  /** The futures a case read back and out of mind is given. */
  lemma CarriedFuture(s: State, a: Action, s': State, k: Case, plan: seq<ReconcileAction>, u: TaskId)
    requires s.boot.Reading? && Grounded(s, k.id) && OutOfMind(s, k.id) && k in s.boot.snapshot
    requires a.Apply? && plan == PlanReconciliation(s.boot.snapshot, a.now) && TasksFrom(s.tasks, s'.tasks, plan, a.t)
    requires u in s'.tasks && On(s'.tasks[u], k.id)
    ensures a.t <= u < a.t + |plan| && plan[u - a.t].case_ == k && !plan[u - a.t].ResumePending?
    ensures s'.tasks[u] == Expiring(k.id) || (k.row.status == Approved && s'.tasks[u] == Claim(k.id, k.row.draft))
  {
    var r := plan[u - a.t];
    PlannedFor(s, a.now, r);
    OneOfEach(s.boot.snapshot, r.case_, k);
  }

  lemma OneOfEach(cases: seq<Case>, k: Case, k': Case)
    requires DistinctIds(cases) && k in cases && k' in cases && k.id == k'.id
    ensures k == k'
  {
    var i, j :| 0 <= i < |cases| && 0 <= j < |cases| && cases[i] == k && cases[j] == k';
    assert i == j;
  }

  /** One action about a case at most. */
  lemma OnePlanned(cases: seq<Case>, now: int, i: nat, j: nat)
    requires DistinctIds(cases) && i < |PlanReconciliation(cases, now)| && j < |PlanReconciliation(cases, now)|
    requires PlanReconciliation(cases, now)[i].case_.id == PlanReconciliation(cases, now)[j].case_.id
    ensures i == j
  {
    if i < j {
      PlanIdsDistinct(cases, now, i, j);
    } else if j < i {
      PlanIdsDistinct(cases, now, j, i);
    }
  }

  /** A case read back is asked about again, or claimed again, or expired, and only one of these. */
  ghost predicate TakenUp(s: State, s': State, k: Case) {
    && s'.store == s.store && s'.boot == Done
    && (forall u :: u in s'.tasks && On(s'.tasks[u], k.id) ==>
          s'.tasks[u] == Expiring(k.id) || (k.row.status == Approved && s'.tasks[u] == Claim(k.id, k.row.draft)))
    && (forall u, v :: u in s'.tasks && v in s'.tasks && On(s'.tasks[u], k.id) && On(s'.tasks[v], k.id) ==> u == v)
    && (k.id in s'.pending ==> k.row.status == Pending && s'.pending[k.id] == k.row.draft)
    && (k.id in s'.pending ==> forall u :: u in s'.tasks ==> !On(s'.tasks[u], k.id))
  }

  lemma ApplyCarried(s: State, a: Action, s': State, k: Case)
    requires IsStep(s, a, s') && a.Apply? && Grounded(s, k.id) && OutOfMind(s, k.id)
    requires k in s.boot.snapshot && Waits(k, k.id)
    ensures TakenUp(s, s', k)
  {
    var plan := AppliedPlan(s, a, s');
    CarriedFutures(s, a, s', k, plan);
    if k.id in s'.pending {
      CarriedQuestion(s, a, s', k, plan);
    }
  }

  lemma CarriedFutures(s: State, a: Action, s': State, k: Case, plan: seq<ReconcileAction>)
    requires s.boot.Reading? && Grounded(s, k.id) && OutOfMind(s, k.id) && k in s.boot.snapshot
    requires a.Apply? && plan == PlanReconciliation(s.boot.snapshot, a.now) && TasksFrom(s.tasks, s'.tasks, plan, a.t)
    ensures forall u :: u in s'.tasks && On(s'.tasks[u], k.id) ==>
              s'.tasks[u] == Expiring(k.id) || (k.row.status == Approved && s'.tasks[u] == Claim(k.id, k.row.draft))
    ensures forall u, v :: u in s'.tasks && v in s'.tasks && On(s'.tasks[u], k.id) && On(s'.tasks[v], k.id) ==> u == v
  {
    forall u | u in s'.tasks && On(s'.tasks[u], k.id)
      ensures s'.tasks[u] == Expiring(k.id) || (k.row.status == Approved && s'.tasks[u] == Claim(k.id, k.row.draft)) {
      CarriedFuture(s, a, s', k, plan, u);
    }
    forall u, v | u in s'.tasks && v in s'.tasks && On(s'.tasks[u], k.id) && On(s'.tasks[v], k.id) ensures u == v {
      CarriedFuture(s, a, s', k, plan, u);
      CarriedFuture(s, a, s', k, plan, v);
      OnePlanned(s.boot.snapshot, a.now, u - a.t, v - a.t);
    }
  }

  lemma CarriedQuestion(s: State, a: Action, s': State, k: Case, plan: seq<ReconcileAction>)
    requires s.boot.Reading? && Grounded(s, k.id) && OutOfMind(s, k.id) && k in s.boot.snapshot
    requires a.Apply? && plan == PlanReconciliation(s.boot.snapshot, a.now) && TasksFrom(s.tasks, s'.tasks, plan, a.t)
    requires PendingFrom(s.pending, s'.pending, plan) && k.id in s'.pending
    ensures k.row.status == Pending && s'.pending[k.id] == k.row.draft
    ensures forall u :: u in s'.tasks ==> !On(s'.tasks[u], k.id)
  {
    var r :| r in plan && AsksAgain(r, k.id, s'.pending[k.id]);
    PlannedFor(s, a.now, r);
    OneOfEach(s.boot.snapshot, r.case_, k);
    var i :| 0 <= i < |plan| && plan[i] == r;
    forall u | u in s'.tasks ensures !On(s'.tasks[u], k.id) {
      AskedOrHandedOn(s, a, s', k, plan, i, u);
    }
  }

  lemma AskedOrHandedOn(s: State, a: Action, s': State, k: Case, plan: seq<ReconcileAction>, i: nat, u: TaskId)
    requires s.boot.Reading? && Grounded(s, k.id) && OutOfMind(s, k.id) && k in s.boot.snapshot
    requires a.Apply? && plan == PlanReconciliation(s.boot.snapshot, a.now) && TasksFrom(s.tasks, s'.tasks, plan, a.t)
    requires i < |plan| && plan[i].ResumePending? && plan[i].case_ == k && u in s'.tasks
    ensures !On(s'.tasks[u], k.id)
  {
    if On(s'.tasks[u], k.id) {
      CarriedFuture(s, a, s', k, plan, u);
      OnePlanned(s.boot.snapshot, a.now, i, u - a.t);
    }
  }

  lemma ApplyGrounded(s: State, a: Action, s': State, c: CaseId)
    requires IsStep(s, a, s') && a.Apply? && Grounded(s, c)
    ensures Grounded(s', c)
  {
    var plan := AppliedPlan(s, a, s');
    forall u | u in s'.tasks ensures TaskGrounded(s'.store, s'.tasks[u], c) {
      if u >= a.t && plan[u - a.t].case_.id == c {
        PlannedFor(s, a.now, plan[u - a.t]);
      }
    }
    if c in s'.pending && c !in s.pending {
      var r :| r in plan && AsksAgain(r, c, s'.pending[c]);
      PlannedFor(s, a.now, r);
    }
    if c in s'.elevating && c !in s.elevating {
      var r :| r in plan && TracksAgain(r, c);
      PlannedFor(s, a.now, r);
      PlanIsSafe(s.boot.snapshot, a.now, r);
    }
  }

  lemma StepGrounded(s: State, a: Action, s': State, c: CaseId)
    requires IsStep(s, a, s') && Grounded(s, c)
    ensures Grounded(s', c)
  {
    if a.Apply? {
      ApplyGrounded(s, a, s', c);
    } else if OfTask(a) {
      TaskStepGrounded(s, a, s', c);
    } else {
      BootStepGrounded(s, a, s', c);
    }
  }

  lemma BootStepGrounded(s: State, a: Action, s': State, c: CaseId)
    requires IsStep(s, a, s') && Grounded(s, c) && (a.Read? || a.ReadFailed? || a.Crash?)
    ensures Grounded(s', c)
  {
  }

  lemma {:induction false} RunIsGrounded(states: seq<State>, actions: seq<Action>, n: nat, c: CaseId)
    requires IsRun(states, actions) && n <= |actions|
    ensures Grounded(states[n], c)
  {
    if n > 0 {
      RunIsGrounded(states, actions, n - 1, c);
      assert IsStep(states[n - 1], actions[n - 1], states[n - 1 + 1]);
      StepGrounded(states[n - 1], actions[n - 1], states[n], c);
    }
  }
}
