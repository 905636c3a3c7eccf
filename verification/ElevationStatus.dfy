/**
 Every status of a case has its cause: what a durable row says came about by exactly the event it names,
 over every run. Human answers, the poll of a pull request and its url are followed from the step that
 brought them in to the row that records them
 (src/actors/decision_elevation_actor.rs:284-393, 445-479, 583-748, 901-1000,
 src/adapters/sqlite_enrichment_repository.rs:228-235).
 */
module ElevationStatus {
  import opened Basics
  import opened DecisionElevation
  import opened ElevationBacking
  import opened ElevationCases

  // ----- one step -----------------------------------------------------------------------------

  /** The step carries out the task of a future on `c`. */
  predicate Works(s: State, a: Action, c: CaseId) {
    OfTask(a) && a.t in s.tasks && On(s.tasks[a.t], c)
  }

  /** Recording this kind of answer for `c`. */
  predicate Records(s: State, a: Action, c: CaseId, answers: set<Answer>) {
    a.DoRecord? && Works(s, a, c) && s.tasks[a.t].Record? && s.tasks[a.t].answer in answers
  }

  /** The one kind of step that makes the row of `c` say this. */
  predicate Brings(s: State, a: Action, c: CaseId, status: Status) {
    match status
    case Pending => a.DoWriteRow? && Works(s, a, c)
    case Approved => Records(s, a, c, {Approve, ApproveSynonym})
    case Rejected => Records(s, a, c, {Reject})
    case Reviewed => Records(s, a, c, {Other})
    case Applying => a.DoClaim? && Works(s, a, c) && At(s.store, c, Approved)
    case Elevating => a.DoWriteStamp? && a.persisted && Works(s, a, c)
    case Published => a.DoResolve? && a.c == c && a.merged
    case Abandoned => a.DoResolve? && a.c == c && !a.merged
    case PublishFailed => a.DoWriteFailed? && Works(s, a, c)
    case Expired => a.DoExpire? && Works(s, a, c)
  }

  lemma OwnStatus(s: State, a: Action, s': State, c: CaseId)
    requires IsStep(s, a, s') && OfTask(a) && Works(s, a, c) && c in s'.store.rows
    ensures SameRow(s.store, s'.store, c) || Brings(s, a, c, s'.store.rows[c].status)
  {
  }

  lemma OtherStatus(s: State, a: Action, s': State)
    requires IsStep(s, a, s') && (a.Trigger? || a.Decide? || a.DoResolve?) && a.c in s'.store.rows
    ensures SameRow(s.store, s'.store, a.c) || Brings(s, a, a.c, s'.store.rows[a.c].status)
  {
  }

  lemma QuietStore(s: State, a: Action, s': State)
    requires IsStep(s, a, s') && !OfTask(a)
    ensures s'.store == s.store
  {
    if a.Apply? {
      var plan := AppliedPlan(s, a, s');
    }
  }

  /** A row changes only by a step that brings about what it then says. */
  lemma StatusHasCause(s: State, a: Action, s': State, c: CaseId)
    requires IsStep(s, a, s') && c in s'.store.rows
    ensures SameRow(s.store, s'.store, c) || Brings(s, a, c, s'.store.rows[c].status)
  {
    if !OfTask(a) {
      QuietStore(s, a, s');
    } else if !Concerns(s, a, c) {
      Elsewhere(s, a, s', c);
    } else if Works(s, a, c) {
      OwnStatus(s, a, s', c);
    } else {
      OtherStatus(s, a, s');
    }
  }

  /** Opening a case and stamping it aside, nothing but its status is ever written. */
  lemma OnlyStatusWritten(s: State, a: Action, s': State, c: CaseId)
    requires IsStep(s, a, s') && c in s'.store.rows && !a.DoWriteRow? && !a.DoWriteStamp?
    ensures c in s.store.rows && s'.store.rows[c] == s.store.rows[c].(status := s'.store.rows[c].status)
  {
    if !OfTask(a) {
      QuietStore(s, a, s');
    } else if !Concerns(s, a, c) {
      Elsewhere(s, a, s', c);
    } else if Works(s, a, c) {
      OwnStatusOnly(s, a, s', c);
    } else {
      OtherStatusOnly(s, a, s');
    }
  }

  ghost predicate SameButStatus(st: Store, st': Store, c: CaseId) {
    c in st'.rows ==> c in st.rows && st'.rows[c] == st.rows[c].(status := st'.rows[c].status)
  }

  lemma OwnStatusOnly(s: State, a: Action, s': State, c: CaseId)
    requires IsStep(s, a, s') && OfTask(a) && Works(s, a, c) && !a.DoWriteRow? && !a.DoWriteStamp?
    ensures SameButStatus(s.store, s'.store, c)
  {
    if a.DoRecord? {
      RecordedStatusOnly(s.store, s.tasks[a.t].c, s.tasks[a.t].answer, s.tasks[a.t].event);
    }
  }

  lemma RecordedStatusOnly(st: Store, c: CaseId, answer: Answer, event: Option<EventId>)
    ensures SameButStatus(st, RecordDecision(st, c, answer, event), c)
  {
  }

  lemma OtherStatusOnly(s: State, a: Action, s': State)
    requires IsStep(s, a, s') && (a.Trigger? || a.Decide? || a.DoResolve?)
    ensures SameButStatus(s.store, s'.store, a.c)
  {
  }

  /** A poll that found a pull request merged or closed, and an answer recorded first, say so in the row at once. */
  lemma VerdictIsWritten(s: State, a: Action, s': State, c: CaseId)
    requires IsStep(s, a, s') && c in s.store.rows
    ensures a.DoResolve? && a.c == c ==> At(s'.store, c, if a.merged then Published else Abandoned)
    ensures a.DoResolve? && a.c == c ==> s'.store.rows[c] == s.store.rows[c].(status := s'.store.rows[c].status)
    ensures a.DoExpire? && Works(s, a, c) ==> At(s'.store, c, Expired)
    ensures a.DoWriteFailed? && Works(s, a, c) ==> At(s'.store, c, PublishFailed)
  {
  }

  /** An answer to a known case that no event recorded before is what the row says next. */
  lemma AnswerIsWritten(s: State, a: Action, s': State, c: CaseId)
    requires IsStep(s, a, s') && a.DoRecord? && Works(s, a, c)
    requires var e := s.tasks[a.t].event; e.None? || e.value !in s.store.events
    ensures s.tasks[a.t].answer in {Approve, ApproveSynonym} ==> At(s'.store, c, Approved)
    ensures s.tasks[a.t].answer == Reject ==> At(s'.store, c, Rejected)
    ensures s.tasks[a.t].answer == Other ==> At(s'.store, c, Reviewed)
  {
  }

  /** The same signed event recorded again, for whatever case and with whatever answer, writes nothing. */
  lemma EventCountsOnce(st: Store, c: CaseId, answer: Answer, c': CaseId, answer': Answer, e: EventId)
    ensures var st' := RecordDecision(st, c, answer, Some(e)); RecordDecision(st', c', answer', Some(e)) == st'
  {
  }

  // ----- whole runs ---------------------------------------------------------------------------

  /** Since step `i` the row of `c` says what that step brought about. */
  ghost predicate Since(states: seq<State>, actions: seq<Action>, c: CaseId, n: nat, i: nat)
    requires n < |states| && i < |actions| && i < n && c in states[n].store.rows
  {
    && Brings(states[i], actions[i], c, states[n].store.rows[c].status)
    && forall k :: i < k <= n ==> c in states[k].store.rows && states[k].store.rows[c] == states[n].store.rows[c]
  }

  /**
   In every run a row says at every moment what the last step that wrote it brought about: published means
   that a poll found the pull request merged, abandoned that one found it closed unmerged, rejected that a
   human rejected, and so on for every status.
   */
  lemma {:induction false} EveryStatusHasCause(states: seq<State>, actions: seq<Action>, n: nat, c: CaseId)
    returns (i: nat)
    requires IsRun(states, actions) && n <= |actions| && c in states[n].store.rows
    ensures i < n && Since(states, actions, c, n, i)
  {
    assert n > 0;
    assert IsStep(states[n - 1], actions[n - 1], states[n - 1 + 1]);
    StatusHasCause(states[n - 1], actions[n - 1], states[n], c);
    if SameRow(states[n - 1].store, states[n].store, c) {
      i := EveryStatusHasCause(states, actions, n - 1, c);
    } else {
      i := n - 1;
    }
  }

  // ----- where answers and urls come from -----------------------------------------------------

  /** The step puts this task into the hands of future `u`. */
  predicate HandsOver(s: State, a: Action, u: TaskId, k: Task) {
    OfTask(a) && a.t == u
    && (k.WriteRow? ==> a == Trigger(u, k.c, k.urn, k.draft, k.at))
    && (k.Record? ==> a.Decide? && a.c == k.c && a.answer == k.answer && a.event == k.event)
    && (k.Stamp? ==> a.DoCreatePr? && a.url == Some(k.url) && Works(s, a, k.c))
    && (k.WriteStamp? ==> a.DoStamp? && Works(s, a, k.c) && s.tasks[u].Stamp? && s.tasks[u].url == k.url)
    && (k.WriteStamp? ==> k.c in s.store.rows && s.store.rows[k.c] == k.row)
  }

  /** A future that carries what was brought to it from outside. */
  predicate Bears(k: Task) {
    k.WriteRow? || k.Record? || k.Stamp? || k.WriteStamp?
  }

  lemma TaskHasCause(s: State, a: Action, s': State, u: TaskId)
    requires IsStep(s, a, s') && u in s'.tasks && Bears(s'.tasks[u])
    ensures (u in s.tasks && s.tasks[u] == s'.tasks[u]) || HandsOver(s, a, u, s'.tasks[u])
  {
    if a.Apply? {
      var plan := AppliedPlan(s, a, s');
    } else if OfTask(a) {
      TaskMoves(s, a, s');
    }
  }

  /** A future that holds a case to open, an answer, a url or a stamp got it in some step before. */
  lemma {:induction false} EveryTaskHasCause(states: seq<State>, actions: seq<Action>, n: nat, u: TaskId)
    returns (i: nat)
    requires IsRun(states, actions) && n <= |actions| && u in states[n].tasks && Bears(states[n].tasks[u])
    ensures i < n && HandsOver(states[i], actions[i], u, states[n].tasks[u])
  {
    assert n > 0;
    assert IsStep(states[n - 1], actions[n - 1], states[n - 1 + 1]);
    TaskHasCause(states[n - 1], actions[n - 1], states[n], u);
    if u in states[n - 1].tasks && states[n - 1].tasks[u] == states[n].tasks[u] {
      i := EveryTaskHasCause(states, actions, n - 1, u);
    } else {
      i := n - 1;
    }
  }

  /** The answers that lead to this status. */
  function AnswersFor(status: Status): set<Answer> {
    match status
    case Approved => {Approve, ApproveSynonym}
    case Rejected => {Reject}
    case Reviewed => {Other}
    case _ => {}
  }

  /** A decided row goes back to a human who gave that answer on that very case. */
  lemma DecidedByAHuman(states: seq<State>, actions: seq<Action>, n: nat, c: CaseId) returns (i: nat)
    requires IsRun(states, actions) && n <= |actions| && c in states[n].store.rows
    requires states[n].store.rows[c].status in {Approved, Rejected, Reviewed}
    ensures i < n && actions[i].Decide? && actions[i].c == c
    ensures actions[i].answer in AnswersFor(states[n].store.rows[c].status)
  {
    var j := EveryStatusHasCause(states, actions, n, c);
    i := EveryTaskHasCause(states, actions, j, actions[j].t);
  }

  /** A row that says `elevating` names the url with which a pull request for that case was created. */
  lemma UrlWasCreated(states: seq<State>, actions: seq<Action>, n: nat, c: CaseId) returns (i: nat)
    requires IsRun(states, actions) && n <= |actions| && At(states[n].store, c, Elevating)
    ensures i < n && actions[i].DoCreatePr? && Works(states[i], actions[i], c)
    ensures actions[i].url == states[n].store.rows[c].pr && states[n].store.rows[c].pr.Some?
  {
    var j := EveryStatusHasCause(states, actions, n, c);
    assert IsStep(states[j], actions[j], states[j + 1]);
    var t := actions[j].t;
    var k := EveryTaskHasCause(states, actions, j, t);
    i := EveryTaskHasCause(states, actions, k, t);
  }

  /** The row of a case keeps what one and the same trigger on it said: its decision, its draft and its time. */
  lemma {:induction false} RowWasTriggered(states: seq<State>, actions: seq<Action>, n: nat, c: CaseId)
    returns (i: nat)
    requires IsRun(states, actions) && n <= |actions| && c in states[n].store.rows
    ensures i < n && actions[i].Trigger? && actions[i].c == c
    ensures var row := states[n].store.rows[c];
            actions[i].urn == row.urn && actions[i].draft == row.draft && actions[i].at == row.openedAt
    decreases n
  {
    assert n > 0;
    var s, a := states[n - 1], actions[n - 1];
    assert IsStep(s, a, states[n - 1 + 1]);
    StatusHasCause(s, a, states[n], c);
    if SameRow(s.store, states[n].store, c) || (!a.DoWriteRow? && !a.DoWriteStamp?) {
      OnlyStatusOr(s, a, states[n], c);
      i := RowWasTriggered(states, actions, n - 1, c);
    } else if a.DoWriteRow? {
      i := EveryTaskHasCause(states, actions, n - 1, a.t);
    } else {
      var j := EveryTaskHasCause(states, actions, n - 1, a.t);
      i := RowWasTriggered(states, actions, j, c);
    }
  }

  lemma OnlyStatusOr(s: State, a: Action, s': State, c: CaseId)
    requires IsStep(s, a, s') && c in s'.store.rows
    requires SameRow(s.store, s'.store, c) || (!a.DoWriteRow? && !a.DoWriteStamp?)
    ensures c in s.store.rows && s'.store.rows[c] == s.store.rows[c].(status := s'.store.rows[c].status)
  {
    if !SameRow(s.store, s'.store, c) {
      OnlyStatusWritten(s, a, s', c);
    }
  }

  // ----- the poll -----------------------------------------------------------------------------

  /** A poll asks about every pull request tracked when it starts. */
  lemma PollAsksAll(s: State, a: Action, s': State, c: CaseId, merged: bool)
    requires IsStep(s, a, s') && a.StartPoll? && c in s.elevating
    ensures Enabled(s', DoResolve(a.t, c, merged))
  {
  }

  /** Poll `t` is under way and has found the pull request of `c` settled. */
  ghost predicate Found(s: State, t: TaskId, c: CaseId) {
    t in s.tasks && s.tasks[t].Polling? && c in s.tasks[t].resolved
  }

  /** The poll was neither ended nor cut off. */
  predicate PollGoesOn(a: Action, t: TaskId) {
    !a.Crash? && !((a.EndPoll? || a.Abort?) && a.t == t)
  }

  lemma StillFound(s: State, a: Action, s': State, t: TaskId, c: CaseId)
    requires IsStep(s, a, s') && Found(s, t, c) && PollGoesOn(a, t)
    ensures Found(s', t, c)
  {
    if a.Apply? {
      FuturesKept(s.(boot := Done), PlanReconciliation(s.boot.snapshot, a.now), a.t, t);
    } else if OfTask(a) {
      TaskMoves(s, a, s');
    }
  }

  lemma {:induction false} FuturesKept(s: State, plan: seq<ReconcileAction>, t: TaskId, u: TaskId)
    requires u in s.tasks && u < t
    ensures u in ReconciledAll(s, plan, t).tasks && ReconciledAll(s, plan, t).tasks[u] == s.tasks[u]
  {
    if plan != [] {
      FuturesKept(s, plan[..|plan| - 1], t, u);
    }
  }

  lemma {:induction false} FoundUntil(states: seq<State>, actions: seq<Action>, i: nat, j: nat, t: TaskId, c: CaseId)
    requires IsRun(states, actions) && i <= j <= |actions| && Found(states[i], t, c)
    requires forall k :: i <= k < j ==> PollGoesOn(actions[k], t)
    ensures Found(states[j], t, c)
  {
    if i < j {
      FoundUntil(states, actions, i, j - 1, t, c);
      assert IsStep(states[j - 1], actions[j - 1], states[j - 1 + 1]);
      StillFound(states[j - 1], actions[j - 1], states[j], t, c);
    }
  }

  /** What a poll found settled is tracked no more when it ends, whatever happens in between. */
  lemma SettledIsDropped(states: seq<State>, actions: seq<Action>, i: nat, j: nat, c: CaseId)
    requires IsRun(states, actions) && i < j < |actions|
    requires actions[i].DoResolve? && actions[i].c == c && actions[j] == EndPoll(actions[i].t)
    requires forall k :: i < k < j ==> PollGoesOn(actions[k], actions[i].t)
    ensures c !in states[j + 1].elevating
  {
    assert IsStep(states[i], actions[i], states[i + 1]) && IsStep(states[j], actions[j], states[j + 1]);
    FoundUntil(states, actions, i + 1, j, actions[i].t, c);
  }

  /** And a case no poll found settled is tracked on: only the end of such a poll, or of the process, drops it. */
  lemma TrackedUntilFound(s: State, a: Action, s': State, c: CaseId)
    requires IsStep(s, a, s') && c in s.elevating && c !in s'.elevating
    ensures a.Crash? || (a.EndPoll? && Found(s, a.t, c))
  {
    if a.Apply? {
      TrackingKept(s.(boot := Done), PlanReconciliation(s.boot.snapshot, a.now), a.t);
    }
  }

  lemma {:induction false} TrackingKept(s: State, plan: seq<ReconcileAction>, t: TaskId)
    ensures s.elevating <= ReconciledAll(s, plan, t).elevating
    ensures forall r :: r in plan && r.ResumeTracking? ==> r.case_.id in ReconciledAll(s, plan, t).elevating
  {
    if plan != [] {
      TrackingKept(s, plan[..|plan| - 1], t);
      assert plan == plan[..|plan| - 1] + [plan[|plan| - 1]];
    }
  }

  /** A tracked case read back at boot is tracked again, however old it is. */
  lemma TrackedAgainAtBoot(s: State, a: Action, s': State, k: Case)
    requires IsStep(s, a, s') && a.Apply? && k in s.boot.snapshot && k.row.status == Elevating && k.row.pr.Some?
    ensures k.id in s'.elevating
  {
    var plan := PlanReconciliation(s.boot.snapshot, a.now);
    PlanIsComplete(s.boot.snapshot, a.now, k);
    var r :| r in plan && r.case_ == k;
    PlanIsSafe(s.boot.snapshot, a.now, r);
    TrackingKept(s.(boot := Done), plan, a.t);
  }

  /** No poll settles a case twice. */
  ghost predicate AskedOnce(s: State, c: CaseId) {
    forall t :: t in s.tasks && s.tasks[t].Polling? ==> !(c in s.tasks[t].tracked && c in s.tasks[t].resolved)
  }

  lemma StepAskedOnce(s: State, a: Action, s': State, c: CaseId)
    requires IsStep(s, a, s') && AskedOnce(s, c)
    ensures AskedOnce(s', c)
  {
    if a.Apply? {
      var plan := AppliedPlan(s, a, s');
    } else if OfTask(a) {
      TaskMoves(s, a, s');
    }
  }

  lemma {:induction false} RunAsksOnce(states: seq<State>, actions: seq<Action>, n: nat, c: CaseId)
    requires IsRun(states, actions) && n <= |actions|
    ensures AskedOnce(states[n], c)
  {
    if n > 0 {
      RunAsksOnce(states, actions, n - 1, c);
      assert IsStep(states[n - 1], actions[n - 1], states[n - 1 + 1]);
      StepAskedOnce(states[n - 1], actions[n - 1], states[n], c);
    }
  }

  /** Once a poll has found a case settled it does not ask about it again. */
  lemma SettledOnce(states: seq<State>, actions: seq<Action>, n: nat, t: TaskId, c: CaseId, merged: bool)
    requires IsRun(states, actions) && n <= |actions| && Found(states[n], t, c)
    ensures !Enabled(states[n], DoResolve(t, c, merged))
  {
    RunAsksOnce(states, actions, n, c);
  }

  // ----- what follows a failure ---------------------------------------------------------------

  /** A case that could not be published is not asked about, and its future goes on to give it up durably. */
  lemma UnpublishedIsGivenUp(s: State, t: TaskId)
    requires t in s.tasks && s.tasks[t].Publish? && s.tasks[t].c in s.store.rows
    ensures Enabled(s, DoPublish(t, false))
    ensures var s1 := Step(s, DoPublish(t, false));
            && s1.pending == s.pending && s1.seen == s.seen && Enabled(s1, DoWriteFailed(t))
            && At(Step(s1, DoWriteFailed(t)).store, s.tasks[t].c, PublishFailed)
  {
  }

  /** A pull request once created is tracked by the process that created it, even if stamping its row fails. */
  lemma CreatedIsTracked(s: State, a: Action, s': State, t: TaskId)
    requires IsStep(s, a, s') && !a.Crash? && a != Abort(t)
    requires t in s.tasks && (s.tasks[t].Stamp? || s.tasks[t].WriteStamp?)
    ensures || s.tasks[t].c in s'.elevating
            || (t in s'.tasks && (s'.tasks[t].Stamp? || s'.tasks[t].WriteStamp?) && s'.tasks[t].c == s.tasks[t].c)
  {
    if a.Apply? {
      FuturesKept(s.(boot := Done), PlanReconciliation(s.boot.snapshot, a.now), a.t, t);
    } else if OfTask(a) {
      TaskMoves(s, a, s');
    }
  }
}
