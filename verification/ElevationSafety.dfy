/**
 Safety of decision elevation over every run, case by case. If case `c` is opened only when it may be, then
 at each degree of care: `c` is proposed at most once; a proposed case is not expired either; its row says
 that it was proposed, for good; and what was proposed is the durable draft
 (src/actors/decision_elevation_actor.rs:284-479, 583-748, 824-898).
 */
module ElevationSafety {
  import opened Basics
  import opened DecisionElevation
  import opened ElevationBacking
  import opened ElevationCases
  import opened ElevationCare

  /** A run that opens case `c` only when it may. Other cases may be opened at any time. */
  ghost predicate CarefulRun(care: Care, c: CaseId, states: seq<State>, actions: seq<Action>) {
    IsRun(states, actions) && forall i :: 0 <= i < |actions| ==> Careful(care, c, states[i], actions[i])
  }

  lemma {:induction false} RunKeepsInv(care: Care, c: CaseId, states: seq<State>, actions: seq<Action>, n: nat)
    requires CarefulRun(care, c, states, actions) && n <= |actions|
    ensures Inv(care, states[n], c)
  {
    if n > 0 {
      RunKeepsInv(care, c, states, actions, n - 1);
      assert IsStep(states[n - 1], actions[n - 1], states[n - 1 + 1]);
      StepKeepsInv(care, states[n - 1], actions[n - 1], states[n], c);
    }
  }

  /**
   Crash-safe elevation: over any interleaving of triggers, decisions, polls, store errors, crashes between
   any two writes and reboots, a case that is opened only when it may be is proposed at most once, and only
   on a committed approval.
   */
  lemma AtMostOneAttempt(care: Care, c: CaseId, states: seq<State>, actions: seq<Action>, n: nat)
    requires CarefulRun(care, c, states, actions) && n <= |actions|
    ensures states[n].store.attempts[c] <= 1 && states[n].store.attempts[c] <= states[n].store.approvals[c]
  {
    RunKeepsInv(care, c, states, actions, n);
    AttemptsNeedApprovals(states, actions, n, c);
  }

  /** If besides no case is opened while it is being expired, an expired case was never proposed. */
  lemma ExpiredWasNeverProposed(care: Care, c: CaseId, states: seq<State>, actions: seq<Action>, n: nat)
    requires CarefulRun(care, c, states, actions) && n <= |actions| && care != Once
    ensures At(states[n].store, c, Expired) ==> states[n].store.attempts[c] == 0 && states[n].store.rows[c].pr == None
  {
    RunKeepsInv(care, c, states, actions, n);
  }

  /**
   If besides no case is opened while any end of it is about to be written, the durable row tells what was
   done: unclaimed means never proposed, in git means proposed, `applying` is in doubt.
   */
  lemma StatusTells(care: Care, c: CaseId, states: seq<State>, actions: seq<Action>, n: nat)
    requires CarefulRun(care, c, states, actions) && n <= |actions| && MindsRow(care)
    ensures !Applied(states[n].store, c) ==> states[n].store.attempts[c] == 0
    ensures InGit(states[n].store, c) ==> states[n].store.attempts[c] == 1
  {
    RunKeepsInv(care, c, states, actions, n);
  }

  /**
   If besides a case is not opened with one draft while another is on its way, what is proposed is the durable
   draft.
   */
  lemma ProposedIsTheDraft(c: CaseId, states: seq<State>, actions: seq<Action>, n: nat)
    requires CarefulRun(Faithful, c, states, actions) && n <= |actions|
    ensures forall draft :: (c, draft) in states[n].store.proposed ==> HasDraft(states[n].store, c, draft)
  {
    RunKeepsInv(Faithful, c, states, actions, n);
  }

  // ----- a claimed case -----------------------------------------------------------------------

  /** Claimed, and no future is about to open it afresh. */
  ghost predicate Closed(s: State, c: CaseId) {
    Applied(s.store, c) && forall t :: t in s.tasks && s.tasks[t].WriteRow? ==> s.tasks[t].c != c
  }

  /** Case `c` stays claimed, on the same claim and the same approval. */
  ghost predicate StaysApplied(st: Store, st': Store, c: CaseId) {
    Applied(st', c) && st'.claims[c] == st.claims[c] && st'.approvals[c] == st.approvals[c]
  }

  lemma OwnKeepsApplied(s: State, a: Action, s': State, c: CaseId)
    requires IsStep(s, a, s') && OfTask(a) && a.t in s.tasks && On(s.tasks[a.t], c)
    requires PhaseInv(s, c) && Closed(s, c)
    ensures StaysApplied(s.store, s'.store, c)
  {
    assert !Awaits(s.store, s.tasks[a.t], c);
  }

  /** An answer or a verdict about a claimed case: there is no question to answer. */
  lemma VerdictKeepsApplied(s: State, a: Action, s': State)
    requires IsStep(s, a, s') && (a.Trigger? || a.Decide? || a.DoResolve?) && Applied(s.store, a.c)
    ensures StaysApplied(s.store, s'.store, a.c)
  {
  }

  lemma BootKeepsStore(s: State, a: Action, s': State)
    requires IsStep(s, a, s') && !OfTask(a)
    ensures s'.store == s.store
  {
    if a.Apply? {
      var plan := AppliedPlan(s, a, s');
    }
  }

  lemma ClosedStaysApplied(s: State, a: Action, s': State, c: CaseId)
    requires IsStep(s, a, s') && PhaseInv(s, c) && Closed(s, c)
    ensures StaysApplied(s.store, s'.store, c)
  {
    if !OfTask(a) {
      BootKeepsStore(s, a, s');
    } else if !Concerns(s, a, c) {
      Elsewhere(s, a, s', c);
    } else if a.t in s.tasks && On(s.tasks[a.t], c) {
      OwnKeepsApplied(s, a, s', c);
    } else {
      VerdictKeepsApplied(s, a, s');
    }
  }

  /** Only a trigger makes a future that opens a case. */
  lemma NoNewOpening(s: State, a: Action, s': State, u: TaskId)
    requires IsStep(s, a, s') && u in s'.tasks && s'.tasks[u].WriteRow?
    ensures (a.Trigger? && u == a.t && s'.tasks[u].c == a.c) || (u in s.tasks && s.tasks[u] == s'.tasks[u])
  {
    if a.Apply? {
      var plan := AppliedPlan(s, a, s');
    }
  }

  /** From a claimed application only git decides: it is never replayed, re-decided or expired. */
  lemma StepKeepsClosed(s: State, a: Action, s': State, c: CaseId)
    requires IsStep(s, a, s') && PhaseInv(s, c) && Closed(s, c) && !(a.Trigger? && a.c == c)
    ensures Closed(s', c) && StaysApplied(s.store, s'.store, c)
  {
    ClosedStaysApplied(s, a, s', c);
    forall u | u in s'.tasks && s'.tasks[u].WriteRow? ensures s'.tasks[u].c != c {
      NoNewOpening(s, a, s', u);
    }
  }

  /** A claimed case that nobody opens afresh stays claimed, once, whatever else happens. */
  lemma {:induction false} AppliedForGood(care: Care, c: CaseId, states: seq<State>, actions: seq<Action>, i: nat,
                                          j: nat)
    requires CarefulRun(care, c, states, actions) && MindsRow(care) && i <= j <= |actions| && Closed(states[i], c)
    requires forall k :: i <= k < j ==> !(actions[k].Trigger? && actions[k].c == c)
    ensures Closed(states[j], c) && StaysApplied(states[i].store, states[j].store, c)
    decreases j - i
  {
    if i < j {
      RunKeepsInv(care, c, states, actions, i);
      assert IsStep(states[i], actions[i], states[i + 1]);
      StepKeepsClosed(states[i], actions[i], states[i + 1], c);
      AppliedForGood(care, c, states, actions, i + 1, j);
    }
  }

  /** A case once proposed stays claimed for good: no such run opens, decides or expires it again. */
  lemma ProposedForGood(care: Care, c: CaseId, states: seq<State>, actions: seq<Action>, i: nat, j: nat)
    requires CarefulRun(care, c, states, actions) && MindsRow(care) && i <= j <= |actions|
    requires states[i].store.attempts[c] == 1
    ensures states[j].store.attempts[c] == 1 && StaysApplied(states[i].store, states[j].store, c)
  {
    RunKeepsInv(care, c, states, actions, i);
    ProposedIsClosed(states[i], c);
    StatusTells(care, c, states, actions, i);
    ForbidsTrigger(care, c, states, actions, i, j);
    AppliedForGood(care, c, states, actions, i, j);
  }

  lemma ProposedIsClosed(s: State, c: CaseId)
    requires OnceInv(s, c) && s.store.attempts[c] == 1
    ensures forall t :: t in s.tasks && s.tasks[t].WriteRow? ==> s.tasks[t].c != c
  {
    forall t | t in s.tasks && s.tasks[t].WriteRow? ensures s.tasks[t].c != c {
      assert Hot(s.store, s.tasks[t], s.tasks[t].c);
    }
  }

  lemma {:induction false} ForbidsTrigger(care: Care, c: CaseId, states: seq<State>, actions: seq<Action>, i: nat,
                                          j: nat)
    requires CarefulRun(care, c, states, actions) && i <= j <= |actions| && states[i].store.attempts[c] == 1
    ensures states[j].store.attempts[c] == 1
    ensures forall k :: i <= k < j ==> !(actions[k].Trigger? && actions[k].c == c)
    decreases j - i
  {
    if i < j {
      assert IsStep(states[i], actions[i], states[i + 1]) && Careful(care, c, states[i], actions[i]);
      AttemptsGrow(states[i], actions[i], states[i + 1], c);
      AtMostOneAttempt(care, c, states, actions, i + 1);
      ForbidsTrigger(care, c, states, actions, i + 1, j);
    }
  }

  lemma AttemptsGrow(s: State, a: Action, s': State, c: CaseId)
    requires IsStep(s, a, s')
    ensures s'.store.attempts[c] >= s.store.attempts[c]
  {
    if !OfTask(a) {
      BootKeepsStore(s, a, s');
    } else {
      StoreGrows(s, a, s', c);
    }
  }

  // ----- an approval in other words -----------------------------------------------------------

  ghost predicate NobodyClaims(s: State, c: CaseId) {
    forall t :: t in s.tasks ==> !Claims(s.tasks[t], c)
  }

  ghost predicate NothingApproved(s: State, c: CaseId) {
    !At(s.store, c, Approved) && forall t :: t in s.tasks && On(s.tasks[t], c) ==> !Approves(s.store, s.tasks[t])
  }

  /** Case `c` is settled as far as this process goes: there is nothing to claim or nobody to claim it. */
  ghost predicate AtRest(s: State, c: CaseId) {
    && s.boot != Waiting && !Carried(s, c) && c !in s.pending
    && (forall t :: t in s.tasks && On(s.tasks[t], c) ==>
          !s.tasks[t].WriteRow? && !s.tasks[t].Publish? && !s.tasks[t].CreatePr?)
    && (NobodyClaims(s, c) || NothingApproved(s, c))
  }

  lemma FrameAtRest(s: State, s': State, c: CaseId)
    requires Framed(s, s', c) && AtRest(s, c)
    ensures AtRest(s', c)
  {
    if NobodyClaims(s, c) {
      assert NobodyClaims(s', c);
    } else {
      assert NothingApproved(s', c);
    }
  }

  lemma OwnAtRest(s: State, a: Action, s': State, c: CaseId)
    requires IsStep(s, a, s') && OfTask(a) && a.t in s.tasks && On(s.tasks[a.t], c) && AtRest(s, c)
    ensures AtRest(s', c) && s'.store.attempts[c] == s.store.attempts[c]
  {
    if NobodyClaims(s, c) {
      assert NobodyClaims(s', c);
    } else {
      assert NothingApproved(s', c);
    }
  }

  lemma StepAtRest(s: State, a: Action, s': State, c: CaseId)
    requires IsStep(s, a, s') && Grounded(s, c) && AtRest(s, c) && !a.Crash? && !(a.Trigger? && a.c == c)
    ensures AtRest(s', c) && s'.store.attempts[c] == s.store.attempts[c]
  {
    if a.Apply? {
      ApplyElsewhere(s, a, s', c);
      FrameAtRest(s, s', c);
    } else if !Concerns(s, a, c) {
      ElsewhereFramed(s, a, s', c);
      FrameAtRest(s, s', c);
    } else if a.DoResolve? {
      ResolveAtRest(s, a, s');
    } else {
      OwnAtRest(s, a, s', c);
    }
  }

  lemma ResolveAtRest(s: State, a: Action, s': State)
    requires IsStep(s, a, s') && a.DoResolve? && AtRest(s, a.c)
    ensures AtRest(s', a.c) && s'.store.attempts[a.c] == s.store.attempts[a.c]
  {
    if NobodyClaims(s, a.c) {
      assert NobodyClaims(s', a.c);
    } else {
      assert NothingApproved(s', a.c);
    }
  }

  /** From `i` on until `j` the process lives and nobody opens `c`. */
  ghost predicate LeftAlone(actions: seq<Action>, i: nat, j: nat, c: CaseId)
    requires j <= |actions|
  {
    forall k :: i < k < j ==> !actions[k].Crash? && !(actions[k].Trigger? && actions[k].c == c)
  }

  lemma RestsOn(c: CaseId, states: seq<State>, actions: seq<Action>, n: nat)
    requires IsRun(states, actions) && n < |actions| && AtRest(states[n], c)
    requires !actions[n].Crash? && !(actions[n].Trigger? && actions[n].c == c)
    ensures AtRest(states[n + 1], c) && states[n + 1].store.attempts[c] == states[n].store.attempts[c]
  {
    RunIsGrounded(states, actions, n, c);
    assert IsStep(states[n], actions[n], states[n + 1]);
    StepAtRest(states[n], actions[n], states[n + 1], c);
  }

  lemma {:induction false} StaysAtRest(c: CaseId, states: seq<State>, actions: seq<Action>, i: nat, j: nat)
    requires IsRun(states, actions) && i < j <= |actions| && LeftAlone(actions, i, j, c)
    requires AtRest(states[i + 1], c)
    ensures AtRest(states[j], c) && states[j].store.attempts[c] == states[i + 1].store.attempts[c]
  {
    if j > i + 1 {
      StaysAtRest(c, states, actions, i, j - 1);
      RestsOn(c, states, actions, j - 1);
    }
  }

  /** The answer will be committed as an approval of `c`, and some future is there to claim it. */
  ghost predicate TakenAtOnce(s: State, a: Action)
    requires a.Decide?
  {
    StatusFor(a.answer) == Approved && Fresh(s.store, a.event) && !NobodyClaims(s, a.c)
  }

  /**
   An answer not worded `approve` opens no pull request in the process that takes it: from the answer on,
   until a crash or a new trigger on the case, its attempts stay as they were; unless the answer means
   approval and a future left over from an earlier opening is still there to claim it.
   */
  lemma SynonymWaits(care: Care, c: CaseId, states: seq<State>, actions: seq<Action>, i: nat, j: nat)
    requires CarefulRun(care, c, states, actions) && i < j <= |actions| && LeftAlone(actions, i, j, c)
    requires actions[i].Decide? && actions[i].c == c && actions[i].answer != Approve
    requires !TakenAtOnce(states[i], actions[i])
    ensures states[j].store.attempts[c] == states[i].store.attempts[c]
  {
    assert IsStep(states[i], actions[i], states[i + 1]);
    RunKeepsInv(care, c, states, actions, i);
    AnswerAtRest(states[i], actions[i], states[i + 1]);
    StaysAtRest(c, states, actions, i, j);
  }

  lemma AnswerAtRest(s: State, a: Action, s': State)
    requires IsStep(s, a, s') && a.Decide? && a.answer != Approve && OnceInv(s, a.c) && !TakenAtOnce(s, a)
    ensures AtRest(s', a.c) && s'.store == s.store
  {
    if NobodyClaims(s, a.c) {
      assert NobodyClaims(s', a.c);
    } else {
      forall t | t in s'.tasks && On(s'.tasks[t], a.c) ensures !Approves(s'.store, s'.tasks[t]) {
        assert t in s.tasks ==> !Hot(s.store, s.tasks[t], a.c);
      }
      assert NothingApproved(s', a.c);
    }
  }
}
