/**
 What the list of decisions already seen protects. The id of a case ends in a hash of its decision, so as
 long as hashes do not collide all triggers on a case name the same decision. In every such run the actor
 accepts a trigger only while the case is not asked about, decided, claimed or tracked in this process;
 what `seen` does not protect against is what remains of the condition for opening a case
 (src/actors/decision_elevation_actor.rs:398-442, 583-719, src/services/decision_elevation.rs:150-163).
 */
module ElevationSeen {
  import opened DecisionElevation
  import opened ElevationBacking
  import opened ElevationCases
  import opened ElevationCare

  /** All triggers on `c` name the decision `urn`. */
  ghost predicate Names(c: CaseId, urn: Urn, a: Action) {
    a.Trigger? && a.c == c ==> a.urn == urn
  }

  /** A future past the publishing of its case. */
  predicate PastPublishing(k: Task) {
    k.Record? || k.Claim? || k.CreatePr? || k.Stamp? || k.WriteStamp?
  }

  predicate TaskNames(k: Task, c: CaseId, urn: Urn, seen: set<Urn>) {
    On(k, c) ==>
      && (k.WriteRow? || k.Publish? ==> k.urn == urn)
      && (k.WriteStamp? ==> k.row.urn == urn)
      && (PastPublishing(k) ==> urn in seen)
  }

  /** Whatever concerns `c` in memory is on the list, unless it is being opened or expired. */
  ghost predicate SeenInv(s: State, c: CaseId, urn: Urn) {
    && (c in s.store.rows ==> s.store.rows[c].urn == urn)
    && (c in s.pending ==> urn in s.seen)
    && (forall t :: t in s.tasks ==> TaskNames(s.tasks[t], c, urn, s.seen))
    && (s.boot.Reading? ==> forall k :: k in s.boot.snapshot && k.id == c ==> k.row.urn == urn)
  }

  lemma SeenGrows(s: State, a: Action, s': State)
    requires IsStep(s, a, s') && OfTask(a)
    ensures s.seen <= s'.seen
  {
  }

  lemma FramedSeen(s: State, s': State, c: CaseId, urn: Urn)
    requires Framed(s, s', c) && s.seen <= s'.seen && SeenInv(s, c, urn)
    ensures SeenInv(s', c, urn)
  {
    forall u | u in s'.tasks ensures TaskNames(s'.tasks[u], c, urn, s'.seen) {
      assert On(s'.tasks[u], c) ==> TaskNames(s.tasks[u], c, urn, s.seen);
    }
  }

  lemma OwnRow(s: State, a: Action, s': State, c: CaseId, urn: Urn)
    requires IsStep(s, a, s') && OfTask(a) && Concerns(s, a, c) && SeenInv(s, c, urn)
    ensures c in s'.store.rows ==> s'.store.rows[c].urn == urn
  {
    assert a.t in s.tasks ==> TaskNames(s.tasks[a.t], c, urn, s.seen);
  }

  lemma OwnTask(s: State, a: Action, s': State, c: CaseId, urn: Urn)
    requires IsStep(s, a, s') && OfTask(a) && Concerns(s, a, c) && Names(c, urn, a) && SeenInv(s, c, urn)
    ensures a.t in s'.tasks ==> TaskNames(s'.tasks[a.t], c, urn, s'.seen)
    ensures c in s'.pending ==> urn in s'.seen
  {
    assert a.t in s.tasks ==> TaskNames(s.tasks[a.t], c, urn, s.seen);
  }

  lemma TaskStepSeen(s: State, a: Action, s': State, c: CaseId, urn: Urn)
    requires IsStep(s, a, s') && OfTask(a) && Concerns(s, a, c) && Names(c, urn, a) && SeenInv(s, c, urn)
    ensures SeenInv(s', c, urn)
  {
    SeenGrows(s, a, s');
    StoreGrows(s, a, s', c);
    TaskMoves(s, a, s');
    OwnRow(s, a, s', c, urn);
    OwnTask(s, a, s', c, urn);
    forall u | u in s'.tasks ensures TaskNames(s'.tasks[u], c, urn, s'.seen) {
      assert u != a.t ==> TaskNames(s.tasks[u], c, urn, s.seen);
    }
  }

  /** Reconciliation puts every case it resumes on the list. */
  lemma {:induction false} ResumedAreSeen(s: State, plan: seq<ReconcileAction>, t: TaskId)
    ensures s.seen <= ReconciledAll(s, plan, t).seen
    ensures forall r :: r in plan && !r.Expire? ==> r.case_.row.urn in ReconciledAll(s, plan, t).seen
  {
    if plan != [] {
      var n := |plan| - 1;
      ResumedAreSeen(s, plan[..n], t);
      assert plan == plan[..n] + [plan[n]];
    }
  }

  lemma ApplySeen(s: State, a: Action, s': State, c: CaseId, urn: Urn)
    requires IsStep(s, a, s') && a.Apply? && SeenInv(s, c, urn)
    ensures SeenInv(s', c, urn)
  {
    var plan := AppliedPlan(s, a, s');
    ResumedAreSeen(s.(boot := Done), plan, a.t);
    forall u | u in s'.tasks ensures TaskNames(s'.tasks[u], c, urn, s'.seen) {
      if u in s.tasks && u < a.t && s'.tasks[u] == s.tasks[u] {
        assert TaskNames(s.tasks[u], c, urn, s.seen);
      } else {
        PlanIsSafe(s.boot.snapshot, a.now, plan[u - a.t]);
      }
    }
    if c in s'.pending && c !in s.pending {
      var r :| r in plan && AsksAgain(r, c, s'.pending[c]);
      PlanIsSafe(s.boot.snapshot, a.now, r);
    }
  }

  lemma BootSeen(s: State, a: Action, s': State, c: CaseId, urn: Urn)
    requires IsStep(s, a, s') && (a.Read? || a.ReadFailed? || a.Crash?) && SeenInv(s, c, urn)
    ensures SeenInv(s', c, urn)
  {
  }

  lemma StepSeen(s: State, a: Action, s': State, c: CaseId, urn: Urn)
    requires IsStep(s, a, s') && Names(c, urn, a) && SeenInv(s, c, urn)
    ensures SeenInv(s', c, urn)
  {
    if a.Apply? {
      ApplySeen(s, a, s', c, urn);
    } else if !OfTask(a) {
      BootSeen(s, a, s', c, urn);
    } else if Concerns(s, a, c) {
      TaskStepSeen(s, a, s', c, urn);
    } else {
      ElsewhereFramed(s, a, s', c);
      SeenGrows(s, a, s');
      FramedSeen(s, s', c, urn);
    }
  }

  lemma {:induction false} RunSeen(states: seq<State>, actions: seq<Action>, n: nat, c: CaseId, urn: Urn)
    requires IsRun(states, actions) && n <= |actions|
    requires forall i :: 0 <= i < |actions| ==> Names(c, urn, actions[i])
    ensures SeenInv(states[n], c, urn)
  {
    if n > 0 {
      RunSeen(states, actions, n - 1, c, urn);
      assert IsStep(states[n - 1], actions[n - 1], states[n - 1 + 1]) && Names(c, urn, actions[n - 1]);
      StepSeen(states[n - 1], actions[n - 1], states[n], c, urn);
    }
  }

  // ----- what is left to mind -----------------------------------------------------------------

  /** A future that `seen` does not know of and that this degree of care minds. */
  predicate Unseen(care: Care, k: Task, c: CaseId) {
    On(k, c) && (k.WriteRow? || k.Publish? || (care != Once && k.Expiring?) || (MindsRow(care) && k.WriteFailed?))
  }

  /**
   If all triggers on a case name one decision, an accepted one comes at the right moment if and only if the
   case was never proposed, the boot has read and has not this case still to deal with, and no future is
   writing or publishing it, nor, where that matters, expiring it or giving it up.
   */
  lemma AcceptedMayOpenIff(care: Care, states: seq<State>, actions: seq<Action>, a: Action)
    requires a.Trigger? && IsRun(states, actions) && Enabled(states[|actions|], a)
    requires forall i :: 0 <= i < |actions| ==> Names(a.c, a.urn, actions[i])
    ensures var s := states[|actions|];
            MayOpen(care, s, a.c, a.draft) <==>
              && s.store.attempts[a.c] == 0 && s.boot != Waiting && !Carried(s, a.c)
              && forall t :: t in s.tasks ==> !Unseen(care, s.tasks[t], a.c)
  {
    var s := states[|actions|];
    RunSeen(states, actions, |actions|, a.c, a.urn);
    forall t | t in s.tasks
      ensures !Claims(s.tasks[t], a.c)
      ensures Unseen(care, s.tasks[t], a.c) <==>
                Hot(s.store, s.tasks[t], a.c) || Spoils(care, s.store, s.tasks[t], a.c) {
      assert TaskNames(s.tasks[t], a.c, a.urn, s.seen);
    }
  }

  /** In every run a trigger is accepted only for a decision not on the list, with fewer than 16 questions open. */
  lemma AcceptedWithinBudget(states: seq<State>, actions: seq<Action>, i: nat)
    requires IsRun(states, actions) && i < |actions| && actions[i].Trigger?
    ensures |states[i].pending| < 16 && actions[i].urn !in states[i].seen
  {
    assert IsStep(states[i], actions[i], states[i + 1]);
  }
}
