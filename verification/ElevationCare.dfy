/**
 Opening a case of decision elevation with care. `MayOpen` says when a case may be opened, at four degrees
 of care; it asks nothing about other cases. `Inv` is what every step keeps if the case is opened only then
 (src/actors/decision_elevation_actor.rs:284-479, 583-748, 824-898).
 */
module ElevationCare {
  import opened Basics
  import opened DecisionElevation
  import opened ElevationBacking
  import opened ElevationCases

  // ----- when a case may be opened ------------------------------------------------------------

  predicate Fresh(st: Store, event: Option<EventId>) {
    event.None? || event.value !in st.events
  }

  /** A decision about to be committed as an approval. */
  predicate Approves(st: Store, k: Task) {
    k.Record? && StatusFor(k.answer) == Approved && Fresh(st, k.event)
  }

  /** A future that can bring about a pull request for `c` by itself. */
  predicate Hot(st: Store, k: Task, c: CaseId) {
    On(k, c) && (k.WriteRow? || k.Publish? || k.CreatePr? || Approves(st, k))
  }

  /** A future that will claim `c` if it finds it approved. */
  predicate Claims(k: Task, c: CaseId) {
    On(k, c) && (k.Claim? || (k.Record? && k.answer == Approve))
  }

  /** Nothing that was done or is under way can propose `c`, as far as this process goes. */
  ghost predicate Clear(s: State, c: CaseId) {
    && s.store.attempts[c] == 0
    && s.boot != Waiting && !Carried(s, c) && c !in s.pending
    && (forall t :: t in s.tasks ==> !Hot(s.store, s.tasks[t], c))
    && (At(s.store, c, Approved) ==> forall t :: t in s.tasks ==> !Claims(s.tasks[t], c))
  }

  /**
   What a run is careful about: one pull request per case; also that no proposed case is expired; also
   that every proposed case stays claimed; also that its draft is the durable one.
   */
  datatype Care = Once | Unexpired | Settled | Faithful

  predicate MindsRow(care: Care) {
    care.Settled? || care.Faithful?
  }

  /** A future that will write an end into the row of `c`, whatever the row then says. */
  predicate Spoils(care: Care, st: Store, k: Task, c: CaseId) {
    && On(k, c)
    && ((!care.Once? && k.Expiring?)
        || (MindsRow(care) && (k.WriteFailed? || (k.Record? && StatusFor(k.answer) != Approved && Fresh(st, k.event)))))
  }

  ghost predicate Unspoilt(care: Care, s: State, c: CaseId) {
    forall t :: t in s.tasks ==> !Spoils(care, s.store, s.tasks[t], c)
  }

  /** Futures that would claim `c` carry this draft. */
  ghost predicate SameDraft(s: State, c: CaseId, draft: string) {
    forall t :: t in s.tasks && Claims(s.tasks[t], c) ==> s.tasks[t].draft == draft
  }

  ghost predicate MayOpen(care: Care, s: State, c: CaseId, draft: string) {
    Clear(s, c) && Unspoilt(care, s, c) && (care.Faithful? ==> SameDraft(s, c, draft))
  }

  ghost predicate Careful(care: Care, c: CaseId, s: State, a: Action) {
    a.Trigger? && a.c == c ==> MayOpen(care, s, c, a.draft)
  }

  // ----- the invariant ------------------------------------------------------------------------

  /** One opening at a time; before the boot has dealt with `c` there is none. */
  ghost predicate OneOpening(s: State, c: CaseId) {
    && (forall t, u :: t in s.tasks && u in s.tasks && Hot(s.store, s.tasks[t], c) && Hot(s.store, s.tasks[u], c)
          ==> t == u)
    && (c in s.pending ==> forall t :: t in s.tasks ==> !Hot(s.store, s.tasks[t], c))
    && (s.boot == Waiting || Carried(s, c) ==> OutOfMind(s, c))
  }

  /** An approval is the one thing left to act upon, or about to be overwritten; a question means nothing was done. */
  ghost predicate RowInStep(s: State, c: CaseId) {
    && (At(s.store, c, Approved) ==>
          c !in s.pending && forall t :: t in s.tasks && Hot(s.store, s.tasks[t], c) ==> s.tasks[t].WriteRow?)
    && (At(s.store, c, Approved) ==>
          forall t, u :: t in s.tasks && u in s.tasks ==> !(Hot(s.store, s.tasks[t], c) && Claims(s.tasks[u], c)))
    && (At(s.store, c, Pending) ==>
          s.store.attempts[c] == 0 && forall t :: t in s.tasks ==> !IsCreating(s.tasks[t], c))
    && (s.boot.Reading? ==> forall k :: k in s.boot.snapshot && Waits(k, c) ==>
          c in s.store.rows && s.store.rows[c] == k.row)
  }

  /** A case proposed once cannot be proposed again. */
  ghost predicate Spent(s: State, c: CaseId) {
    && s.store.attempts[c] <= 1
    && (s.store.attempts[c] == 1 ==>
          && c !in s.pending && !At(s.store, c, Approved)
          && forall t :: t in s.tasks ==> !Hot(s.store, s.tasks[t], c))
  }

  ghost predicate OnceInv(s: State, c: CaseId) {
    OneOpening(s, c) && RowInStep(s, c) && Spent(s, c)
  }

  /** An end that a row must not show once its case was proposed. */
  predicate Bad(care: Care, status: Status) {
    (!care.Once? && status == Expired) || (MindsRow(care) && status in {PublishFailed, Rejected, Reviewed})
  }

  predicate WellEnded(care: Care, st: Store, c: CaseId) {
    c in st.rows && !Bad(care, st.rows[c].status)
  }

  /** While an end is about to be written nothing can propose the case, and a proposed one shows no such end. */
  ghost predicate EndsInv(care: Care, s: State, c: CaseId) {
    && (Unspoilt(care, s, c) || Clear(s, c))
    && (s.store.attempts[c] == 1 ==> WellEnded(care, s.store, c))
    && (forall t :: t in s.tasks && IsCreating(s.tasks[t], c) ==> WellEnded(care, s.store, c))
  }

  /** A future that has not yet been answered by the row: whatever it does, the row says `pending`. */
  predicate Awaits(st: Store, k: Task, c: CaseId) {
    On(k, c) && (k.Publish? || k.WriteFailed? || (k.Record? && Fresh(st, k.event)))
  }

  /** Each future finds the row in the state it left it in. */
  ghost predicate PhaseInv(s: State, c: CaseId) {
    && (c in s.pending ==> At(s.store, c, Pending))
    && (forall t :: t in s.tasks && Awaits(s.store, s.tasks[t], c) ==> At(s.store, c, Pending))
    && (forall t :: t in s.tasks && IsCreating(s.tasks[t], c) ==> At(s.store, c, Applying))
    && (forall t :: t in s.tasks && On(s.tasks[t], c) && s.tasks[t].Expiring? ==>
          At(s.store, c, Pending) || At(s.store, c, Approved))
    && (forall t, u :: t in s.tasks && u in s.tasks
          ==> (Spoils(Settled, s.store, s.tasks[t], c) && Spoils(Settled, s.store, s.tasks[u], c) ==> t == u))
  }

  predicate Opening(k: Task, c: CaseId) {
    k.WriteRow? && k.c == c
  }

  predicate Carries(k: Task, c: CaseId) {
    (k.Publish? && k.c == c) || (k.CreatePr? && k.c == c) || Claims(k, c)
  }

  /** Whoever may yet propose `c` carries its durable draft, and so does whoever is about to overwrite it. */
  ghost predicate DraftInv(s: State, c: CaseId) {
    && (forall t :: t in s.tasks && Carries(s.tasks[t], c) ==> HasDraft(s.store, c, s.tasks[t].draft))
    && (forall t, u :: t in s.tasks && u in s.tasks && Opening(s.tasks[t], c) && Carries(s.tasks[u], c)
          ==> s.tasks[t].draft == s.tasks[u].draft)
    && (forall t :: t in s.tasks && On(s.tasks[t], c) && s.tasks[t].WriteStamp? ==>
          HasDraft(s.store, c, s.tasks[t].row.draft))
    && (c in s.pending ==> HasDraft(s.store, c, s.pending[c]))
    && (forall draft :: (c, draft) in s.store.proposed ==> s.store.attempts[c] == 1 && HasDraft(s.store, c, draft))
  }

  ghost predicate Inv(care: Care, s: State, c: CaseId) {
    && Grounded(s, c) && OnceInv(s, c) && EndsInv(care, s, c)
    && (MindsRow(care) ==> PhaseInv(s, c)) && (care.Faithful? ==> DraftInv(s, c))
  }

  // ----- at most once -------------------------------------------------------------------------

  lemma FrameOnce(s: State, s': State, c: CaseId)
    requires Framed(s, s', c) && OnceInv(s, c)
    ensures OnceInv(s', c)
  {
    forall u | u in s'.tasks && Hot(s'.store, s'.tasks[u], c) ensures u in s.tasks && Hot(s.store, s.tasks[u], c) {
    }
  }

  lemma TriggerOnce(s: State, a: Action, s': State)
    requires IsStep(s, a, s') && a.Trigger? && Grounded(s, a.c) && OnceInv(s, a.c) && Clear(s, a.c)
    ensures OnceInv(s', a.c)
  {
  }

  lemma DecideOnce(s: State, a: Action, s': State)
    requires IsStep(s, a, s') && a.Decide? && Grounded(s, a.c) && OnceInv(s, a.c)
    ensures OnceInv(s', a.c)
  {
  }

  lemma WriteRowOnce(s: State, a: Action, s': State, c: CaseId)
    requires IsStep(s, a, s') && a.DoWriteRow? && On(s.tasks[a.t], c) && Grounded(s, c) && OnceInv(s, c)
    ensures OnceInv(s', c)
  {
    assert Hot(s.store, s.tasks[a.t], c);
  }

  lemma PublishOnce(s: State, a: Action, s': State, c: CaseId)
    requires IsStep(s, a, s') && a.DoPublish? && On(s.tasks[a.t], c) && Grounded(s, c) && OnceInv(s, c)
    ensures OnceInv(s', c)
  {
    assert Hot(s.store, s.tasks[a.t], c);
  }

  lemma ApprovalOnce(s: State, a: Action, s': State, c: CaseId)
    requires IsStep(s, a, s') && a.DoRecord? && On(s.tasks[a.t], c) && Grounded(s, c) && OnceInv(s, c)
    requires Approves(s.store, s.tasks[a.t])
    ensures OnceInv(s', c)
  {
    assert Hot(s.store, s.tasks[a.t], c);
    forall u | u in s'.tasks ensures !Hot(s'.store, s'.tasks[u], c) {
      assert u in s.tasks && (u != a.t ==> s'.tasks[u] == s.tasks[u] && !Hot(s.store, s.tasks[u], c));
    }
    assert s.boot != Waiting && !Carried(s, c) && c !in s.pending && s.store.attempts[c] == 0;
  }

  /** An answer already recorded writes nothing; at most it goes on to claim. */
  lemma StaleOnce(s: State, a: Action, s': State, c: CaseId)
    requires IsStep(s, a, s') && a.DoRecord? && On(s.tasks[a.t], c) && OnceInv(s, c)
    requires !Fresh(s.store, s.tasks[a.t].event)
    ensures OnceInv(s', c)
  {
    if s.tasks[a.t].answer == Approve {
      NowClaims(s, a.t, s.tasks[a.t].draft, s', c);
    } else {
      FrameOnce(s, s', c);
    }
  }

  lemma NowClaims(s: State, t: TaskId, draft: string, s': State, c: CaseId)
    requires t in s.tasks && Claims(s.tasks[t], c) && OnceInv(s, c) && s' == Goto(s, t, Claim(c, draft))
    ensures OnceInv(s', c)
  {
    forall u | u in s'.tasks
      ensures Hot(s'.store, s'.tasks[u], c) ==> u in s.tasks && Hot(s.store, s.tasks[u], c)
      ensures Claims(s'.tasks[u], c) ==> u in s.tasks && Claims(s.tasks[u], c) {
    }
  }

  lemma RefusalOnce(s: State, a: Action, s': State, c: CaseId)
    requires IsStep(s, a, s') && a.DoRecord? && On(s.tasks[a.t], c) && OnceInv(s, c)
    requires StatusFor(s.tasks[a.t].answer) != Approved && Fresh(s.store, s.tasks[a.t].event)
    ensures OnceInv(s', c)
  {
  }

  lemma OtherRecordOnce(s: State, a: Action, s': State, c: CaseId)
    requires IsStep(s, a, s') && a.DoRecord? && On(s.tasks[a.t], c) && OnceInv(s, c)
    requires !Approves(s.store, s.tasks[a.t])
    ensures OnceInv(s', c)
  {
    if Fresh(s.store, s.tasks[a.t].event) {
      RefusalOnce(s, a, s', c);
    } else {
      StaleOnce(s, a, s', c);
    }
  }

  lemma ClaimOnce(s: State, a: Action, s': State, c: CaseId)
    requires IsStep(s, a, s') && a.DoClaim? && On(s.tasks[a.t], c) && Grounded(s, c) && OnceInv(s, c)
    ensures OnceInv(s', c)
  {
    assert Claims(s.tasks[a.t], c);
  }

  lemma CreateOnce(s: State, a: Action, s': State, c: CaseId)
    requires IsStep(s, a, s') && a.DoCreatePr? && On(s.tasks[a.t], c) && Grounded(s, c) && OnceInv(s, c)
    ensures OnceInv(s', c)
  {
    assert Hot(s.store, s.tasks[a.t], c);
  }

  lemma EndOnce(s: State, a: Action, s': State, c: CaseId)
    requires IsStep(s, a, s') && (a.DoWriteFailed? || a.DoExpire?) && On(s.tasks[a.t], c) && Grounded(s, c)
    requires OnceInv(s, c)
    ensures OnceInv(s', c)
  {
  }

  lemma StampOnce(s: State, a: Action, s': State, c: CaseId)
    requires IsStep(s, a, s') && (a.DoStamp? || a.DoWriteStamp?) && On(s.tasks[a.t], c) && Grounded(s, c)
    requires OnceInv(s, c)
    ensures OnceInv(s', c)
  {
    assert TaskGrounded(s.store, s.tasks[a.t], c);
  }

  lemma ResolveOnce(s: State, a: Action, s': State)
    requires IsStep(s, a, s') && a.DoResolve? && Grounded(s, a.c) && OnceInv(s, a.c)
    ensures OnceInv(s', a.c)
  {
    assert TaskGrounded(s.store, s.tasks[a.t], a.c);
  }

  lemma BootOnce(s: State, a: Action, s': State, c: CaseId)
    requires IsStep(s, a, s') && (a.Read? || a.ReadFailed? || a.Crash?) && Grounded(s, c) && OnceInv(s, c)
    ensures OnceInv(s', c)
  {
  }

  lemma CarriedOnce(s: State, s': State, k: Case)
    requires TakenUp(s, s', k) && s.boot.Reading? && k in s.boot.snapshot && Waits(k, k.id) && OnceInv(s, k.id)
    ensures OnceInv(s', k.id)
  {
  }

  /** A step of some future on `c`. */
  lemma OwnOnce(s: State, a: Action, s': State, c: CaseId)
    requires IsStep(s, a, s') && OfTask(a) && a.t in s.tasks && On(s.tasks[a.t], c) && Grounded(s, c) && OnceInv(s, c)
    ensures OnceInv(s', c)
  {
    match a {
      case DoWriteRow(_) => WriteRowOnce(s, a, s', c);
      case DoPublish(_, _) => PublishOnce(s, a, s', c);
      case DoRecord(_) =>
        if Approves(s.store, s.tasks[a.t]) {
          ApprovalOnce(s, a, s', c);
        } else {
          OtherRecordOnce(s, a, s', c);
        }
      case DoClaim(_) => ClaimOnce(s, a, s', c);
      case DoCreatePr(_, _) => CreateOnce(s, a, s', c);
      case DoStamp(_, _) => StampOnce(s, a, s', c);
      case DoWriteStamp(_, _) => StampOnce(s, a, s', c);
      case DoWriteFailed(_) => EndOnce(s, a, s', c);
      case DoExpire(_) => EndOnce(s, a, s', c);
      case Abort(_) => AbortOnce(s, a, s', c);
    }
  }

  lemma AbortOnce(s: State, a: Action, s': State, c: CaseId)
    requires IsStep(s, a, s') && a.Abort? && OnceInv(s, c)
    ensures OnceInv(s', c)
  {
    FrameOnce(s, s', c);
  }

  lemma ApplyOnce(s: State, a: Action, s': State, c: CaseId)
    requires IsStep(s, a, s') && a.Apply? && Grounded(s, c) && OnceInv(s, c)
    ensures OnceInv(s', c)
  {
    if Carried(s, c) {
      var k :| k in s.boot.snapshot && Waits(k, c);
      ApplyCarried(s, a, s', k);
      CarriedOnce(s, s', k);
    } else {
      ApplyElsewhere(s, a, s', c);
      FrameOnce(s, s', c);
    }
  }

  lemma StepOnce(care: Care, s: State, a: Action, s': State, c: CaseId)
    requires IsStep(s, a, s') && Careful(care, c, s, a) && Grounded(s, c) && OnceInv(s, c)
    ensures OnceInv(s', c)
  {
    if a.Apply? {
      ApplyOnce(s, a, s', c);
    } else if !OfTask(a) {
      BootOnce(s, a, s', c);
    } else if !Concerns(s, a, c) {
      ElsewhereFramed(s, a, s', c);
      FrameOnce(s, s', c);
    } else if a.Trigger? {
      TriggerOnce(s, a, s');
    } else if a.Decide? {
      DecideOnce(s, a, s');
    } else if a.DoResolve? {
      ResolveOnce(s, a, s');
    } else {
      OwnOnce(s, a, s', c);
    }
  }

  // ----- how cases end ------------------------------------------------------------------------

  lemma FrameEnds(care: Care, s: State, s': State, c: CaseId)
    requires Framed(s, s', c) && EndsInv(care, s, c)
    ensures EndsInv(care, s', c)
  {
    forall u | u in s'.tasks ensures Hot(s'.store, s'.tasks[u], c) ==> u in s.tasks && Hot(s.store, s.tasks[u], c) {
    }
    forall u | u in s'.tasks ensures Claims(s'.tasks[u], c) ==> u in s.tasks && Claims(s.tasks[u], c) {
    }
    forall u | u in s'.tasks
      ensures Spoils(care, s'.store, s'.tasks[u], c) ==> u in s.tasks && Spoils(care, s.store, s.tasks[u], c) {
    }
  }

  lemma TriggerEnds(care: Care, s: State, a: Action, s': State)
    requires IsStep(s, a, s') && a.Trigger? && MayOpen(care, s, a.c, a.draft) && EndsInv(care, s, a.c)
    ensures EndsInv(care, s', a.c)
  {
  }

  lemma DecideEnds(care: Care, s: State, a: Action, s': State)
    requires IsStep(s, a, s') && a.Decide? && OnceInv(s, a.c) && EndsInv(care, s, a.c)
    ensures EndsInv(care, s', a.c)
  {
    assert !Clear(s, a.c);
    if StatusFor(a.answer) != Approved {
      assert Clear(s', a.c);
    }
  }

  lemma WriteRowEnds(care: Care, s: State, a: Action, s': State, c: CaseId)
    requires IsStep(s, a, s') && a.DoWriteRow? && On(s.tasks[a.t], c) && OnceInv(s, c) && EndsInv(care, s, c)
    ensures EndsInv(care, s', c)
  {
    assert Hot(s.store, s.tasks[a.t], c);
  }

  lemma PublishEnds(care: Care, s: State, a: Action, s': State, c: CaseId)
    requires IsStep(s, a, s') && a.DoPublish? && On(s.tasks[a.t], c) && OnceInv(s, c) && EndsInv(care, s, c)
    ensures EndsInv(care, s', c)
  {
    assert Hot(s.store, s.tasks[a.t], c);
    if !a.ok {
      assert Clear(s', c);
    }
  }

  lemma ApprovalEnds(care: Care, s: State, a: Action, s': State, c: CaseId)
    requires IsStep(s, a, s') && a.DoRecord? && On(s.tasks[a.t], c) && OnceInv(s, c) && EndsInv(care, s, c)
    requires Approves(s.store, s.tasks[a.t])
    ensures EndsInv(care, s', c)
  {
    assert Hot(s.store, s.tasks[a.t], c);
  }

  lemma StaleEnds(care: Care, s: State, a: Action, s': State, c: CaseId)
    requires IsStep(s, a, s') && a.DoRecord? && On(s.tasks[a.t], c) && EndsInv(care, s, c)
    requires !Fresh(s.store, s.tasks[a.t].event)
    ensures EndsInv(care, s', c)
  {
  }

  lemma RefusalEnds(care: Care, s: State, a: Action, s': State, c: CaseId)
    requires IsStep(s, a, s') && a.DoRecord? && On(s.tasks[a.t], c) && OnceInv(s, c) && EndsInv(care, s, c)
    requires StatusFor(s.tasks[a.t].answer) != Approved && Fresh(s.store, s.tasks[a.t].event)
    ensures EndsInv(care, s', c)
  {
  }

  lemma OtherRecordEnds(care: Care, s: State, a: Action, s': State, c: CaseId)
    requires IsStep(s, a, s') && a.DoRecord? && On(s.tasks[a.t], c) && OnceInv(s, c) && EndsInv(care, s, c)
    requires !Approves(s.store, s.tasks[a.t])
    ensures EndsInv(care, s', c)
  {
    if Fresh(s.store, s.tasks[a.t].event) {
      RefusalEnds(care, s, a, s', c);
    } else {
      StaleEnds(care, s, a, s', c);
    }
  }

  lemma ClaimEnds(care: Care, s: State, a: Action, s': State, c: CaseId)
    requires IsStep(s, a, s') && a.DoClaim? && On(s.tasks[a.t], c) && OnceInv(s, c) && EndsInv(care, s, c)
    ensures EndsInv(care, s', c)
  {
    assert Claims(s.tasks[a.t], c);
  }

  lemma CreateEnds(care: Care, s: State, a: Action, s': State, c: CaseId)
    requires IsStep(s, a, s') && a.DoCreatePr? && On(s.tasks[a.t], c) && OnceInv(s, c) && EndsInv(care, s, c)
    ensures EndsInv(care, s', c)
  {
    assert Hot(s.store, s.tasks[a.t], c);
  }

  lemma EndEnds(care: Care, s: State, a: Action, s': State, c: CaseId)
    requires IsStep(s, a, s') && (a.DoWriteFailed? || a.DoExpire?) && On(s.tasks[a.t], c)
    requires OnceInv(s, c) && EndsInv(care, s, c)
    ensures EndsInv(care, s', c)
  {
  }

  lemma StampEnds(care: Care, s: State, a: Action, s': State, c: CaseId)
    requires IsStep(s, a, s') && (a.DoStamp? || a.DoWriteStamp?) && On(s.tasks[a.t], c)
    requires Grounded(s, c) && OnceInv(s, c) && EndsInv(care, s, c)
    ensures EndsInv(care, s', c)
  {
    assert TaskGrounded(s.store, s.tasks[a.t], c);
  }

  lemma ResolveEnds(care: Care, s: State, a: Action, s': State)
    requires IsStep(s, a, s') && a.DoResolve? && Grounded(s, a.c) && OnceInv(s, a.c) && EndsInv(care, s, a.c)
    ensures EndsInv(care, s', a.c)
  {
    assert TaskGrounded(s.store, s.tasks[a.t], a.c);
  }

  lemma BootEnds(care: Care, s: State, a: Action, s': State, c: CaseId)
    requires IsStep(s, a, s') && (a.Read? || a.ReadFailed? || a.Crash?) && OnceInv(s, c) && EndsInv(care, s, c)
    ensures EndsInv(care, s', c)
  {
  }

  lemma CarriedEnds(care: Care, s: State, s': State, k: Case)
    requires TakenUp(s, s', k) && s.boot.Reading? && k in s.boot.snapshot && Waits(k, k.id)
    requires OnceInv(s, k.id) && EndsInv(care, s, k.id)
    ensures EndsInv(care, s', k.id)
  {
    if u :| u in s'.tasks && On(s'.tasks[u], k.id) && s'.tasks[u].Expiring? {
      assert Clear(s', k.id);
    } else {
      assert Unspoilt(care, s', k.id);
    }
  }

  lemma OwnEnds(care: Care, s: State, a: Action, s': State, c: CaseId)
    requires IsStep(s, a, s') && OfTask(a) && a.t in s.tasks && On(s.tasks[a.t], c)
    requires Grounded(s, c) && OnceInv(s, c) && EndsInv(care, s, c)
    ensures EndsInv(care, s', c)
  {
    match a {
      case DoWriteRow(_) => WriteRowEnds(care, s, a, s', c);
      case DoPublish(_, _) => PublishEnds(care, s, a, s', c);
      case DoRecord(_) =>
        if Approves(s.store, s.tasks[a.t]) {
          ApprovalEnds(care, s, a, s', c);
        } else {
          OtherRecordEnds(care, s, a, s', c);
        }
      case DoClaim(_) => ClaimEnds(care, s, a, s', c);
      case DoCreatePr(_, _) => CreateEnds(care, s, a, s', c);
      case DoStamp(_, _) => StampEnds(care, s, a, s', c);
      case DoWriteStamp(_, _) => StampEnds(care, s, a, s', c);
      case DoWriteFailed(_) => EndEnds(care, s, a, s', c);
      case DoExpire(_) => EndEnds(care, s, a, s', c);
      case Abort(_) => AbortEnds(care, s, a, s', c);
    }
  }

  lemma AbortEnds(care: Care, s: State, a: Action, s': State, c: CaseId)
    requires IsStep(s, a, s') && a.Abort? && EndsInv(care, s, c)
    ensures EndsInv(care, s', c)
  {
    FrameEnds(care, s, s', c);
  }

  lemma ApplyEnds(care: Care, s: State, a: Action, s': State, c: CaseId)
    requires IsStep(s, a, s') && a.Apply? && Grounded(s, c) && OnceInv(s, c) && EndsInv(care, s, c)
    ensures EndsInv(care, s', c)
  {
    if Carried(s, c) {
      var k :| k in s.boot.snapshot && Waits(k, c);
      ApplyCarried(s, a, s', k);
      CarriedEnds(care, s, s', k);
    } else {
      ApplyElsewhere(s, a, s', c);
      FrameEnds(care, s, s', c);
    }
  }

  lemma StepEnds(care: Care, s: State, a: Action, s': State, c: CaseId)
    requires IsStep(s, a, s') && Careful(care, c, s, a) && Grounded(s, c) && OnceInv(s, c) && EndsInv(care, s, c)
    ensures EndsInv(care, s', c)
  {
    if a.Apply? {
      ApplyEnds(care, s, a, s', c);
    } else if !OfTask(a) {
      BootEnds(care, s, a, s', c);
    } else if !Concerns(s, a, c) {
      ElsewhereFramed(s, a, s', c);
      FrameEnds(care, s, s', c);
    } else if a.Trigger? {
      TriggerEnds(care, s, a, s');
    } else if a.Decide? {
      DecideEnds(care, s, a, s');
    } else if a.DoResolve? {
      ResolveEnds(care, s, a, s');
    } else {
      OwnEnds(care, s, a, s', c);
    }
  }

  // ----- what each future finds ---------------------------------------------------------------

  lemma FramePhase(s: State, s': State, c: CaseId)
    requires Framed(s, s', c) && PhaseInv(s, c)
    ensures PhaseInv(s', c)
  {
    forall u | u in s'.tasks
      ensures Spoils(Settled, s'.store, s'.tasks[u], c) ==> u in s.tasks && Spoils(Settled, s.store, s.tasks[u], c)
      ensures Awaits(s'.store, s'.tasks[u], c) ==> u in s.tasks && Awaits(s.store, s.tasks[u], c) {
    }
  }

  /** The case is not clear, so no end of it is about to be written. */
  ghost predicate Engaged(s: State, c: CaseId) {
    !Clear(s, c) && Unspoilt(Settled, s, c)
  }

  lemma TriggerPhase(s: State, a: Action, s': State)
    requires IsStep(s, a, s') && a.Trigger? && PhaseInv(s, a.c)
    ensures PhaseInv(s', a.c)
  {
  }

  lemma DecidePhase(s: State, a: Action, s': State)
    requires IsStep(s, a, s') && a.Decide? && OnceInv(s, a.c) && PhaseInv(s, a.c) && Engaged(s, a.c)
    ensures PhaseInv(s', a.c)
  {
  }

  lemma WriteRowPhase(s: State, a: Action, s': State, c: CaseId)
    requires IsStep(s, a, s') && a.DoWriteRow? && On(s.tasks[a.t], c) && OnceInv(s, c) && PhaseInv(s, c)
    requires Engaged(s, c)
    ensures PhaseInv(s', c)
  {
    assert Hot(s.store, s.tasks[a.t], c);
  }

  lemma PublishPhase(s: State, a: Action, s': State, c: CaseId)
    requires IsStep(s, a, s') && a.DoPublish? && On(s.tasks[a.t], c) && OnceInv(s, c) && PhaseInv(s, c) && Engaged(s, c)
    ensures PhaseInv(s', c)
  {
    assert Hot(s.store, s.tasks[a.t], c);
  }

  lemma ApprovalPhase(s: State, a: Action, s': State, c: CaseId)
    requires IsStep(s, a, s') && a.DoRecord? && On(s.tasks[a.t], c) && Approves(s.store, s.tasks[a.t])
    requires OnceInv(s, c) && PhaseInv(s, c) && Engaged(s, c)
    ensures PhaseInv(s', c)
  {
    assert Hot(s.store, s.tasks[a.t], c);
    forall u | u in s.tasks && u != a.t ensures !Awaits(s.store, s.tasks[u], c) {
      assert !Hot(s.store, s.tasks[u], c) && !Spoils(Settled, s.store, s.tasks[u], c);
    }
  }

  lemma RefusalPhase(s: State, a: Action, s': State, c: CaseId)
    requires IsStep(s, a, s') && a.DoRecord? && On(s.tasks[a.t], c) && PhaseInv(s, c) && Clear(s, c)
    requires Spoils(Settled, s.store, s.tasks[a.t], c)
    ensures PhaseInv(s', c)
  {
    LastOne(s, a.t, c);
  }

  /** The one future about to write an end is the one future that relies on the row. */
  lemma LastOne(s: State, t: TaskId, c: CaseId)
    requires PhaseInv(s, c) && Clear(s, c) && t in s.tasks && Spoils(Settled, s.store, s.tasks[t], c)
    ensures forall u :: u in s.tasks && u != t ==>
              !Awaits(s.store, s.tasks[u], c) && !(On(s.tasks[u], c) && s.tasks[u].Expiring?)
  {
    forall u | u in s.tasks && u != t
      ensures !Awaits(s.store, s.tasks[u], c) && !(On(s.tasks[u], c) && s.tasks[u].Expiring?) {
      assert !Hot(s.store, s.tasks[u], c) && !Spoils(Settled, s.store, s.tasks[u], c);
    }
  }

  lemma StalePhase(s: State, a: Action, s': State, c: CaseId)
    requires IsStep(s, a, s') && a.DoRecord? && On(s.tasks[a.t], c) && PhaseInv(s, c)
    requires !Fresh(s.store, s.tasks[a.t].event)
    ensures PhaseInv(s', c)
  {
  }

  lemma ClaimPhase(s: State, a: Action, s': State, c: CaseId)
    requires IsStep(s, a, s') && a.DoClaim? && On(s.tasks[a.t], c) && OnceInv(s, c) && PhaseInv(s, c)
    requires Unspoilt(Settled, s, c) || Clear(s, c)
    ensures PhaseInv(s', c)
  {
    assert Claims(s.tasks[a.t], c);
  }

  lemma CreatePhase(s: State, a: Action, s': State, c: CaseId)
    requires IsStep(s, a, s') && a.DoCreatePr? && On(s.tasks[a.t], c) && PhaseInv(s, c)
    ensures PhaseInv(s', c)
  {
  }

  lemma EndPhase(s: State, a: Action, s': State, c: CaseId)
    requires IsStep(s, a, s') && (a.DoWriteFailed? || a.DoExpire?) && On(s.tasks[a.t], c) && PhaseInv(s, c)
    requires Clear(s, c)
    ensures PhaseInv(s', c)
  {
    LastOne(s, a.t, c);
  }

  /** A case that was proposed relies on nothing but git. */
  lemma ProposedAwaitsNothing(s: State, c: CaseId)
    requires OnceInv(s, c) && PhaseInv(s, c) && s.store.attempts[c] > 0 && Engaged(s, c)
    ensures forall u :: u in s.tasks ==>
              !Awaits(s.store, s.tasks[u], c) && !IsCreating(s.tasks[u], c)
                && !(On(s.tasks[u], c) && s.tasks[u].Expiring?)
  {
    forall u | u in s.tasks ensures !Awaits(s.store, s.tasks[u], c) && !(On(s.tasks[u], c) && s.tasks[u].Expiring?) {
      assert !Hot(s.store, s.tasks[u], c) && !Spoils(Settled, s.store, s.tasks[u], c);
    }
  }

  lemma StampPhase(s: State, a: Action, s': State, c: CaseId)
    requires IsStep(s, a, s') && (a.DoStamp? || a.DoWriteStamp?) && On(s.tasks[a.t], c)
    requires Grounded(s, c) && OnceInv(s, c) && PhaseInv(s, c) && (Unspoilt(Settled, s, c) || Clear(s, c))
    ensures PhaseInv(s', c)
  {
    assert TaskGrounded(s.store, s.tasks[a.t], c);
    ProposedAwaitsNothing(s, c);
  }

  lemma ResolvePhase(s: State, a: Action, s': State)
    requires IsStep(s, a, s') && a.DoResolve? && Grounded(s, a.c) && OnceInv(s, a.c) && PhaseInv(s, a.c)
    requires Unspoilt(Settled, s, a.c) || Clear(s, a.c)
    ensures PhaseInv(s', a.c)
  {
    assert TaskGrounded(s.store, s.tasks[a.t], a.c);
    ProposedAwaitsNothing(s, a.c);
  }

  lemma BootPhase(s: State, a: Action, s': State, c: CaseId)
    requires IsStep(s, a, s') && (a.Read? || a.ReadFailed? || a.Crash?) && PhaseInv(s, c)
    ensures PhaseInv(s', c)
  {
  }

  lemma CarriedPhase(s: State, s': State, k: Case)
    requires TakenUp(s, s', k) && s.boot.Reading? && k in s.boot.snapshot && Waits(k, k.id) && OnceInv(s, k.id)
    ensures PhaseInv(s', k.id)
  {
  }

  lemma RecordPhase(s: State, a: Action, s': State, c: CaseId)
    requires IsStep(s, a, s') && a.DoRecord? && On(s.tasks[a.t], c) && OnceInv(s, c) && PhaseInv(s, c)
    requires Unspoilt(Settled, s, c) || Clear(s, c)
    ensures PhaseInv(s', c)
  {
    if !Fresh(s.store, s.tasks[a.t].event) {
      StalePhase(s, a, s', c);
    } else if Approves(s.store, s.tasks[a.t]) {
      assert Hot(s.store, s.tasks[a.t], c);
      ApprovalPhase(s, a, s', c);
    } else {
      RefusalPhase(s, a, s', c);
    }
  }

  lemma OwnPhase(s: State, a: Action, s': State, c: CaseId)
    requires IsStep(s, a, s') && OfTask(a) && a.t in s.tasks && On(s.tasks[a.t], c)
    requires Grounded(s, c) && OnceInv(s, c) && PhaseInv(s, c) && (Unspoilt(Settled, s, c) || Clear(s, c))
    ensures PhaseInv(s', c)
  {
    assert Hot(s.store, s.tasks[a.t], c) ==> !Clear(s, c);
    match a {
      case DoWriteRow(_) => WriteRowPhase(s, a, s', c);
      case DoPublish(_, _) => PublishPhase(s, a, s', c);
      case DoRecord(_) => RecordPhase(s, a, s', c);
      case DoClaim(_) => ClaimPhase(s, a, s', c);
      case DoCreatePr(_, _) => CreatePhase(s, a, s', c);
      case DoStamp(_, _) => StampPhase(s, a, s', c);
      case DoWriteStamp(_, _) => StampPhase(s, a, s', c);
      case DoWriteFailed(_) => EndPhase(s, a, s', c);
      case DoExpire(_) => EndPhase(s, a, s', c);
      case Abort(_) => AbortPhase(s, a, s', c);
    }
  }

  lemma AbortPhase(s: State, a: Action, s': State, c: CaseId)
    requires IsStep(s, a, s') && a.Abort? && PhaseInv(s, c)
    ensures PhaseInv(s', c)
  {
    FramePhase(s, s', c);
  }

  lemma ApplyPhase(s: State, a: Action, s': State, c: CaseId)
    requires IsStep(s, a, s') && a.Apply? && Grounded(s, c) && OnceInv(s, c) && PhaseInv(s, c)
    ensures PhaseInv(s', c)
  {
    if Carried(s, c) {
      var k :| k in s.boot.snapshot && Waits(k, c);
      ApplyCarried(s, a, s', k);
      CarriedPhase(s, s', k);
    } else {
      ApplyElsewhere(s, a, s', c);
      FramePhase(s, s', c);
    }
  }

  lemma StepPhase(care: Care, s: State, a: Action, s': State, c: CaseId)
    requires IsStep(s, a, s') && MindsRow(care) && Grounded(s, c) && OnceInv(s, c) && EndsInv(care, s, c)
    requires PhaseInv(s, c)
    ensures PhaseInv(s', c)
  {
    SpoilsAlike(care, s, c);
    if a.Apply? {
      ApplyPhase(s, a, s', c);
    } else if !OfTask(a) {
      BootPhase(s, a, s', c);
    } else if !Concerns(s, a, c) {
      ElsewhereFramed(s, a, s', c);
      FramePhase(s, s', c);
    } else if a.Trigger? {
      TriggerPhase(s, a, s');
    } else if a.Decide? {
      DecidePhase(s, a, s');
    } else if a.DoResolve? {
      ResolvePhase(s, a, s');
    } else {
      OwnPhase(s, a, s', c);
    }
  }

  lemma SpoilsAlike(care: Care, s: State, c: CaseId)
    requires MindsRow(care)
    ensures Unspoilt(care, s, c) <==> Unspoilt(Settled, s, c)
  {
    forall t | t in s.tasks ensures Spoils(care, s.store, s.tasks[t], c) == Spoils(Settled, s.store, s.tasks[t], c) {
    }
  }

  // ----- what is proposed ---------------------------------------------------------------------

  lemma FrameDraft(s: State, s': State, c: CaseId)
    requires Framed(s, s', c) && DraftInv(s, c)
    ensures DraftInv(s', c)
  {
  }

  lemma TriggerDraft(s: State, a: Action, s': State)
    requires IsStep(s, a, s') && a.Trigger? && MayOpen(Faithful, s, a.c, a.draft) && DraftInv(s, a.c)
    ensures DraftInv(s', a.c)
  {
  }

  lemma DecideDraft(s: State, a: Action, s': State)
    requires IsStep(s, a, s') && a.Decide? && OnceInv(s, a.c) && DraftInv(s, a.c)
    ensures DraftInv(s', a.c)
  {
    forall t | t in s.tasks && s.tasks[t].WriteRow? ensures s.tasks[t].c != a.c {
      assert Hot(s.store, s.tasks[t], s.tasks[t].c);
    }
  }

  lemma WriteRowDraft(s: State, a: Action, s': State, c: CaseId)
    requires IsStep(s, a, s') && a.DoWriteRow? && On(s.tasks[a.t], c) && Grounded(s, c) && OnceInv(s, c)
    requires DraftInv(s, c)
    ensures DraftInv(s', c)
  {
    assert Hot(s.store, s.tasks[a.t], c);
    forall t | t in s.tasks && On(s.tasks[t], c) ensures !s.tasks[t].WriteStamp? {
      assert TaskGrounded(s.store, s.tasks[t], c);
    }
  }

  lemma PublishDraft(s: State, a: Action, s': State, c: CaseId)
    requires IsStep(s, a, s') && a.DoPublish? && On(s.tasks[a.t], c) && OnceInv(s, c) && DraftInv(s, c)
    ensures DraftInv(s', c)
  {
    assert Hot(s.store, s.tasks[a.t], c);
  }

  lemma RecordDraft(s: State, a: Action, s': State, c: CaseId)
    requires IsStep(s, a, s') && a.DoRecord? && On(s.tasks[a.t], c) && DraftInv(s, c)
    ensures DraftInv(s', c)
  {
  }

  lemma ClaimDraft(s: State, a: Action, s': State, c: CaseId)
    requires IsStep(s, a, s') && a.DoClaim? && On(s.tasks[a.t], c) && DraftInv(s, c)
    ensures DraftInv(s', c)
  {
  }

  lemma CreateDraft(s: State, a: Action, s': State, c: CaseId)
    requires IsStep(s, a, s') && a.DoCreatePr? && On(s.tasks[a.t], c) && OnceInv(s, c) && DraftInv(s, c)
    ensures DraftInv(s', c)
  {
    assert Hot(s.store, s.tasks[a.t], c);
  }

  lemma EndDraft(s: State, a: Action, s': State, c: CaseId)
    requires IsStep(s, a, s') && (a.DoWriteFailed? || a.DoExpire?) && On(s.tasks[a.t], c) && DraftInv(s, c)
    ensures DraftInv(s', c)
  {
  }

  lemma StampDraft(s: State, a: Action, s': State, c: CaseId)
    requires IsStep(s, a, s') && a.DoStamp? && On(s.tasks[a.t], c) && DraftInv(s, c)
    ensures DraftInv(s', c)
  {
  }

  lemma WriteStampDraft(s: State, a: Action, s': State, c: CaseId)
    requires IsStep(s, a, s') && a.DoWriteStamp? && On(s.tasks[a.t], c) && DraftInv(s, c)
    ensures DraftInv(s', c)
  {
  }

  lemma ResolveDraft(s: State, a: Action, s': State)
    requires IsStep(s, a, s') && a.DoResolve? && DraftInv(s, a.c)
    ensures DraftInv(s', a.c)
  {
  }

  lemma CarriedDraft(s: State, s': State, k: Case)
    requires TakenUp(s, s', k) && s.boot.Reading? && k in s.boot.snapshot && Waits(k, k.id)
    requires OnceInv(s, k.id) && DraftInv(s, k.id)
    ensures DraftInv(s', k.id)
  {
  }

  lemma BootDraft(s: State, a: Action, s': State, c: CaseId)
    requires IsStep(s, a, s') && (a.Read? || a.ReadFailed? || a.Crash?) && DraftInv(s, c)
    ensures DraftInv(s', c)
  {
  }

  lemma OwnDraft(s: State, a: Action, s': State, c: CaseId)
    requires IsStep(s, a, s') && OfTask(a) && a.t in s.tasks && On(s.tasks[a.t], c)
    requires Grounded(s, c) && OnceInv(s, c) && DraftInv(s, c)
    ensures DraftInv(s', c)
  {
    match a {
      case DoWriteRow(_) => WriteRowDraft(s, a, s', c);
      case DoPublish(_, _) => PublishDraft(s, a, s', c);
      case DoRecord(_) => RecordDraft(s, a, s', c);
      case DoClaim(_) => ClaimDraft(s, a, s', c);
      case DoCreatePr(_, _) => CreateDraft(s, a, s', c);
      case DoStamp(_, _) => StampDraft(s, a, s', c);
      case DoWriteStamp(_, _) => WriteStampDraft(s, a, s', c);
      case DoWriteFailed(_) => EndDraft(s, a, s', c);
      case DoExpire(_) => EndDraft(s, a, s', c);
      case Abort(_) => AbortDraft(s, a, s', c);
    }
  }

  lemma AbortDraft(s: State, a: Action, s': State, c: CaseId)
    requires IsStep(s, a, s') && a.Abort? && DraftInv(s, c)
    ensures DraftInv(s', c)
  {
    FrameDraft(s, s', c);
  }

  lemma ApplyDraft(s: State, a: Action, s': State, c: CaseId)
    requires IsStep(s, a, s') && a.Apply? && Grounded(s, c) && OnceInv(s, c) && DraftInv(s, c)
    ensures DraftInv(s', c)
  {
    if Carried(s, c) {
      var k :| k in s.boot.snapshot && Waits(k, c);
      ApplyCarried(s, a, s', k);
      CarriedDraft(s, s', k);
    } else {
      ApplyElsewhere(s, a, s', c);
      FrameDraft(s, s', c);
    }
  }

  lemma StepDraft(s: State, a: Action, s': State, c: CaseId)
    requires IsStep(s, a, s') && Careful(Faithful, c, s, a) && Grounded(s, c) && OnceInv(s, c) && DraftInv(s, c)
    ensures DraftInv(s', c)
  {
    if a.Apply? {
      ApplyDraft(s, a, s', c);
    } else if !OfTask(a) {
      BootDraft(s, a, s', c);
    } else if !Concerns(s, a, c) {
      ElsewhereFramed(s, a, s', c);
      FrameDraft(s, s', c);
    } else if a.Trigger? {
      TriggerDraft(s, a, s');
    } else if a.Decide? {
      DecideDraft(s, a, s');
    } else if a.DoResolve? {
      ResolveDraft(s, a, s');
    } else {
      OwnDraft(s, a, s', c);
    }
  }

  // ----- every step ---------------------------------------------------------------------------

  lemma StepKeepsInv(care: Care, s: State, a: Action, s': State, c: CaseId)
    requires Inv(care, s, c) && IsStep(s, a, s') && Careful(care, c, s, a)
    ensures Inv(care, s', c)
  {
    StepGrounded(s, a, s', c);
    StepOnce(care, s, a, s', c);
    StepEnds(care, s, a, s', c);
    if MindsRow(care) {
      StepPhase(care, s, a, s', c);
    }
    if care.Faithful? {
      StepDraft(s, a, s', c);
    }
  }
}
