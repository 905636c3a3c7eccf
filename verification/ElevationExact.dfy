/**
 The exact condition for opening a case. After any run that was careful about a case, a trigger on it that
 the actor accepts can do harm, at each degree of care, if and only if the case may not be opened
 (src/actors/decision_elevation_actor.rs:284-479, 583-719, 824-898).
 */
module ElevationExact {
  import opened Basics
  import opened DecisionElevation
  import opened ElevationCases
  import opened ElevationCare
  import opened ElevationSafety
  import opened ElevationLimits

  /** What a degree of care is there to prevent. */
  ghost predicate Harm(care: Care, st: Store, c: CaseId) {
    match care
    case Once => st.attempts[c] >= 2
    case Unexpired => st.attempts[c] >= 1 && At(st, c, Expired)
    case Settled => st.attempts[c] >= 1 && !Applied(st, c)
    case Faithful =>
      || (st.attempts[c] >= 1 && !Applied(st, c))
      || exists draft :: (c, draft) in st.proposed && !HasDraft(st, c, draft)
  }

  ghost predicate CarefulPath(care: Care, c: CaseId, states: seq<State>, actions: seq<Action>) {
    IsPath(states, actions) && forall i :: 0 <= i < |actions| ==> Careful(care, c, states[i], actions[i])
  }

  /** Harm can follow from `s`, with no careless trigger on `c` from there on. */
  ghost predicate CanHarm(care: Care, s: State, c: CaseId) {
    exists states: seq<State>, actions: seq<Action> ::
      CarefulPath(care, c, states, actions) && states[0] == s && Harm(care, states[|actions|].store, c)
  }

  lemma LeadsToHarm(care: Care, s: State, s': State, c: CaseId)
    requires Leads(s, s') && Harm(care, s'.store, c)
    ensures CanHarm(care, s, c)
  {
    var states: seq<State>, actions: seq<Action> :|
      IsPath(states, actions) && states[0] == s && states[|actions|] == s' && !Opens(actions);
    forall i | 0 <= i < |actions| ensures Careful(care, c, states[i], actions[i]) {
      assert !actions[i].Trigger?;
    }
  }

  /** A proposed case that was expired is harmed at every degree of care but the first. */
  lemma LeadsToExpiry(care: Care, s: State, s': State, c: CaseId)
    requires Leads(s, s') && care != Once && s'.store.attempts[c] >= 1 && At(s'.store, c, Expired)
    ensures CanHarm(care, s, c)
  {
    LeadsToHarm(care, s, s', c);
  }

  // ----- no harm when opened with care --------------------------------------------------------

  lemma CarefulOn(care: Care, c: CaseId, states: seq<State>, actions: seq<Action>, a: Action,
                  states': seq<State>, actions': seq<Action>)
    requires CarefulRun(care, c, states, actions)
    requires Enabled(states[|actions|], a) && Careful(care, c, states[|actions|], a)
    requires CarefulPath(care, c, states', actions') && states'[0] == Step(states[|actions|], a)
    ensures CarefulRun(care, c, states + states', actions + [a] + actions')
  {
    var all, done := states + states', actions + [a] + actions';
    forall i | 0 <= i < |done| ensures IsStep(all[i], done[i], all[i + 1]) && Careful(care, c, all[i], done[i]) {
      if i < |actions| {
        assert IsStep(states[i], actions[i], states[i + 1]);
      } else if i > |actions| {
        var j := i - |actions| - 1;
        assert IsStep(states'[j], actions'[j], states'[j + 1]);
      }
    }
  }

  lemma NoHarmDone(care: Care, c: CaseId, states: seq<State>, actions: seq<Action>, n: nat)
    requires CarefulRun(care, c, states, actions) && n <= |actions|
    ensures !Harm(care, states[n].store, c)
  {
    AtMostOneAttempt(care, c, states, actions, n);
    if care.Unexpired? {
      ExpiredWasNeverProposed(care, c, states, actions, n);
    } else if !care.Once? {
      StatusTells(care, c, states, actions, n);
      if care.Faithful? {
        ProposedIsTheDraft(c, states, actions, n);
      }
    }
  }

  lemma NoHarmFollows(care: Care, states: seq<State>, actions: seq<Action>, a: Action)
    requires a.Trigger? && CarefulRun(care, a.c, states, actions) && Enabled(states[|actions|], a)
    requires MayOpen(care, states[|actions|], a.c, a.draft)
    ensures !CanHarm(care, Step(states[|actions|], a), a.c)
  {
    forall states': seq<State>, actions': seq<Action>
      | CarefulPath(care, a.c, states', actions') && states'[0] == Step(states[|actions|], a)
      ensures !Harm(care, states'[|actions'|].store, a.c) {
      CarefulOn(care, a.c, states, actions, a, states', actions');
      var all, done := states + states', actions + [a] + actions';
      NoHarmDone(care, a.c, all, done, |done|);
      assert all[|done|] == states'[|actions'|];
    }
  }

  // ----- harm when opened without -------------------------------------------------------------

  /** `t` is about to open `c`, which was proposed already. */
  ghost predicate Reopens(s: State, t: TaskId, c: CaseId) {
    t in s.tasks && s.tasks[t].WriteRow? && s.tasks[t].c == c && s.store.attempts[c] >= 1
  }

  /** Then it can be proposed again, and it can be asked about again, forgotten and expired. */
  lemma ReopenedDoesHarm(care: Care, s: State, mid: State, t: TaskId, c: CaseId)
    requires Leads(s, mid) && Reopens(mid, t, c)
    ensures CanHarm(care, s, c)
  {
    if care.Once? {
      var s' := OpeningCanBeProposed(mid, t);
      LeadsOn(s, mid, s');
      LeadsToHarm(care, s, s', c);
    } else {
      var s1 := Step(mid, DoWriteRow(t));
      LeadsToStep(s, mid, DoWriteRow(t));
      var s' := ExpiredAtReboot(s1, c);
      LeadsOn(s, s1, s');
      LeadsToExpiry(care, s, s', c);
    }
  }

  /** Whoever is asked about or approved when the process dies can be expired by the next. */
  lemma ExpiredAtReboot(s: State, c: CaseId) returns (s': State)
    requires At(s.store, c, Pending) || At(s.store, c, Approved)
    ensures Leads(s, s') && At(s'.store, c, Expired) && s'.store.attempts == s.store.attempts
  {
    var s1 := Step(s, Crash);
    StepLeads(s, Crash);
    var k := Case(c, s.store.rows[c]);
    var s2 := ReadBack(s1, k, 0, k.row.openedAt + OPEN_CASE_TTL + 1, Expire(k));
    LeadsOn(s, s1, s2);
    s' := Step(s2, DoExpire(0));
    LeadsToStep(s, s2, DoExpire(0));
  }

  /** A future that finds its case approved, or is about to record that it is, can propose it. */
  lemma ClaimsCanBeProposed(s: State, u: TaskId, c: CaseId) returns (s': State)
    requires u in s.tasks && Claims(s.tasks[u], c) && c in s.store.rows
    requires At(s.store, c, Approved) || Approves(s.store, s.tasks[u])
    ensures Leads(s, s') && s'.store.attempts[c] == s.store.attempts[c] + 1 && s'.tasks == s.tasks - {u}
  {
    if s.tasks[u].Record? {
      var s1 := Step(s, DoRecord(u));
      StepLeads(s, DoRecord(u));
      s' := ClaimCanBeProposed(s1, u);
      LeadsOn(s, s1, s');
    } else {
      s' := ClaimCanBeProposed(s, u);
    }
  }

  /** A future that can bring about a pull request by itself does, unless it records an approval in other words. */
  lemma HotCanBeProposed(s: State, u: TaskId, c: CaseId) returns (s': State)
    requires u in s.tasks && Hot(s.store, s.tasks[u], c) && (s.tasks[u].WriteRow? || c in s.store.rows)
    requires s.tasks[u].Record? ==> s.tasks[u].answer == Approve
    ensures Leads(s, s') && s'.store.attempts[c] == s.store.attempts[c] + 1 && s'.tasks == s.tasks - {u}
  {
    match s.tasks[u] {
      case WriteRow(_, _, _, _) => s' := OpeningCanBeProposed(s, u);
      case Publish(_, _, _) => s' := PublishedCanBeProposed(s, u);
      case CreatePr(_, _) =>
        s' := Step(s, DoCreatePr(u, None));
        StepLeads(s, DoCreatePr(u, None));
      case _ => s' := ClaimsCanBeProposed(s, u, c);
    }
  }

  /** Carried over and being opened: first what was carried over is proposed. */
  lemma CarriedCanBeProposed(s: State, k: Case, t: TaskId) returns (s': State)
    requires s.boot.Reading? && k in s.boot.snapshot && Waits(k, k.id) && t in s.tasks
    requires k.id in s.store.rows && s.store.rows[k.id] == k.row
    ensures Leads(s, s') && s'.store.attempts[k.id] == s.store.attempts[k.id] + 1
    ensures t in s'.tasks && s'.tasks[t] == s.tasks[t]
  {
    var s1, r, u := TakenUpAt(s, k, k.row.openedAt, t);
    if r.ResumePr? {
      s' := ClaimCanBeProposed(s1, u);
    } else {
      var v := FreeTask(s1.tasks, t);
      s' := PendingCanBeProposed(s1, v, k.id);
    }
    LeadsOn(s, s1, s');
  }

  /** An approval in other words, recorded after the case was opened and proposed afresh. */
  lemma LateSynonymDoesHarm(care: Care, s: State, t: TaskId, u: TaskId, c: CaseId)
    requires t in s.tasks && s.tasks[t].WriteRow? && s.tasks[t].c == c
    requires u in s.tasks && On(s.tasks[u], c) && Approves(s.store, s.tasks[u]) && s.tasks[u].answer != Approve
    ensures CanHarm(care, s, c)
  {
    var s1 := OpeningCanBeProposed(s, t);
    var s2 := Step(s1, DoRecord(u));
    LeadsToStep(s, s1, DoRecord(u));
    if care.Once? {
      var s' := ApprovedAtReboot(s2, c, s2.store.rows[c].openedAt);
      LeadsOn(s, s2, s');
      LeadsToHarm(care, s, s', c);
    } else {
      var s' := ExpiredAtReboot(s2, c);
      LeadsOn(s, s2, s');
      LeadsToExpiry(care, s, s', c);
    }
  }

  lemma HotDoesHarm(care: Care, s: State, a: Action, u: TaskId)
    requires Enabled(s, a) && a.Trigger? && Grounded(s, a.c) && u in s.tasks && Hot(s.store, s.tasks[u], a.c)
    ensures CanHarm(care, Step(s, a), a.c)
  {
    var s1 := Step(s, a);
    assert TaskGrounded(s.store, s.tasks[u], a.c);
    if s.tasks[u].Record? && s.tasks[u].answer != Approve {
      LateSynonymDoesHarm(care, s1, a.t, u, a.c);
    } else {
      var mid := HotCanBeProposed(s1, u, a.c);
      ReopenedDoesHarm(care, s1, mid, a.t, a.c);
    }
  }

  lemma UnreadDoesHarm(care: Care, s: State, a: Action)
    requires Enabled(s, a) && a.Trigger? && s.boot == Waiting
    ensures CanHarm(care, Step(s, a), a.c)
  {
    if care.Once? {
      var s' := EarlyOpeningRepeats(s, a);
      LeadsToHarm(care, Step(s, a), s', a.c);
    } else {
      var mid, s' := OpenedBeforeRead(s, a, "");
      LeadsOn(Step(s, a), mid, s');
      LeadsToExpiry(care, Step(s, a), s', a.c);
    }
  }

  /** Opening a case that is not clear does harm at every degree of care. */
  lemma UnclearDoesHarm(care: Care, s: State, a: Action)
    requires Enabled(s, a) && a.Trigger? && Grounded(s, a.c) && OnceInv(s, a.c) && !Clear(s, a.c)
    ensures CanHarm(care, Step(s, a), a.c)
  {
    var s1 := Step(s, a);
    StaysPut(s1);
    if s.store.attempts[a.c] > 0 {
      ReopenedDoesHarm(care, s1, s1, a.t, a.c);
    } else if s.boot == Waiting {
      UnreadDoesHarm(care, s, a);
    } else if Carried(s, a.c) {
      var k :| k in s.boot.snapshot && Waits(k, a.c);
      var mid := CarriedCanBeProposed(s1, k, a.t);
      ReopenedDoesHarm(care, s1, mid, a.t, a.c);
    } else if a.c in s.pending {
      var v := FreeTask(s1.tasks, a.t);
      var mid := PendingCanBeProposed(s1, v, a.c);
      ReopenedDoesHarm(care, s1, mid, a.t, a.c);
    } else if u :| u in s.tasks && Hot(s.store, s.tasks[u], a.c) {
      HotDoesHarm(care, s, a, u);
    } else {
      var u :| u in s.tasks && Claims(s.tasks[u], a.c);
      var mid := ClaimsCanBeProposed(s1, u, a.c);
      ReopenedDoesHarm(care, s1, mid, a.t, a.c);
    }
  }

  lemma StaysPut(s: State)
    ensures Leads(s, s)
  {
    assert IsPath([s], []) && !Opens([]);
  }

  /** An end written after the case was proposed. */
  lemma SpoilerDoesHarm(care: Care, s: State, a: Action, u: TaskId)
    requires Enabled(s, a) && a.Trigger? && u in s.tasks && Spoils(care, s.store, s.tasks[u], a.c)
    ensures CanHarm(care, Step(s, a), a.c)
  {
    var s1 := Step(s, a);
    var mid := OpeningCanBeProposed(s1, a.t);
    var b := EndOf(mid, u);
    EndDoesHarm(care, mid, u, a.c);
    LeadsToStep(s1, mid, b);
    LeadsToHarm(care, s1, Step(mid, b), a.c);
  }

  function EndOf(s: State, u: TaskId): Action
    requires u in s.tasks
  {
    if s.tasks[u].Expiring? then DoExpire(u) else if s.tasks[u].WriteFailed? then DoWriteFailed(u) else DoRecord(u)
  }

  lemma EndDoesHarm(care: Care, s: State, u: TaskId, c: CaseId)
    requires u in s.tasks && Spoils(care, s.store, s.tasks[u], c) && c in s.store.rows && s.store.attempts[c] >= 1
    ensures Enabled(s, EndOf(s, u)) && Harm(care, Step(s, EndOf(s, u)).store, c)
  {
  }

  /** A future left over from an earlier opening claims the approval of this one, and proposes the draft of that. */
  lemma OtherDraftDoesHarm(s: State, a: Action, u: TaskId)
    requires Enabled(s, a) && a.Trigger? && u in s.tasks && Claims(s.tasks[u], a.c) && s.tasks[u].draft != a.draft
    ensures CanHarm(Faithful, Step(s, a), a.c)
  {
    var s1 := Step(s, a);
    var s2 := OpenedAndApproved(s1, a.t);
    var s3 := s2;
    if s.tasks[u].Record? {
      s3 := Step(s2, DoRecord(u));
      LeadsToStep(s1, s2, DoRecord(u));
    }
    var s4 := Step(s3, DoClaim(u));
    LeadsToStep(s1, s3, DoClaim(u));
    var s5 := Step(s4, DoCreatePr(u, None));
    LeadsToStep(s1, s4, DoCreatePr(u, None));
    assert (a.c, s.tasks[u].draft) in s5.store.proposed;
    LeadsToHarm(Faithful, s1, s5, a.c);
  }

  lemma OpenedAndApproved(s: State, t: TaskId) returns (s': State)
    requires t in s.tasks && s.tasks[t].WriteRow?
    ensures Leads(s, s') && At(s'.store, s.tasks[t].c, Approved) && HasDraft(s'.store, s.tasks[t].c, s.tasks[t].draft)
    ensures s'.tasks == s.tasks - {t}
  {
    var s1 := Step(s, DoWriteRow(t));
    StepLeads(s, DoWriteRow(t));
    var s2 := Step(s1, DoPublish(t, true));
    LeadsToStep(s, s1, DoPublish(t, true));
    s' := Answered(s2, t, s.tasks[t].c, ApproveSynonym);
    LeadsOn(s, s2, s');
  }

  // ----- the exact condition ------------------------------------------------------------------

  /**
   After any run that was careful about a case, a trigger on that case which the actor accepts can lead to
   what this degree of care is there to prevent if and only if the case may not be opened.
   */
  lemma OpeningHarmsIff(care: Care, states: seq<State>, actions: seq<Action>, a: Action)
    requires a.Trigger? && CarefulRun(care, a.c, states, actions) && Enabled(states[|actions|], a)
    ensures CanHarm(care, Step(states[|actions|], a), a.c) <==> !MayOpen(care, states[|actions|], a.c, a.draft)
  {
    var s := states[|actions|];
    RunKeepsInv(care, a.c, states, actions, |actions|);
    if MayOpen(care, s, a.c, a.draft) {
      NoHarmFollows(care, states, actions, a);
    } else if !Clear(s, a.c) {
      UnclearDoesHarm(care, s, a);
    } else if !Unspoilt(care, s, a.c) {
      var u :| u in s.tasks && Spoils(care, s.store, s.tasks[u], a.c);
      SpoilerDoesHarm(care, s, a, u);
    } else {
      var u :| u in s.tasks && Claims(s.tasks[u], a.c) && s.tasks[u].draft != a.draft;
      OtherDraftDoesHarm(s, a, u);
    }
  }

  // ----- an expired case with a pull request --------------------------------------------------

  /** An expired case that tracks a pull request can follow from `s`, with no careless trigger on it. */
  ghost predicate CanExpireTracked(s: State, c: CaseId) {
    exists states: seq<State>, actions: seq<Action> ::
      && CarefulPath(Unexpired, c, states, actions) && states[0] == s
      && At(states[|actions|].store, c, Expired) && states[|actions|].store.rows[c].pr.Some?
  }

  lemma LeadsToTracked(s: State, mid: State, s': State, c: CaseId, url: string)
    requires Leads(s, mid) && Leads(mid, s') && TrackedAt(s', c, Expired, url)
    ensures CanExpireTracked(s, c)
  {
    LeadsOn(s, mid, s');
    var states: seq<State>, actions: seq<Action> :|
      IsPath(states, actions) && states[0] == s && states[|actions|] == s' && !Opens(actions);
    forall i | 0 <= i < |actions| ensures Careful(Unexpired, c, states[i], actions[i]) {
      assert !actions[i].Trigger?;
    }
  }

  /** Never proposed, not asked about, and no future about to propose it. */
  ghost predicate AtLeisure(s: State, c: CaseId) {
    && s.store.attempts[c] == 0 && c !in s.pending
    && (forall t :: t in s.tasks ==> !Hot(s.store, s.tasks[t], c))
    && (At(s.store, c, Approved) ==> NobodyClaims(s, c))
  }

  /** Being expired, or still to be dealt with by the boot. */
  ghost predicate ExpiryAhead(s: State, c: CaseId) {
    s.boot == Waiting || Carried(s, c) || !Unspoilt(Unexpired, s, c)
  }

  /**
   A case that tracks a pull request is never expired, promises the policy. After any run careful about it,
   an accepted trigger on a case at leisure breaks that promise if and only if an expiry of it lies ahead.
   */
  lemma TrackedIsExpiredIff(states: seq<State>, actions: seq<Action>, a: Action)
    requires a.Trigger? && CarefulRun(Unexpired, a.c, states, actions) && Enabled(states[|actions|], a)
    requires AtLeisure(states[|actions|], a.c)
    ensures CanExpireTracked(Step(states[|actions|], a), a.c) <==> ExpiryAhead(states[|actions|], a.c)
  {
    var s := states[|actions|];
    if s.boot == Waiting {
      var mid, s' := OpenedBeforeRead(s, a, "");
      LeadsToTracked(Step(s, a), mid, s', a.c, "");
    } else if Carried(s, a.c) {
      var k :| k in s.boot.snapshot && Waits(k, a.c);
      var mid, s' := OpenedWhileCarried(s, a, k, "");
      LeadsToTracked(Step(s, a), mid, s', a.c, "");
    } else if !Unspoilt(Unexpired, s, a.c) {
      var u :| u in s.tasks && Spoils(Unexpired, s.store, s.tasks[u], a.c);
      var mid, s' := OpenedWhileExpiring(s, a, u, "");
      LeadsToTracked(Step(s, a), mid, s', a.c, "");
    } else {
      NoneExpiresTracked(states, actions, a);
    }
  }

  lemma NoneExpiresTracked(states: seq<State>, actions: seq<Action>, a: Action)
    requires a.Trigger? && CarefulRun(Unexpired, a.c, states, actions) && Enabled(states[|actions|], a)
    requires MayOpen(Unexpired, states[|actions|], a.c, a.draft)
    ensures !CanExpireTracked(Step(states[|actions|], a), a.c)
  {
    forall states': seq<State>, actions': seq<Action>
      | CarefulPath(Unexpired, a.c, states', actions') && states'[0] == Step(states[|actions|], a)
      ensures At(states'[|actions'|].store, a.c, Expired) ==> states'[|actions'|].store.rows[a.c].pr == None {
      CarefulOn(Unexpired, a.c, states, actions, a, states', actions');
      var all, done := states + states', actions + [a] + actions';
      ExpiredWasNeverProposed(Unexpired, a.c, all, done, |done|);
      assert all[|done|] == states'[|actions'|];
    }
  }

  /** Such a state comes about, by a run as careful as can be, for every case and every decision. */
  lemma ExpiryUnderWay(c: CaseId, urn: Urn, draft: string) returns (states: seq<State>, actions: seq<Action>, a: Action)
    ensures CarefulRun(Faithful, c, states, actions) && a == Trigger(1, c, urn, draft, OPEN_CASE_TTL + 1)
    ensures var s := states[|actions|];
            Enabled(s, a) && AtLeisure(s, c) && s.tasks == map[0 := Expiring(c)] && s.boot == Done
  {
    var k := Case(c, Row(Pending, None, 0, urn, draft));
    states, actions := CutShort(k);
    states, actions := ExpiredNext(k, states, actions);
    a := Trigger(1, c, urn, draft, OPEN_CASE_TTL + 1);
  }

  /** The next process reads the case when its time has passed. */
  lemma ExpiredNext(k: Case, states: seq<State>, actions: seq<Action>)
    returns (states': seq<State>, actions': seq<Action>)
    requires CarefulRun(Faithful, k.id, states, actions) && PlanOne(k, OPEN_CASE_TTL + 1) == Some(Expire(k))
    requires states[|actions|] == Booted(EmptyStore.(rows := map[k.id := k.row]))
    ensures CarefulRun(Faithful, k.id, states', actions')
    ensures states'[|actions'|] == states[|actions|].(boot := Done, tasks := map[0 := Expiring(k.id)])
  {
    states', actions' := OneMore(Faithful, k.id, states, actions, Read([k]));
    PlanOfOne(states[|actions|].(boot := Done), k, 0, OPEN_CASE_TTL + 1, Expire(k));
    states', actions' := OneMore(Faithful, k.id, states', actions', Apply(0, OPEN_CASE_TTL + 1));
  }

  /** The process dies after it has written the row of its first case. */
  lemma CutShort(k: Case) returns (states: seq<State>, actions: seq<Action>)
    requires k.row.status == Pending && k.row.pr == None
    ensures CarefulRun(Faithful, k.id, states, actions)
    ensures states[|actions|] == Booted(EmptyStore.(rows := map[k.id := k.row]))
  {
    var s1 := Booted(EmptyStore).(boot := Done);
    states, actions := OneMore(Faithful, k.id, [Booted(EmptyStore)], [], ReadFailed);
    assert states[|actions|] == s1;
    states, actions := OneMore(Faithful, k.id, states, actions,
                               Trigger(0, k.id, k.row.urn, k.row.draft, k.row.openedAt));
    states, actions := OneMore(Faithful, k.id, states, actions, DoWriteRow(0));
    assert states[|actions|].store == EmptyStore.(rows := map[k.id := k.row]);
    states, actions := OneMore(Faithful, k.id, states, actions, Crash);
  }

  lemma OneMore(care: Care, c: CaseId, states: seq<State>, actions: seq<Action>, a: Action)
    returns (states': seq<State>, actions': seq<Action>)
    requires CarefulRun(care, c, states, actions)
    requires Enabled(states[|actions|], a) && Careful(care, c, states[|actions|], a)
    ensures CarefulRun(care, c, states', actions') && states'[|actions'|] == Step(states[|actions|], a)
  {
    var last := [Step(states[|actions|], a)];
    assert CarefulPath(care, c, last, []);
    CarefulOn(care, c, states, actions, a, last, []);
    states', actions' := states + last, actions + [a] + [];
  }

  // ----- an approval in other words, taken up at once -----------------------------------------

  /**
   An approval in other words is proposed within the process if some future is there to claim it: the
   condition of `SynonymWaits` is exact.
   */
  lemma SynonymTakenUp(s: State, a: Action, u: TaskId) returns (states: seq<State>, actions: seq<Action>)
    requires a.Decide? && Enabled(s, a) && a.answer != Approve && StatusFor(a.answer) == Approved
    requires Fresh(s.store, a.event)
    requires u in s.tasks && Claims(s.tasks[u], a.c) && a.c in s.store.rows
    ensures IsPath(states, actions) && |actions| > 0 && states[0] == s && actions[0] == a
    ensures LeftAlone(actions, 0, |actions|, a.c)
    ensures states[|actions|].store.attempts[a.c] == s.store.attempts[a.c] + 1
  {
    states, actions := [s, Step(s, a)], [a];
    states, actions := OneMoreAlive(states, actions, DoRecord(a.t), a.c);
    states, actions := ClaimedAlive(states, actions, u, a.c);
  }

  lemma ClaimedAlive(states: seq<State>, actions: seq<Action>, u: TaskId, c: CaseId)
    returns (states': seq<State>, actions': seq<Action>)
    requires IsPath(states, actions) && |actions| > 0 && LeftAlone(actions, 0, |actions|, c)
    requires var s := states[|actions|]; At(s.store, c, Approved) && u in s.tasks && Claims(s.tasks[u], c)
    ensures IsPath(states', actions') && |actions'| > 0 && LeftAlone(actions', 0, |actions'|, c)
    ensures states'[0] == states[0] && actions'[0] == actions[0]
    ensures states'[|actions'|].store.attempts[c] == states[|actions|].store.attempts[c] + 1
  {
    states', actions' := states, actions;
    if states[|actions|].tasks[u].Record? {
      states', actions' := OneMoreAlive(states', actions', DoRecord(u), c);
    }
    states', actions' := OneMoreAlive(states', actions', DoClaim(u), c);
    states', actions' := OneMoreAlive(states', actions', DoCreatePr(u, None), c);
  }

  lemma OneMoreAlive(states: seq<State>, actions: seq<Action>, b: Action, c: CaseId)
    returns (states': seq<State>, actions': seq<Action>)
    requires IsPath(states, actions) && |actions| > 0 && LeftAlone(actions, 0, |actions|, c)
    requires Enabled(states[|actions|], b) && !b.Crash? && !b.Trigger?
    ensures IsPath(states', actions') && |actions'| > 0 && LeftAlone(actions', 0, |actions'|, c)
    ensures states'[0] == states[0] && actions'[0] == actions[0] && states'[|actions'|] == Step(states[|actions|], b)
  {
    var last := Step(states[|actions|], b);
    assert IsPath([states[|actions|], last], [b]);
    JoinPaths(states, actions, [states[|actions|], last], [b]);
    states', actions' := states + [states[|actions|], last][1..], actions + [b];
  }
}
