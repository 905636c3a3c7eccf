/**
 Decision elevation across crashes (src/actors/decision_elevation_actor.rs), with the durable store it
 writes through (src/adapters/decision_elevation_store.rs, src/adapters/sqlite_enrichment_repository.rs).

 Every await point of the actor's futures is a step of its own, so steps of different futures
 interleave freely and a crash can fall between any two durable writes. An operation that reports an
 error ends its future (`Abort`), before or after the write took effect; only the stamping of a pull
 request, which reads its row and writes it back, carries on after an error.
 */
module DecisionElevation {
  import opened Basics

  type CaseId = string
  type Urn = string
  type EventId = string
  type TaskId = nat

  // ----- durable state ------------------------------------------------------------------------

  datatype Status =
    | Pending | Approved | Applying | Elevating
    | Published | Abandoned | Rejected | Reviewed | PublishFailed | Expired

  predicate IsTerminal(s: Status) {
    s in {Published, Abandoned, Rejected, Reviewed, PublishFailed, Expired}
  }

  /** One durable case; `urn` names the decision, `draft` is the corpus page a human is asked to approve. */
  datatype Row = Row(status: Status, pr: Option<string>, openedAt: int, urn: Urn, draft: string)

  /** The broker's answer. Only the literal `approve` starts a corpus write at once. */
  datatype Answer = Approve | ApproveSynonym | Reject | Other

  /** The durable status a broker answer leads to: synonyms of approval count as approval. */
  function StatusFor(a: Answer): Status {
    match a
    case Approve => Approved
    case ApproveSynonym => Approved
    case Reject => Rejected
    case Other => Reviewed
  }

  /** The store, and what has been done through it so far. */
  datatype Store = Store(
    rows: map<CaseId, Row>,
    events: set<EventId>,              // signed decision events already recorded
    approvals: multiset<CaseId>,       // committed decisions whose status is `Approved`
    claims: multiset<CaseId>,          // applications claimed
    attempts: multiset<CaseId>,        // corpus pull requests attempted
    proposed: set<(CaseId, string)>)   // what those pull requests carried

  // ----- volatile state -----------------------------------------------------------------------

  /** A future of the actor, stopped at its next await point. */
  datatype Task =
    | WriteRow(c: CaseId, urn: Urn, draft: string, at: int)
    | Publish(c: CaseId, urn: Urn, draft: string)
    | WriteFailed(c: CaseId)
    | Record(c: CaseId, answer: Answer, event: Option<EventId>, draft: string)
    | Claim(c: CaseId, draft: string)
    | CreatePr(c: CaseId, draft: string)
    | Stamp(c: CaseId, url: string)
    | WriteStamp(c: CaseId, url: string, row: Row)
    | Expiring(c: CaseId)
    | Polling(tracked: set<CaseId>, resolved: set<CaseId>)

  datatype Case = Case(id: CaseId, row: Row)

  /** Boot reconciliation: not started, read but not applied, over. */
  datatype Boot = Waiting | Reading(snapshot: seq<Case>) | Done

  datatype State = State(
    store: Store,
    pending: map<CaseId, string>,
    elevating: set<CaseId>,
    seen: set<Urn>,
    boot: Boot,
    tasks: map<TaskId, Task>)

  const EmptyStore := Store(map[], {}, multiset{}, multiset{}, multiset{}, {})

  function Booted(store: Store): State {
    State(store, map[], {}, {}, Waiting, map[])
  }

  const MAX_OPEN_CASES: nat := 16
  const OPEN_CASE_TTL: int := 14 * 24 * 60 * 60

  // ----- reconciliation policy ----------------------------------------------------------------

  datatype ReconcileAction =
    | ResumeTracking(case_: Case)
    | ResumePr(case_: Case)
    | ResumePending(case_: Case)
    | Expire(case_: Case)

  predicate Tracking(row: Row) {
    row.status == Elevating && row.pr.Some?
  }

  predicate Stale(row: Row, now: int) {
    now - row.openedAt > OPEN_CASE_TTL
  }

  function PlanOne(k: Case, now: int): Option<ReconcileAction> {
    if IsTerminal(k.row.status) then None
    else if Tracking(k.row) then Some(ResumeTracking(k))
    else if k.row.status == Applying then None
    else if Stale(k.row, now) then Some(Expire(k))
    else if k.row.status == Approved || k.row.status == Elevating then Some(ResumePr(k))
    else Some(ResumePending(k))
  }

  function PlanReconciliation(cases: seq<Case>, now: int): seq<ReconcileAction> {
    if cases == [] then []
    else
      var rest := PlanReconciliation(cases[..|cases| - 1], now);
      match PlanOne(cases[|cases| - 1], now)
      case None => rest
      case Some(a) => rest + [a]
  }

  /** What may be done about a case, by its status, its pull request and its age, to the second. */
  predicate IsSafe(a: ReconcileAction, now: int) {
    var row := a.case_.row;
    var tracks := row.status == Elevating && row.pr.Some?;
    && row.status in {Pending, Approved, Elevating}
    && (a.Expire? <==> now > row.openedAt + 14 * 24 * 60 * 60 && !tracks)
    && (a.ResumeTracking? <==> tracks)
    && (a.ResumePending? ==> row.status == Pending)
    && (a.ResumePr? ==> row.status in {Approved, Elevating})
  }

  /**
   The policy, case by case: an application in doubt is left alone, a tracked pull request is never
   expired, and expiry needs both an open question or an unclaimed approval and a passed deadline.
   */
  lemma {:induction false} PlanIsSafe(cases: seq<Case>, now: int, a: ReconcileAction)
    ensures a in PlanReconciliation(cases, now) ==> a.case_ in cases && IsSafe(a, now)
  {
    if cases != [] {
      PlanIsSafe(cases[..|cases| - 1], now, a);
    }
  }

  /** Nothing open is forgotten: every open case that is not in doubt gets an action. */
  lemma {:induction false} PlanIsComplete(cases: seq<Case>, now: int, k: Case)
    ensures k in cases && k.row.status in {Pending, Approved, Elevating} ==>
              exists a :: a in PlanReconciliation(cases, now) && a.case_ == k
  {
    if k !in cases || k.row.status !in {Pending, Approved, Elevating} {
      return;
    }
    var front, last := cases[..|cases| - 1], cases[|cases| - 1];
    var plan := PlanReconciliation(cases, now);
    if k == last {
      assert PlanOne(last, now).value in plan;
    } else {
      assert k in front;
      PlanIsComplete(front, now, k);
      var a :| a in PlanReconciliation(front, now) && a.case_ == k;
      assert a in plan;
    }
  }

  /** Carry out one reconciliation action; `t` is a free task id. */
  function Reconciled(s: State, a: ReconcileAction, t: TaskId): State {
    var id := a.case_.id;
    match a
    case ResumeTracking(k) => s.(seen := s.seen + {k.row.urn}, elevating := s.elevating + {id})
    case ResumePr(k) => s.(seen := s.seen + {k.row.urn}, tasks := s.tasks[t := Claim(id, k.row.draft)])
    case ResumePending(k) => s.(seen := s.seen + {k.row.urn}, pending := s.pending[id := k.row.draft])
    case Expire(_) => s.(tasks := s.tasks[t := Expiring(id)])
  }

  function ReconciledAll(s: State, plan: seq<ReconcileAction>, t: TaskId): State {
    if plan == [] then s
    else Reconciled(ReconciledAll(s, plan[..|plan| - 1], t), plan[|plan| - 1], t + |plan| - 1)
  }

  // ----- steps --------------------------------------------------------------------------------

  datatype Action =
    | Trigger(t: TaskId, c: CaseId, urn: Urn, draft: string, at: int)
    | DoWriteRow(t: TaskId)
    | DoPublish(t: TaskId, ok: bool)
    | DoWriteFailed(t: TaskId)
    | Decide(t: TaskId, c: CaseId, answer: Answer, event: Option<EventId>)
    | DoRecord(t: TaskId)
    | DoClaim(t: TaskId)
    | DoCreatePr(t: TaskId, url: Option<string>)
    | DoStamp(t: TaskId, found: bool)
    | DoWriteStamp(t: TaskId, persisted: bool)
    | DoExpire(t: TaskId)
    | StartPoll(t: TaskId)
    | DoResolve(t: TaskId, c: CaseId, merged: bool)
    | EndPoll(t: TaskId)
    | Abort(t: TaskId)
    | Read(snapshot: seq<Case>)
    | ReadFailed
    | Apply(t: TaskId, now: int)
    | Crash

  ghost predicate SnapshotOf(store: Store, snapshot: seq<Case>) {
    && (forall i, j :: 0 <= i < j < |snapshot| ==> snapshot[i].id != snapshot[j].id)
    && (forall k :: k in snapshot ==>
          k.id in store.rows && store.rows[k.id] == k.row && !IsTerminal(k.row.status))
  }

  ghost predicate Enabled(s: State, a: Action) {
    match a
    case Trigger(t, _, urn, _, _) => t !in s.tasks && urn !in s.seen && |s.pending| < MAX_OPEN_CASES
    case DoWriteRow(t) => t in s.tasks && s.tasks[t].WriteRow?
    case DoPublish(t, _) => t in s.tasks && s.tasks[t].Publish?
    case DoWriteFailed(t) => t in s.tasks && s.tasks[t].WriteFailed?
    case Decide(t, c, _, _) => t !in s.tasks && c in s.pending
    case DoRecord(t) => t in s.tasks && s.tasks[t].Record? && s.tasks[t].c in s.store.rows
    case DoClaim(t) => t in s.tasks && s.tasks[t].Claim?
    case DoCreatePr(t, _) => t in s.tasks && s.tasks[t].CreatePr?
    case DoStamp(t, _) => t in s.tasks && s.tasks[t].Stamp?
    case DoWriteStamp(t, _) => t in s.tasks && s.tasks[t].WriteStamp?
    case DoExpire(t) => t in s.tasks && s.tasks[t].Expiring?
    case StartPoll(t) => t !in s.tasks && s.elevating != {}
    case DoResolve(t, c, _) => t in s.tasks && s.tasks[t].Polling? && c in s.tasks[t].tracked
    case EndPoll(t) => t in s.tasks && s.tasks[t].Polling?
    case Abort(t) => t in s.tasks
    case Read(snapshot) => s.boot == Waiting && SnapshotOf(s.store, snapshot)
    case ReadFailed => s.boot == Waiting
    case Apply(t, _) => s.boot.Reading? && forall u :: u in s.tasks ==> u < t
    case Crash => true
  }

  /** `UPDATE ... SET status` on one case; a no-op when the case is unknown. */
  function SetStatus(st: Store, c: CaseId, status: Status): Store {
    if c in st.rows then st.(rows := st.rows[c := st.rows[c].(status := status)]) else st
  }

  /** One transaction: the decision row and the case status; a re-delivered event writes nothing. */
  function RecordDecision(st: Store, c: CaseId, answer: Answer, event: Option<EventId>): Store {
    if event.Some? && event.value in st.events then st
    else
      var st' := SetStatus(st, c, StatusFor(answer));
      st'.(events := if event.Some? then st.events + {event.value} else st.events,
           approvals := if StatusFor(answer) == Approved then st.approvals + multiset{c} else st.approvals)
  }

  function Finish(s: State, t: TaskId): State {
    s.(tasks := s.tasks - {t})
  }

  function Goto(s: State, t: TaskId, task: Task): State {
    s.(tasks := s.tasks[t := task])
  }

  function Step(s: State, a: Action): State
    requires Enabled(s, a)
  {
    match a
    case Trigger(t, c, urn, draft, at) => Goto(s, t, WriteRow(c, urn, draft, at))
    case DoWriteRow(t) =>
      var k := s.tasks[t];
      var row := Row(Pending, None, k.at, k.urn, k.draft);
      Goto(s.(store := s.store.(rows := s.store.rows[k.c := row])), t, Publish(k.c, k.urn, k.draft))
    case DoPublish(t, ok) =>
      var k := s.tasks[t];
      if ok then Finish(s.(seen := s.seen + {k.urn}, pending := s.pending[k.c := k.draft]), t)
      else Goto(s, t, WriteFailed(k.c))
    case DoWriteFailed(t) => Finish(s.(store := SetStatus(s.store, s.tasks[t].c, PublishFailed)), t)
    case Decide(t, c, answer, event) =>
      Goto(s.(pending := s.pending - {c}), t, Record(c, answer, event, s.pending[c]))
    case DoRecord(t) =>
      var k := s.tasks[t];
      var s' := s.(store := RecordDecision(s.store, k.c, k.answer, k.event));
      if k.answer == Approve then Goto(s', t, Claim(k.c, k.draft)) else Finish(s', t)
    case DoClaim(t) =>
      var k := s.tasks[t];
      if k.c in s.store.rows && s.store.rows[k.c].status == Approved then
        var st := SetStatus(s.store, k.c, Applying);
        Goto(s.(store := st.(claims := st.claims + multiset{k.c})), t, CreatePr(k.c, k.draft))
      else Finish(s, t)
    case DoCreatePr(t, url) =>
      var k := s.tasks[t];
      var s' := s.(store := s.store.(attempts := s.store.attempts + multiset{k.c},
                                     proposed := s.store.proposed + {(k.c, k.draft)}));
      if url.Some? then Goto(s', t, Stamp(k.c, url.value)) else Finish(s', t)
    case DoStamp(t, found) =>
      var k := s.tasks[t];
      if found && k.c in s.store.rows
      then Goto(s, t, WriteStamp(k.c, k.url, s.store.rows[k.c]))
      else Finish(s.(elevating := s.elevating + {k.c}), t)
    case DoWriteStamp(t, persisted) =>
      var k := s.tasks[t];
      var row := k.row.(status := Elevating, pr := Some(k.url));
      var st := if persisted then s.store.(rows := s.store.rows[k.c := row]) else s.store;
      Finish(s.(store := st, elevating := s.elevating + {k.c}), t)
    case DoExpire(t) => Finish(s.(store := SetStatus(s.store, s.tasks[t].c, Expired)), t)
    case StartPoll(t) => Goto(s, t, Polling(s.elevating, {}))
    case DoResolve(t, c, merged) =>
      var k := s.tasks[t];
      Goto(s.(store := SetStatus(s.store, c, if merged then Published else Abandoned)), t,
           Polling(k.tracked - {c}, k.resolved + {c}))
    case EndPoll(t) => Finish(s.(elevating := s.elevating - s.tasks[t].resolved), t)
    case Abort(t) => Finish(s, t)
    case Read(snapshot) => s.(boot := Reading(snapshot))
    case ReadFailed => s.(boot := Done)
    case Apply(t, now) => ReconciledAll(s.(boot := Done), PlanReconciliation(s.boot.snapshot, now), t)
    case Crash => Booted(s.store)
  }

  ghost predicate IsStep(s: State, a: Action, s': State) {
    Enabled(s, a) && s' == Step(s, a)
  }

  ghost predicate IsRun(states: seq<State>, actions: seq<Action>) {
    && |states| == |actions| + 1
    && states[0] == Booted(EmptyStore)
    && forall i :: 0 <= i < |actions| ==> IsStep(states[i], actions[i], states[i + 1])
  }
}
