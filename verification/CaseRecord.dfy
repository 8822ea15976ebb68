/** One case row with its history, checklist and disputes, and what every service call does to it. */
module CaseRecord {
  import opened Wrappers
  import opened CaseStateMachine

  type TaskId = nat
  type RequestId = nat
  type Time = int

  datatype HistoryRow = HistoryRow(from: Option<CaseStatus>, to: CaseStatus)

  datatype Task = Task(title: string, isRequired: bool, isComplete: bool, completedAt: Option<Time>)

  datatype Dispute = Dispute(taskIds: seq<TaskId>, open: bool)

  /** An evidence row is known by the request id its client sent, if any; a QC review by its outcome. */
  datatype CaseState = CaseState(
    status: CaseStatus,
    heldFrom: Option<CaseStatus>,
    history: seq<HistoryRow>,
    tasks: map<TaskId, Task>,
    disputes: seq<Dispute>,
    evidence: seq<Option<RequestId>>,
    reviews: seq<QcOutcome>)

  datatype ApprovalAction = ApproveReport | RequestClarification | RequestAdditionalWork | EscalateReport

  datatype QcOutcome = QcApproved | PassWithLimitation | Rework | RevisitRequired | Escalate | Incident

  datatype CaseError =
    | InvalidTransition(from: CaseStatus, to: CaseStatus)
    | AlreadyOnHold
    | CannotHold(status: CaseStatus)
    | NotOnHold
    | ChecklistFrozen(status: CaseStatus)
    | TaskExists
    | TaskNotFound
    | TaskComplete
    | NothingToUpdate
    | NotUnderReview
    | NotTasksOfThisCase
    | NoCustomerProfile
    | NotDisputed
    | NotInProgress
    | KeyNotIssued
    | UploadMissing
    | NoEvidence
    | NotInQc
    | SummaryRequired
    | NoteRequired

  /** The row after a call, and the error thrown, if any; some calls write before they throw. */
  datatype Outcome = Outcome(next: CaseState, error: Option<CaseError>)

  /** Every creation path starts in Draft with one history row and a seeded checklist. */
  function Created(checklist: map<TaskId, Task>): CaseState {
    CaseState(Draft, None, [HistoryRow(None, Draft)], checklist, [], [], [])
  }

  function MoveTo(c: CaseState, to: CaseStatus): CaseState {
    c.(status := to, history := c.history + [HistoryRow(Some(c.status), to)])
  }

  function ApplyTransition(c: CaseState, to: CaseStatus): Outcome {
    if IsValidTransition(c.status, to) then Outcome(MoveTo(c, to), None)
    else Outcome(c, Some(InvalidTransition(c.status, to)))
  }

  function RecordApproval(c: CaseState, action: ApprovalAction): Outcome {
    if action == ApproveReport && c.status == CustomerReview then
      Outcome(MoveTo(MoveTo(c, Approved), Completed), None)
    else if action == RequestAdditionalWork && c.status == CustomerReview then
      Outcome(MoveTo(c, AdditionalWork), None)
    else Outcome(c, None)
  }

  function Hold(c: CaseState): Outcome {
    if c.status == OnHold then Outcome(c, Some(AlreadyOnHold))
    else if c.status == Completed || c.status == Closed then Outcome(c, Some(CannotHold(c.status)))
    else Outcome(MoveTo(c, OnHold).(heldFrom := Some(c.status)), None)
  }

  function Resume(c: CaseState): Outcome {
    if c.status != OnHold || c.heldFrom.None? then Outcome(c, Some(NotOnHold))
    else Outcome(MoveTo(c, c.heldFrom.value).(heldFrom := None), None)
  }

  function AddTask(c: CaseState, id: TaskId, title: string, isRequired: Option<bool>): Outcome {
    if c.status == Completed || c.status == Closed then Outcome(c, Some(ChecklistFrozen(c.status)))
    else if id in c.tasks then Outcome(c, Some(TaskExists))
    else
      var required := if isRequired.Some? then isRequired.value else true;
      Outcome(c.(tasks := c.tasks[id := Task(title, required, false, None)]), None)
  }

  function UpdateTask(c: CaseState, id: TaskId, title: Option<string>, isRequired: Option<bool>): Outcome {
    if id !in c.tasks then Outcome(c, Some(TaskNotFound))
    else if c.tasks[id].isComplete then Outcome(c, Some(TaskComplete))
    else if title.None? && isRequired.None? then Outcome(c, Some(NothingToUpdate))
    else
      var t := c.tasks[id];
      var retitled := if title.Some? then t.(title := title.value) else t;
      var edited := if isRequired.Some? then retitled.(isRequired := isRequired.value) else retitled;
      Outcome(c.(tasks := c.tasks[id := edited]), None)
  }

  function RemoveTask(c: CaseState, id: TaskId): Outcome {
    if id !in c.tasks then Outcome(c, Some(TaskNotFound))
    else if c.tasks[id].isComplete then Outcome(c, Some(TaskComplete))
    else Outcome(c.(tasks := c.tasks - {id}), None)
  }

  function CompleteTask(c: CaseState, id: TaskId, now: Time): Outcome {
    if id !in c.tasks then Outcome(c, Some(TaskNotFound))
    else if c.tasks[id].isComplete then Outcome(c, None)
    else Outcome(c.(tasks := c.tasks[id := c.tasks[id].(isComplete := true, completedAt := Some(now))]), None)
  }

  /** The rows the checklist query finds for a list of ids: each matching row once. */
  function FoundTasks(c: CaseState, ids: seq<TaskId>): set<TaskId> {
    set id | id in ids && id in c.tasks
  }

  function Reopened(tasks: map<TaskId, Task>, ids: seq<TaskId>): map<TaskId, Task> {
    map id | id in tasks :: if id in ids then tasks[id].(isComplete := false, completedAt := None) else tasks[id]
  }

  function RaiseDispute(c: CaseState, ids: seq<TaskId>, hasProfile: bool): Outcome {
    if c.status != CustomerReview then Outcome(c, Some(NotUnderReview))
    else if |FoundTasks(c, ids)| != |ids| then Outcome(c, Some(NotTasksOfThisCase))
    else if !hasProfile then Outcome(c, Some(NoCustomerProfile))
    else
      Outcome(
        MoveTo(c, Disputed).(disputes := c.disputes + [Dispute(ids, true)], tasks := Reopened(c.tasks, ids)),
        None)
  }

  /** The oldest open dispute is resolved; with none open nothing changes. */
  function ResolveOldest(disputes: seq<Dispute>): seq<Dispute> {
    if disputes == [] then []
    else if disputes[0].open then [disputes[0].(open := false)] + disputes[1..]
    else [disputes[0]] + ResolveOldest(disputes[1..])
  }

  function ResolveDispute(c: CaseState): Outcome {
    if c.status != Disputed then Outcome(c, Some(NotDisputed))
    else Outcome(MoveTo(c, AdditionalWork).(disputes := ResolveOldest(c.disputes)), None)
  }

  /** A request already recorded is answered with its row before anything is checked. */
  function SubmitEvidence(c: CaseState, request: Option<RequestId>, keyIssued: bool, uploaded: bool): Outcome {
    if request.Some? && request in c.evidence then Outcome(c, None)
    else if c.status != InProgress then Outcome(c, Some(NotInProgress))
    else if !keyIssued then Outcome(c, Some(KeyNotIssued))
    else if !uploaded then Outcome(c, Some(UploadMissing))
    else Outcome(c.(evidence := c.evidence + [request]), None)
  }

  function CompleteFieldwork(c: CaseState): Outcome {
    if c.evidence == [] then Outcome(c, Some(NoEvidence)) else ApplyTransition(c, EvidenceSubmitted)
  }

  /** The review is opened and logged, whatever its outcome, before the required fields are checked. */
  function OpenReview(c: CaseState, outcome: QcOutcome): CaseState {
    var review := if c.status == EvidenceSubmitted then MoveTo(c, QualityControl) else c;
    review.(reviews := c.reviews + [outcome])
  }

  /** A blank note counts as absent. */
  function PerformQc(c: CaseState, outcome: QcOutcome, hasSummary: bool, note: Option<string>, taskId: TaskId): Outcome {
    if c.status != EvidenceSubmitted && c.status != QualityControl then Outcome(c, Some(NotInQc))
    else
      var reviewing := OpenReview(c, outcome);
      match outcome
      case QcApproved =>
        if !hasSummary then Outcome(reviewing, Some(SummaryRequired)) else Outcome(MoveTo(reviewing, CustomerReview), None)
      case PassWithLimitation =>
        if !hasSummary then Outcome(reviewing, Some(SummaryRequired))
        else if note.None? then Outcome(reviewing, Some(NoteRequired))
        else Outcome(MoveTo(reviewing, CustomerReview), None)
      case Rework => Outcome(MoveTo(reviewing, InProgress), None)
      case RevisitRequired =>
        if note.None? then Outcome(reviewing, Some(NoteRequired))
        else if taskId in reviewing.tasks then Outcome(reviewing, Some(TaskExists))
        else
          var revisit := Task("Revisit required: " + note.value, true, false, None);
          Outcome(MoveTo(reviewing, InProgress).(tasks := reviewing.tasks[taskId := revisit]), None)
      case Escalate => Outcome(reviewing, None)
      case Incident => Outcome(reviewing, None)
  }

  /** One service call. */
  datatype CaseEvent =
    | EvTransition(to: CaseStatus)
    | EvApproval(action: ApprovalAction)
    | EvHold
    | EvResume
    | EvAddTask(newId: TaskId, title: string, isRequired: Option<bool>)
    | EvUpdateTask(id: TaskId, newTitle: Option<string>, newRequired: Option<bool>)
    | EvRemoveTask(id: TaskId)
    | EvCompleteTask(id: TaskId, now: Time)
    | EvRaiseDispute(ids: seq<TaskId>, hasProfile: bool)
    | EvResolveDispute
    | EvSubmitEvidence(request: Option<RequestId>, keyIssued: bool, uploaded: bool)
    | EvCompleteFieldwork
    | EvPerformQc(outcome: QcOutcome, hasSummary: bool, note: Option<string>, taskId: TaskId)

  function Step(c: CaseState, e: CaseEvent): Outcome {
    match e
    case EvTransition(to) => ApplyTransition(c, to)
    case EvApproval(action) => RecordApproval(c, action)
    case EvHold => Hold(c)
    case EvResume => Resume(c)
    case EvAddTask(id, title, isRequired) => AddTask(c, id, title, isRequired)
    case EvUpdateTask(id, title, isRequired) => UpdateTask(c, id, title, isRequired)
    case EvRemoveTask(id) => RemoveTask(c, id)
    case EvCompleteTask(id, now) => CompleteTask(c, id, now)
    case EvRaiseDispute(ids, hasProfile) => RaiseDispute(c, ids, hasProfile)
    case EvResolveDispute => ResolveDispute(c)
    case EvSubmitEvidence(request, keyIssued, uploaded) => SubmitEvidence(c, request, keyIssued, uploaded)
    case EvCompleteFieldwork => CompleteFieldwork(c)
    case EvPerformQc(outcome, hasSummary, note, taskId) => PerformQc(c, outcome, hasSummary, note, taskId)
  }

  /** Any number of calls in any order; a call that throws leaves whatever it had already written. */
  function Run(c: CaseState, events: seq<CaseEvent>): CaseState
    decreases |events|
  {
    if events == [] then c else Run(Step(c, events[0]).next, events[1..])
  }
}
