/** The service methods themselves, updating one case's rows in place, one database write at a time. */
module CaseService {
  import opened Wrappers
  import opened CaseStateMachine
  import opened CaseRecord
  import opened CaseRuns

  class ServiceCase {
    var status: CaseStatus
    var heldFromStatus: Option<CaseStatus>
    var history: seq<HistoryRow>
    var tasks: map<TaskId, Task>
    var disputes: seq<Dispute>
    var evidence: seq<Option<RequestId>>
    var reviews: seq<QcOutcome>

    function State(): CaseState
      reads this
    {
      CaseState(status, heldFromStatus, history, tasks, disputes, evidence, reviews)
    }

    /** History, held-from status, open disputes and completion stamps agree. */
    ghost predicate Valid()
      reads this
    {
      CaseInvariant(State())
    }

    constructor (checklist: map<TaskId, Task>)
      requires Unstarted(checklist)
      ensures State() == Created(checklist) && Valid()
    {
      status, heldFromStatus := Draft, None;
      tasks, disputes, evidence, reviews := checklist, [], [], [];
      history := [HistoryRow(None, Draft)];
      new;
      ReachableCase(checklist, []);
    }

    method TransitionCase(to: CaseStatus) returns (error: Option<CaseError>)
      requires Valid()
      modifies this
      ensures Valid() && old(history) <= history
      ensures Outcome(State(), error) == ApplyTransition(old(State()), to)
    {
      StepIsLawful(State(), EvTransition(to));
      var from := status;
      if !IsValidTransition(from, to) {
        return Some(InvalidTransition(from, to));
      }
      status := to;
      history := history + [HistoryRow(Some(from), to)];
      return None;
    }

    method Approve(action: ApprovalAction) returns (error: Option<CaseError>)
      requires Valid()
      modifies this
      ensures Valid() && old(history) <= history
      ensures Outcome(State(), error) == CaseRecord.RecordApproval(old(State()), action)
    {
      StepIsLawful(State(), EvApproval(action));
      if action == ApproveReport && status == CustomerReview {
        error := TransitionCase(Approved);
        error := TransitionCase(Completed);
      } else if action == RequestAdditionalWork && status == CustomerReview {
        error := TransitionCase(AdditionalWork);
      } else {
        error := None;
      }
    }

    method HoldCase() returns (error: Option<CaseError>)
      requires Valid()
      modifies this
      ensures Valid() && old(history) <= history
      ensures Outcome(State(), error) == CaseRecord.Hold(old(State()))
    {
      StepIsLawful(State(), EvHold);
      if status == OnHold {
        return Some(AlreadyOnHold);
      }
      if status == Completed || status == Closed {
        return Some(CannotHold(status));
      }
      var from := status;
      status, heldFromStatus := OnHold, Some(from);
      history := history + [HistoryRow(Some(from), OnHold)];
      return None;
    }

    method ResumeCase() returns (error: Option<CaseError>)
      requires Valid()
      modifies this
      ensures Valid() && old(history) <= history
      ensures Outcome(State(), error) == CaseRecord.Resume(old(State()))
    {
      StepIsLawful(State(), EvResume);
      if status != OnHold || heldFromStatus.None? {
        return Some(NotOnHold);
      }
      var resumeTo := heldFromStatus.value;
      status, heldFromStatus := resumeTo, None;
      history := history + [HistoryRow(Some(OnHold), resumeTo)];
      return None;
    }

    method AddChecklistTask(id: TaskId, title: string, isRequired: Option<bool>) returns (error: Option<CaseError>)
      requires Valid()
      modifies this
      ensures Valid() && old(history) <= history
      ensures Outcome(State(), error) == CaseRecord.AddTask(old(State()), id, title, isRequired)
    {
      StepIsLawful(State(), EvAddTask(id, title, isRequired));
      if status == Completed || status == Closed {
        return Some(ChecklistFrozen(status));
      }
      if id in tasks {
        return Some(TaskExists);
      }
      var required := true;
      if isRequired.Some? {
        required := isRequired.value;
      }
      tasks := tasks[id := Task(title, required, false, None)];
      return None;
    }

    method UpdateChecklistTask(id: TaskId, title: Option<string>, isRequired: Option<bool>)
      returns (error: Option<CaseError>)
      requires Valid()
      modifies this
      ensures Valid() && old(history) <= history
      ensures Outcome(State(), error) == CaseRecord.UpdateTask(old(State()), id, title, isRequired)
    {
      StepIsLawful(State(), EvUpdateTask(id, title, isRequired));
      if id !in tasks {
        return Some(TaskNotFound);
      }
      var task := tasks[id];
      if task.isComplete {
        return Some(TaskComplete);
      }
      if title.None? && isRequired.None? {
        return Some(NothingToUpdate);
      }
      if title.Some? {
        task := task.(title := title.value);
      }
      if isRequired.Some? {
        task := task.(isRequired := isRequired.value);
      }
      tasks := tasks[id := task];
      return None;
    }

    method RemoveChecklistTask(id: TaskId) returns (error: Option<CaseError>)
      requires Valid()
      modifies this
      ensures Valid() && old(history) <= history
      ensures Outcome(State(), error) == CaseRecord.RemoveTask(old(State()), id)
    {
      StepIsLawful(State(), EvRemoveTask(id));
      if id !in tasks {
        return Some(TaskNotFound);
      }
      if tasks[id].isComplete {
        return Some(TaskComplete);
      }
      tasks := tasks - {id};
      return None;
    }

    method CompleteChecklistTask(id: TaskId, now: Time) returns (error: Option<CaseError>)
      requires Valid()
      modifies this
      ensures Valid() && old(history) <= history
      ensures Outcome(State(), error) == CaseRecord.CompleteTask(old(State()), id, now)
    {
      StepIsLawful(State(), EvCompleteTask(id, now));
      if id !in tasks {
        return Some(TaskNotFound);
      }
      if tasks[id].isComplete {
        return None;
      }
      tasks := tasks[id := tasks[id].(isComplete := true, completedAt := Some(now))];
      return None;
    }

    method DisputeReport(ids: seq<TaskId>, hasProfile: bool) returns (error: Option<CaseError>)
      requires Valid()
      modifies this
      ensures Valid() && old(history) <= history
      ensures Outcome(State(), error) == CaseRecord.RaiseDispute(old(State()), ids, hasProfile)
    {
      DisputeIsLawful(State(), ids, hasProfile);
      hide CaseInvariant;
      if status != CustomerReview {
        return Some(NotUnderReview);
      }
      if |FoundTasks(State(), ids)| != |ids| {
        return Some(NotTasksOfThisCase);
      }
      if !hasProfile {
        return Some(NoCustomerProfile);
      }
      disputes := disputes + [Dispute(ids, true)];
      tasks := Reopened(tasks, ids);
      status := Disputed;
      history := history + [HistoryRow(Some(CustomerReview), Disputed)];
      return None;
    }

    method AcceptDispute() returns (error: Option<CaseError>)
      requires Valid()
      modifies this
      ensures Valid() && old(history) <= history
      ensures Outcome(State(), error) == CaseRecord.ResolveDispute(old(State()))
    {
      ResolutionIsLawful(State());
      hide CaseInvariant, ResolveOldest;
      if status != Disputed {
        return Some(NotDisputed);
      }
      CloseOldestDispute();
      status := AdditionalWork;
      history := history + [HistoryRow(Some(Disputed), AdditionalWork)];
      return None;
    }

    /** Finds the first open dispute in creation order and marks it resolved. */
    method CloseOldestDispute()
      modifies this`disputes
      ensures disputes == ResolveOldest(old(disputes))
    {
      var i := 0;
      while i < |disputes| && !disputes[i].open
        invariant i <= |disputes| && disputes == old(disputes)
        invariant forall j :: 0 <= j < i ==> !disputes[j].open
      {
        i := i + 1;
      }
      OldestAt(disputes, i);
      if i < |disputes| {
        disputes := disputes[i := disputes[i].(open := false)];
      }
    }

    method AddEvidence(request: Option<RequestId>, keyIssued: bool, uploaded: bool) returns (error: Option<CaseError>)
      requires Valid()
      modifies this
      ensures Valid() && old(history) <= history
      ensures Outcome(State(), error) == CaseRecord.SubmitEvidence(old(State()), request, keyIssued, uploaded)
    {
      StepIsLawful(State(), EvSubmitEvidence(request, keyIssued, uploaded));
      if request.Some? && request in evidence {
        return None;
      }
      if status != InProgress {
        return Some(NotInProgress);
      }
      if !keyIssued {
        return Some(KeyNotIssued);
      }
      if !uploaded {
        return Some(UploadMissing);
      }
      evidence := evidence + [request];
      return None;
    }

    method FinishFieldwork() returns (error: Option<CaseError>)
      requires Valid()
      modifies this
      ensures Valid() && old(history) <= history
      ensures Outcome(State(), error) == CaseRecord.CompleteFieldwork(old(State()))
    {
      StepIsLawful(State(), EvCompleteFieldwork);
      if evidence == [] {
        return Some(NoEvidence);
      }
      error := TransitionCase(EvidenceSubmitted);
    }

    /** The review is opened and logged before its outcome is looked at. */
    method BeginReview(outcome: QcOutcome)
      requires Valid() && (status == EvidenceSubmitted || status == QualityControl)
      modifies this
      ensures Valid() && State() == OpenReview(old(State()), outcome)
    {
      hide CaseInvariant;
      if status == EvidenceSubmitted {
        var _ := TransitionCase(QualityControl);
      }
      LogKeeps(State(), reviews + [outcome]);
      reviews := reviews + [outcome];
    }

    method IssueReport(outcome: QcOutcome, hasSummary: bool, note: Option<string>) returns (error: Option<CaseError>)
      requires Valid() && status == QualityControl
      modifies this
      ensures Valid()
      ensures !hasSummary ==> error == Some(SummaryRequired) && State() == old(State())
      ensures hasSummary && outcome == PassWithLimitation && note.None? ==> error == Some(NoteRequired) && State() == old(State())
      ensures hasSummary && (outcome == PassWithLimitation ==> note.Some?) ==>
                error.None? && State() == MoveTo(old(State()), CustomerReview)
    {
      hide CaseInvariant;
      if !hasSummary {
        return Some(SummaryRequired);
      }
      if outcome == PassWithLimitation && note.None? {
        return Some(NoteRequired);
      }
      error := TransitionCase(CustomerReview);
    }

    method OrderRevisit(note: Option<string>, taskId: TaskId) returns (error: Option<CaseError>)
      requires Valid() && status == QualityControl
      modifies this
      ensures Valid()
      ensures note.None? ==> error == Some(NoteRequired) && State() == old(State())
      ensures note.Some? && taskId in old(tasks) ==> error == Some(TaskExists) && State() == old(State())
      ensures note.Some? && taskId !in old(tasks) ==>
                && error.None?
                && State() == MoveTo(old(State()), InProgress).(
                     tasks := old(tasks)[taskId := Task("Revisit required: " + note.value, true, false, None)])
    {
      hide CaseInvariant;
      if note.None? {
        return Some(NoteRequired);
      }
      if taskId in tasks {
        return Some(TaskExists);
      }
      NewTaskKeeps(State(), taskId, "Revisit required: " + note.value);
      tasks := tasks[taskId := Task("Revisit required: " + note.value, true, false, None)];
      error := TransitionCase(InProgress);
    }

    method ReviewEvidence(outcome: QcOutcome, hasSummary: bool, note: Option<string>, taskId: TaskId)
      returns (error: Option<CaseError>)
      requires Valid()
      modifies this
      ensures Valid() && old(history) <= history
      ensures Outcome(State(), error) == CaseRecord.PerformQc(old(State()), outcome, hasSummary, note, taskId)
    {
      QcIsLawful(State(), outcome, hasSummary, note, taskId);
      hide CaseInvariant;
      if status != EvidenceSubmitted && status != QualityControl {
        return Some(NotInQc);
      }
      BeginReview(outcome);
      hide OpenReview;
      assert status == QualityControl;
      if outcome == QcApproved || outcome == PassWithLimitation {
        error := IssueReport(outcome, hasSummary, note);
      } else if outcome == Rework {
        error := TransitionCase(InProgress);
      } else if outcome == RevisitRequired {
        error := OrderRevisit(note, taskId);
      } else {
        error := None;
      }
    }
  }

  lemma StepIsLawful(c: CaseState, e: CaseEvent)
    requires CaseInvariant(c)
    ensures CaseInvariant(Step(c, e).next) && c.history <= Step(c, e).next.history
  {
    hide *;
    StepKeepsInvariant(c, e);
    HistoryGrows(c, e);
  }

  lemma QcIsLawful(c: CaseState, outcome: QcOutcome, hasSummary: bool, note: Option<string>, taskId: TaskId)
    requires CaseInvariant(c)
    ensures var next := PerformQc(c, outcome, hasSummary, note, taskId).next;
            CaseInvariant(next) && c.history <= next.history
  {
    hide CaseInvariant, PerformQc;
    StepIsLawful(c, EvPerformQc(outcome, hasSummary, note, taskId));
  }

  lemma DisputeIsLawful(c: CaseState, ids: seq<TaskId>, hasProfile: bool)
    requires CaseInvariant(c)
    ensures var next := RaiseDispute(c, ids, hasProfile).next;
            CaseInvariant(next) && c.history <= next.history
  {
    hide CaseInvariant, RaiseDispute;
    StepIsLawful(c, EvRaiseDispute(ids, hasProfile));
  }

  lemma ResolutionIsLawful(c: CaseState)
    requires CaseInvariant(c)
    ensures var next := ResolveDispute(c).next;
            CaseInvariant(next) && c.history <= next.history
  {
    hide CaseInvariant, ResolveDispute;
    StepIsLawful(c, EvResolveDispute);
  }

  lemma LogKeeps(c: CaseState, reviews: seq<QcOutcome>)
    requires CaseInvariant(c)
    ensures CaseInvariant(c.(reviews := reviews))
  {
  }

  /** Resolving the oldest open dispute changes the first open one, if there is one. */
  lemma {:induction false} OldestAt(disputes: seq<Dispute>, i: nat)
    requires i <= |disputes| && forall j :: 0 <= j < i ==> !disputes[j].open
    requires i < |disputes| ==> disputes[i].open
    ensures ResolveOldest(disputes) == if i < |disputes| then disputes[i := disputes[i].(open := false)] else disputes
  {
    if i > 0 {
      OldestAt(disputes[1..], i - 1);
      assert disputes == [disputes[0]] + disputes[1..];
    }
  }
}
