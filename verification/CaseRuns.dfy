/** What every run of service calls on a case guarantees. */
module CaseRuns {
  import opened Wrappers
  import opened CaseStateMachine
  import opened CaseRecord

  /** When one history row may follow another: a hold, the matching resume, or a move of the state machine. */
  predicate RowFollows(prev: HistoryRow, row: HistoryRow) {
    && row.from == Some(prev.to)
    && (if row.to == OnHold then prev.to != OnHold && prev.to != Completed && prev.to != Closed
        else if prev.to == OnHold then prev.from == Some(row.to)
        else Edge(prev.to, row.to))
  }

  predicate ValidHistory(h: seq<HistoryRow>) {
    && |h| > 0
    && h[0] == HistoryRow(None, Draft)
    && forall i :: 1 <= i < |h| ==> RowFollows(h[i - 1], h[i])
  }

  /** The status a row leaves the case in, looking through a hold. */
  function Effective(row: HistoryRow): CaseStatus {
    if row.to == OnHold && row.from.Some? then row.from.value else row.to
  }

  function Last(h: seq<HistoryRow>): HistoryRow
    requires |h| > 0
  {
    h[|h| - 1]
  }

  function OpenDisputes(disputes: seq<Dispute>): nat {
    if disputes == [] then 0 else (if disputes[0].open then 1 else 0) + OpenDisputes(disputes[1..])
  }

  predicate HistoryAgrees(c: CaseState) {
    && ValidHistory(c.history)
    && Last(c.history).to == c.status
    && c.heldFrom == (if c.status == OnHold then Last(c.history).from else None)
  }

  predicate DisputesAgree(c: CaseState) {
    |c.history| > 0 && OpenDisputes(c.disputes) == if Effective(Last(c.history)) == Disputed then 1 else 0
  }

  predicate Stamped(tasks: map<TaskId, Task>) {
    forall id :: id in tasks ==> (tasks[id].isComplete <==> tasks[id].completedAt.Some?)
  }

  predicate CaseInvariant(c: CaseState) {
    HistoryAgrees(c) && DisputesAgree(c) && Stamped(c.tasks)
  }

  // ---- every step keeps the invariant ----

  lemma MoveKeepsHistory(c: CaseState, to: CaseStatus)
    requires HistoryAgrees(c) && Edge(c.status, to)
    ensures HistoryAgrees(MoveTo(c, to))
    ensures Effective(Last(MoveTo(c, to).history)) == to
  {
    var row := HistoryRow(Some(c.status), to);
    assert RowFollows(Last(c.history), row);
  }

  lemma OpenDisputesAppend(disputes: seq<Dispute>, d: Dispute)
    ensures OpenDisputes(disputes + [d]) == OpenDisputes(disputes) + if d.open then 1 else 0
  {
    if disputes != [] {
      assert (disputes + [d])[1..] == disputes[1..] + [d];
      OpenDisputesAppend(disputes[1..], d);
    }
  }

  lemma ResolveClosesOne(disputes: seq<Dispute>)
    ensures OpenDisputes(ResolveOldest(disputes))
         == if OpenDisputes(disputes) == 0 then 0 else OpenDisputes(disputes) - 1
  {
  }

  lemma MapMoveKeeps(c: CaseState, to: CaseStatus)
    requires CaseInvariant(c) && IsValidTransition(c.status, to)
    ensures CaseInvariant(MoveTo(c, to))
  {
    MoveKeepsHistory(c, to);
  }

  lemma ReviewKeeps(c: CaseState, outcome: QcOutcome)
    requires CaseInvariant(c) && (c.status == EvidenceSubmitted || c.status == QualityControl)
    ensures CaseInvariant(OpenReview(c, outcome)) && OpenReview(c, outcome).status == QualityControl
  {
    if c.status == EvidenceSubmitted {
      MapMoveKeeps(c, QualityControl);
    }
  }

  lemma NewTaskKeeps(c: CaseState, id: TaskId, title: string)
    requires CaseInvariant(c)
    ensures CaseInvariant(c.(tasks := c.tasks[id := Task(title, true, false, None)]))
  {
  }

  lemma QcKeeps(c: CaseState, outcome: QcOutcome, hasSummary: bool, note: Option<string>, taskId: TaskId)
    requires CaseInvariant(c)
    ensures CaseInvariant(PerformQc(c, outcome, hasSummary, note, taskId).next)
  {
    hide CaseInvariant, OpenReview;
    if c.status == EvidenceSubmitted || c.status == QualityControl {
      var reviewing := OpenReview(c, outcome);
      ReviewKeeps(c, outcome);
      MapMoveKeeps(reviewing, CustomerReview);
      MapMoveKeeps(reviewing, InProgress);
      if note.Some? {
        NewTaskKeeps(MoveTo(reviewing, InProgress), taskId, "Revisit required: " + note.value);
      }
    }
  }

  lemma HoldKeeps(c: CaseState)
    requires CaseInvariant(c)
    ensures CaseInvariant(Hold(c).next)
  {
    assert Hold(c).error.None? ==> RowFollows(Last(c.history), HistoryRow(Some(c.status), OnHold));
  }

  lemma ResumeKeeps(c: CaseState)
    requires CaseInvariant(c)
    ensures CaseInvariant(Resume(c).next)
  {
    var n := |c.history|;
    if c.status == OnHold && n > 1 {
      assert RowFollows(c.history[n - 2], c.history[n - 1]);
      assert RowFollows(Last(c.history), HistoryRow(Some(OnHold), c.heldFrom.value));
    }
  }

  lemma DisputeKeeps(c: CaseState, ids: seq<TaskId>, hasProfile: bool)
    requires CaseInvariant(c)
    ensures CaseInvariant(RaiseDispute(c, ids, hasProfile).next) && CaseInvariant(ResolveDispute(c).next)
  {
    if c.status == CustomerReview {
      MoveKeepsHistory(c, Disputed);
      OpenDisputesAppend(c.disputes, Dispute(ids, true));
    }
    if c.status == Disputed {
      MoveKeepsHistory(c, AdditionalWork);
      ResolveClosesOne(c.disputes);
    }
  }

  /** Calls that touch only the checklist or the evidence count. */
  lemma ChecklistKeeps(c: CaseState, e: CaseEvent)
    requires CaseInvariant(c)
    requires e.EvAddTask? || e.EvUpdateTask? || e.EvRemoveTask? || e.EvCompleteTask? || e.EvSubmitEvidence?
    ensures CaseInvariant(Step(c, e).next)
  {
    var next := Step(c, e).next;
    assert next.history == c.history && next.status == c.status && next.disputes == c.disputes;
  }

  lemma ApprovalKeeps(c: CaseState, action: ApprovalAction)
    requires CaseInvariant(c)
    ensures CaseInvariant(RecordApproval(c, action).next)
  {
    if c.status == CustomerReview {
      MapMoveKeeps(c, AdditionalWork);
      MapMoveKeeps(c, Approved);
      MapMoveKeeps(MoveTo(c, Approved), Completed);
    }
  }

  lemma TransitionKeeps(c: CaseState, to: CaseStatus)
    requires CaseInvariant(c)
    ensures CaseInvariant(ApplyTransition(c, to).next)
  {
    if IsValidTransition(c.status, to) {
      MapMoveKeeps(c, to);
    }
  }

  lemma TransitionMoves(c: CaseState, to: CaseStatus)
    ensures IsValidTransition(c.status, to) ==> ApplyTransition(c, to) == Outcome(MoveTo(c, to), None)
    ensures CaseInvariant(c) ==> CaseInvariant(ApplyTransition(c, to).next)
  {
    if CaseInvariant(c) {
      TransitionKeeps(c, to);
    }
  }

  lemma StepKeepsInvariant(c: CaseState, e: CaseEvent)
    requires CaseInvariant(c)
    ensures CaseInvariant(Step(c, e).next)
  {
    match e
    case EvTransition(to) => TransitionKeeps(c, to);
    case EvApproval(action) => ApprovalKeeps(c, action);
    case EvHold => HoldKeeps(c);
    case EvResume => ResumeKeeps(c);
    case EvRaiseDispute(ids, hasProfile) => DisputeKeeps(c, ids, hasProfile);
    case EvResolveDispute => DisputeKeeps(c, [], false);
    case EvCompleteFieldwork => TransitionKeeps(c, EvidenceSubmitted);
    case EvPerformQc(outcome, hasSummary, note, taskId) => QcKeeps(c, outcome, hasSummary, note, taskId);
    case _ => ChecklistKeeps(c, e);
  }

  lemma {:induction false} RunKeepsInvariant(c: CaseState, events: seq<CaseEvent>)
    requires CaseInvariant(c)
    ensures CaseInvariant(Run(c, events))
    decreases |events|
  {
    if events != [] {
      StepKeepsInvariant(c, events[0]);
      RunKeepsInvariant(Step(c, events[0]).next, events[1..]);
    }
  }

  lemma HistoryGrows(c: CaseState, e: CaseEvent)
    ensures c.history <= Step(c, e).next.history
  {
    if e.EvPerformQc? {
      QcGrows(c, e.outcome, e.hasSummary, e.note, e.taskId);
    }
  }

  lemma QcGrows(c: CaseState, outcome: QcOutcome, hasSummary: bool, note: Option<string>, taskId: TaskId)
    ensures c.history <= PerformQc(c, outcome, hasSummary, note, taskId).next.history
  {
    assert c.history <= OpenReview(c, outcome).history;
  }

  /** Rows are only ever added to a case's history. */
  lemma {:induction false} HistoryIsAppendOnly(c: CaseState, events: seq<CaseEvent>)
    ensures c.history <= Run(c, events).history
    decreases |events|
  {
    hide Step;
    if events != [] {
      HistoryGrows(c, events[0]);
      HistoryIsAppendOnly(Step(c, events[0]).next, events[1..]);
    }
  }

  predicate Unstarted(checklist: map<TaskId, Task>) {
    forall id :: id in checklist ==> !checklist[id].isComplete && checklist[id].completedAt.None?
  }

  /** Every reachable case: history, held-from status, open disputes and completion stamps all agree. */
  lemma ReachableCase(checklist: map<TaskId, Task>, events: seq<CaseEvent>)
    requires Unstarted(checklist)
    ensures CaseInvariant(Run(Created(checklist), events))
    ensures var c := Run(Created(checklist), events);
            && (c.heldFrom.Some? <==> c.status == OnHold)
            && OpenDisputes(c.disputes) ==
               (if c.status == Disputed || c.heldFrom == Some(Disputed) then 1 else 0)
  {
    RunKeepsInvariant(Created(checklist), events);
    var c := Run(Created(checklist), events);
    var n := |c.history|;
    if n > 1 {
      assert RowFollows(c.history[n - 2], c.history[n - 1]);
    }
  }

  // ---- the reachable histories, exactly ----

  lemma {:induction false} RunAppend(c: CaseState, first: seq<CaseEvent>, rest: seq<CaseEvent>)
    ensures Run(c, first + rest) == Run(Run(c, first), rest)
    decreases |first|
  {
    if first == [] {
      assert first + rest == rest;
    } else {
      assert (first + rest)[1..] == first[1..] + rest;
      RunAppend(Step(c, first[0]).next, first[1..], rest);
    }
  }

  /** The calls that append one given row; a dispute needs a checklist item to point at. */
  function CallsFor(row: HistoryRow): seq<CaseEvent> {
    if row.to == OnHold then [EvHold]
    else if row.from == Some(OnHold) then [EvResume]
    else if row.to == Disputed then [EvAddTask(0, "", None), EvRaiseDispute([0], true)]
    else if row.from == Some(Disputed) then [EvResolveDispute]
    else [EvTransition(row.to)]
  }

  lemma RunTwo(c: CaseState, e: CaseEvent, f: CaseEvent)
    ensures Run(c, [e, f]) == Step(Step(c, e).next, f).next
  {
    hide Step;
    assert [e, f][1..] == [f] && [f][1..] == [];
    assert Run(Step(Step(c, e).next, f).next, []) == Step(Step(c, e).next, f).next;
  }

  lemma DisputeAppendsRow(c: CaseState)
    requires c.status == CustomerReview
    ensures Run(c, [EvAddTask(0, "", None), EvRaiseDispute([0], true)]).history
         == c.history + [HistoryRow(Some(CustomerReview), Disputed)]
  {
    RunTwo(c, EvAddTask(0, "", None), EvRaiseDispute([0], true));
    hide Run;
    var added := AddTask(c, 0, "", None).next;
    assert 0 in added.tasks && added.status == CustomerReview && added.history == c.history;
    hide AddTask;
    assert FoundTasks(added, [0]) == {0};
    hide FoundTasks, Reopened;
  }

  lemma CallsAppendRow(c: CaseState, row: HistoryRow)
    requires CaseInvariant(c) && RowFollows(Last(c.history), row)
    ensures Run(c, CallsFor(row)).history == c.history + [row]
  {
    if row.to != OnHold && row.from != Some(OnHold) && row.to == Disputed {
      DisputeAppendsRow(c);
    } else {
      assert CallsFor(row)[1..] == [];
      assert Run(c, CallsFor(row)) == Step(c, CallsFor(row)[0]).next;
    }
  }

  lemma ValidBefore(h: seq<HistoryRow>)
    requires ValidHistory(h) && |h| > 1
    ensures ValidHistory(h[..|h| - 1]) && RowFollows(Last(h[..|h| - 1]), Last(h))
  {
    var before := h[..|h| - 1];
    forall i | 1 <= i < |before|
      ensures RowFollows(before[i - 1], before[i])
    {
      assert RowFollows(h[i - 1], h[i]);
    }
    assert RowFollows(h[|h| - 2], h[|h| - 1]);
  }

  lemma ExtendRun(c: CaseState, events: seq<CaseEvent>, row: HistoryRow)
    requires CaseInvariant(c) && Run(c, events).history != []
    requires RowFollows(Last(Run(c, events).history), row)
    ensures Run(c, events + CallsFor(row)).history == Run(c, events).history + [row]
  {
    RunKeepsInvariant(c, events);
    CallsAppendRow(Run(c, events), row);
    RunAppend(c, events, CallsFor(row));
  }

  lemma {:induction false} HistoryIsReachable(h: seq<HistoryRow>) returns (events: seq<CaseEvent>)
    requires ValidHistory(h)
    ensures Run(Created(map[]), events).history == h
    decreases |h|
  {
    if |h| == 1 {
      events := [];
    } else {
      ValidBefore(h);
      events := HistoryIsReachable(h[..|h| - 1]);
      ExtendRun(Created(map[]), events, Last(h));
      events := events + CallsFor(Last(h));
      assert h[..|h| - 1] + [Last(h)] == h;
    }
  }

  /** A history can arise exactly when each row legally follows the one before it. */
  lemma ReachableHistories(h: seq<HistoryRow>)
    ensures ValidHistory(h) <==> exists events: seq<CaseEvent> :: Run(Created(map[]), events).history == h
  {
    if ValidHistory(h) {
      var events := HistoryIsReachable(h);
    }
    forall events: seq<CaseEvent> | Run(Created(map[]), events).history == h
      ensures ValidHistory(h)
    {
      RunKeepsInvariant(Created(map[]), events);
    }
  }

  // ---- what a legal history rules out ----

  /** The history with every hold row and every resume row struck out. */
  function WithoutHolds(h: seq<HistoryRow>): seq<CaseStatus> {
    if h == [] then []
    else if Last(h).to == OnHold || Last(h).from == Some(OnHold) then WithoutHolds(h[..|h| - 1])
    else WithoutHolds(h[..|h| - 1]) + [Last(h).to]
  }

  predicate IsWalk(w: seq<CaseStatus>) {
    |w| > 0 && w[0] == Draft && forall i :: 1 <= i < |w| ==> Edge(w[i - 1], w[i])
  }

  /** Striking out the holds leaves a walk of the map and the dispute detour, ending where the case stands. */
  lemma {:induction false} HoldsErase(h: seq<HistoryRow>)
    requires ValidHistory(h)
    ensures IsWalk(WithoutHolds(h))
    ensures WithoutHolds(h)[|WithoutHolds(h)| - 1] == Effective(Last(h))
  {
    hide Edge;
    var before := h[..|h| - 1];
    if |h| == 1 {
      assert WithoutHolds(before) == [];
    } else {
      ValidBefore(h);
      HoldsErase(before);
      var walk, row := WithoutHolds(before), Last(h);
      hide ValidHistory;
      if row.to == OnHold || row.from == Some(OnHold) {
        assert WithoutHolds(h) == walk;
      } else {
        assert WithoutHolds(h) == walk + [row.to];
        WalkOn(walk, row.to);
      }
    }
  }

  lemma WalkOn(walk: seq<CaseStatus>, to: CaseStatus)
    requires IsWalk(walk) && Edge(walk[|walk| - 1], to)
    ensures IsWalk(walk + [to])
  {
  }

  /** By the time a case stands at a stage, every stage up to it has been visited. */
  lemma {:induction false} StagesSeen(h: seq<HistoryRow>, i: nat, j: nat) returns (m: nat)
    requires ValidHistory(h) && i < |h|
    requires Effective(h[i]) != Closed && j <= Rank(Effective(h[i]))
    ensures m <= i && h[m].to == Stage(j)
    decreases i
  {
    if i == 0 {
      m := 0;
    } else {
      assert RowFollows(h[i - 1], h[i]);
      if h[i].to != OnHold && h[i - 1].to != OnHold {
        EdgeClimbsOneStage(h[i - 1].to, h[i].to);
        if j > Rank(h[i - 1].to) {
          m := i;
          return;
        }
      }
      m := StagesSeen(h, i - 1, j);
    }
  }

  /** No stage of the golden path is skipped: each earlier stage was visited strictly before. */
  lemma NoStageSkipped(h: seq<HistoryRow>, i: nat, k: nat, j: nat)
    requires ValidHistory(h) && i < |h|
    requires j < k < STAGES && h[i].to == Stage(k)
    ensures exists m :: 0 <= m < i && h[m].to == Stage(j)
  {
    StageRank(k);
    StageRank(j);
    var m := StagesSeen(h, i, j);
  }

  lemma {:induction false} ExecutionPersists(h: seq<HistoryRow>, i: nat, j: nat)
    requires ValidHistory(h) && i <= j < |h| && !PreExecution(Effective(h[i]))
    ensures !PreExecution(Effective(h[j]))
    decreases j
  {
    if i < j {
      ExecutionPersists(h, i, j - 1);
      assert RowFollows(h[j - 1], h[j]);
      if h[j].to != OnHold && h[j - 1].to != OnHold {
        EdgeStaysInExecution(h[j - 1].to, h[j].to);
      }
    }
  }

  /** Once in progress, a case never returns to a pre-execution status and closes only from Completed. */
  lemma NoReturnFromExecution(h: seq<HistoryRow>, i: nat, j: nat)
    requires ValidHistory(h) && i < j < |h| && h[i].to == InProgress
    ensures !PreExecution(h[j].to)
    ensures h[j].to == Closed ==> h[j].from == Some(Completed)
  {
    ExecutionPersists(h, i, j);
    ExecutionPersists(h, i, j - 1);
    assert RowFollows(h[j - 1], h[j]);
    if h[j].to != OnHold && h[j - 1].to != OnHold {
      EdgeStaysInExecution(h[j - 1].to, h[j].to);
    }
    if h[j - 1].to == OnHold {
      assert RowFollows(h[j - 2], h[j - 1]);
    }
  }

  // ---- which call brings a case where ----

  predicate PastQcGuard(c: CaseState) {
    c.status == EvidenceSubmitted || c.status == QualityControl
  }

  /** A QC call that issues a report. */
  predicate IssuesReport(c: CaseState, e: CaseEvent) {
    && e.EvPerformQc? && PastQcGuard(c) && e.hasSummary
    && (e.outcome == QcApproved || (e.outcome == PassWithLimitation && e.note.Some?))
  }

  /** A QC call that sends the agent back. */
  predicate SendsBack(c: CaseState, e: CaseEvent) {
    && e.EvPerformQc? && PastQcGuard(c)
    && (e.outcome == Rework || (e.outcome == RevisitRequired && e.note.Some? && e.taskId !in c.tasks))
  }

  /** Every way for one call to bring a case from another status to this one. */
  predicate Brings(c: CaseState, e: CaseEvent, to: CaseStatus) {
    || (e.EvResume? && c.status == OnHold && c.heldFrom == Some(to))
    || (e == EvTransition(to) && IsValidTransition(c.status, to))
    || match to
       case Completed => e == EvApproval(ApproveReport) && c.status == CustomerReview
       case AdditionalWork =>
         || (e == EvApproval(RequestAdditionalWork) && c.status == CustomerReview)
         || (e.EvResolveDispute? && c.status == Disputed)
       case OnHold => e.EvHold? && c.status != OnHold && c.status != Completed && c.status != Closed
       case Disputed =>
         && e.EvRaiseDispute? && c.status == CustomerReview && e.hasProfile
         && NoDuplicates(e.ids) && forall id :: id in e.ids ==> id in c.tasks
       case EvidenceSubmitted => e.EvCompleteFieldwork? && c.status == InProgress && c.evidence != []
       case QualityControl =>
         e.EvPerformQc? && c.status == EvidenceSubmitted && !IssuesReport(c, e) && !SendsBack(c, e)
       case CustomerReview => IssuesReport(c, e)
       case InProgress => SendsBack(c, e)
       case _ => false
  }

  lemma QcReaches(c: CaseState, e: CaseEvent, to: CaseStatus)
    requires c.status != to && e.EvPerformQc?
    ensures Step(c, e).next.status == to <==> Brings(c, e, to)
  {
    hide IsValidTransition;
  }

  lemma ReviewReaches(c: CaseState, e: CaseEvent, to: CaseStatus)
    requires c.status != to && (e.EvApproval? || e.EvCompleteFieldwork?)
    ensures Step(c, e).next.status == to <==> Brings(c, e, to)
  {
    assert IsValidTransition(c.status, EvidenceSubmitted) <==> c.status == InProgress;
    hide IsValidTransition;
  }

  lemma DisputeReaches(c: CaseState, e: CaseEvent, to: CaseStatus)
    requires c.status != to && (e.EvRaiseDispute? || e.EvResolveDispute?)
    ensures Step(c, e).next.status == to <==> Brings(c, e, to)
  {
    if e.EvRaiseDispute? {
      DisputeAcceptance(c, e.ids, e.hasProfile);
    }
    hide IsValidTransition, NoDuplicates, FoundTasks, Reopened, ResolveOldest;
  }

  lemma OthersReach(c: CaseState, e: CaseEvent, to: CaseStatus)
    requires c.status != to && !e.EvPerformQc? && !e.EvApproval? && !e.EvCompleteFieldwork?
    requires !e.EvRaiseDispute? && !e.EvResolveDispute?
    ensures Step(c, e).next.status == to <==> Brings(c, e, to)
  {
    hide IsValidTransition;
  }

  /** Exactly when a call brings a case to a status it was not in. */
  lemma StatusReached(c: CaseState, e: CaseEvent, to: CaseStatus)
    requires c.status != to
    ensures Step(c, e).next.status == to <==> Brings(c, e, to)
  {
    hide Step, Brings;
    if e.EvPerformQc? {
      QcReaches(c, e, to);
    } else if e.EvApproval? || e.EvCompleteFieldwork? {
      ReviewReaches(c, e, to);
    } else if e.EvRaiseDispute? || e.EvResolveDispute? {
      DisputeReaches(c, e, to);
    } else {
      OthersReach(c, e, to);
    }
  }

  /** The customer's decision on a report: approval completes the case in two recorded moves, a request for more
      work sends it back in one, and anything else, or at any other time, changes nothing. */
  lemma CustomerDecides(c: CaseState, action: ApprovalAction)
    ensures var next := Step(c, EvApproval(action)).next;
            if c.status == CustomerReview && action == ApproveReport then
              && next.status == Completed
              && next.history == c.history + [HistoryRow(Some(CustomerReview), Approved), HistoryRow(Some(Approved), Completed)]
            else if c.status == CustomerReview && action == RequestAdditionalWork then
              && next.status == AdditionalWork
              && next.history == c.history + [HistoryRow(Some(CustomerReview), AdditionalWork)]
            else next == c
  {
  }

  /** Why a call is refused, in the order the guards are met. */
  function WhyRefused(c: CaseState, e: CaseEvent): Option<CaseError> {
    match e
    case EvTransition(to) => if to in AllowedTransitions(c.status) then None else Some(InvalidTransition(c.status, to))
    case EvHold =>
      if c.status == OnHold then Some(AlreadyOnHold)
      else if c.status in {Completed, Closed} then Some(CannotHold(c.status)) else None
    case EvResume => if c.status == OnHold && c.heldFrom.Some? then None else Some(NotOnHold)
    case EvAddTask(id, _, _) =>
      if c.status in {Completed, Closed} then Some(ChecklistFrozen(c.status))
      else if id in c.tasks then Some(TaskExists) else None
    case EvUpdateTask(id, title, isRequired) =>
      if id !in c.tasks then Some(TaskNotFound) else if c.tasks[id].isComplete then Some(TaskComplete)
      else if title == None && isRequired == None then Some(NothingToUpdate) else None
    case EvRemoveTask(id) =>
      if id !in c.tasks then Some(TaskNotFound) else if c.tasks[id].isComplete then Some(TaskComplete) else None
    case EvCompleteTask(id, _) => if id in c.tasks then None else Some(TaskNotFound)
    case EvRaiseDispute(ids, hasProfile) =>
      if c.status != CustomerReview then Some(NotUnderReview)
      else if !NoDuplicates(ids) || exists id :: id in ids && id !in c.tasks then Some(NotTasksOfThisCase)
      else if !hasProfile then Some(NoCustomerProfile) else None
    case EvResolveDispute => if c.status == Disputed then None else Some(NotDisputed)
    case EvSubmitEvidence(request, keyIssued, uploaded) =>
      if request != None && request in c.evidence then None
      else if c.status != InProgress then Some(NotInProgress)
      else if !keyIssued then Some(KeyNotIssued) else if !uploaded then Some(UploadMissing) else None
    case EvCompleteFieldwork =>
      if |c.evidence| == 0 then Some(NoEvidence)
      else if c.status == InProgress then None else Some(InvalidTransition(c.status, EvidenceSubmitted))
    case EvPerformQc(outcome, hasSummary, note, taskId) =>
      if !PastQcGuard(c) then Some(NotInQc)
      else if Reports(outcome) && !hasSummary then Some(SummaryRequired)
      else if outcome in {PassWithLimitation, RevisitRequired} && note == None then Some(NoteRequired)
      else if outcome == RevisitRequired && taskId in c.tasks then Some(TaskExists) else None
    case EvApproval(_) => None
  }

  predicate Reports(outcome: QcOutcome) {
    outcome in {QcApproved, PassWithLimitation}
  }

  /** That is exactly the error of every call. */
  lemma RefusedExactly(c: CaseState, e: CaseEvent)
    ensures Step(c, e).error == WhyRefused(c, e)
  {
    if e.EvRaiseDispute? {
      DisputeRefused(c, e.ids, e.hasProfile);
    } else if e.EvPerformQc? {
      QcRefused(c, e);
    } else if e.EvCompleteFieldwork? {
      assert IsValidTransition(c.status, EvidenceSubmitted) <==> c.status == InProgress;
    }
    hide MoveTo, AllowedTransitions, NoDuplicates, RaiseDispute, PerformQc;
  }

  lemma QcRefused(c: CaseState, e: CaseEvent)
    requires e.EvPerformQc?
    ensures PerformQc(c, e.outcome, e.hasSummary, e.note, e.taskId).error == WhyRefused(c, e)
  {
    assert OpenReview(c, e.outcome).tasks == c.tasks;
    hide OpenReview, MoveTo;
  }

  lemma DisputeRefused(c: CaseState, ids: seq<TaskId>, hasProfile: bool)
    ensures RaiseDispute(c, ids, hasProfile).error == WhyRefused(c, EvRaiseDispute(ids, hasProfile))
  {
    DisputeAcceptance(c, ids, true);
    hide FoundTasks, Reopened, MoveTo;
  }

  // ---- disputes and the checklist ----

  predicate NoDuplicates(ids: seq<TaskId>) {
    forall i, j :: 0 <= i < j < |ids| ==> ids[i] != ids[j]
  }

  function Elements(ids: seq<TaskId>): set<TaskId> {
    set id | id in ids
  }

  /** A list has as many elements as entries exactly when no entry is repeated. */
  lemma {:induction false} DistinctCount(ids: seq<TaskId>)
    ensures |Elements(ids)| <= |ids|
    ensures |Elements(ids)| == |ids| <==> NoDuplicates(ids)
  {
    if ids != [] {
      var head, tail := ids[0], ids[1..];
      DistinctCount(tail);
      assert ids == [head] + tail;
      if head in tail {
        assert Elements(ids) == Elements(tail);
        var k :| 0 <= k < |tail| && tail[k] == head;
        assert ids[0] == ids[k + 1];
      } else {
        assert Elements(ids) == Elements(tail) + {head};
        DistinctTail(ids);
      }
    }
  }

  lemma DistinctTail(ids: seq<TaskId>)
    requires ids != [] && ids[0] !in ids[1..]
    ensures NoDuplicates(ids) <==> NoDuplicates(ids[1..])
  {
    forall i, j | 0 <= i < j < |ids| && NoDuplicates(ids[1..])
      ensures ids[i] != ids[j]
    {
      assert ids[j] == ids[1..][j - 1];
      assert i > 0 ==> ids[i] == ids[1..][i - 1];
    }
  }

  lemma SubsetCount(found: set<TaskId>, all: set<TaskId>)
    requires found <= all
    ensures |found| <= |all|
    ensures |found| == |all| <==> found == all
  {
    assert all == found + (all - found);
  }

  /** The length check accepts a list exactly when it is duplicate-free and all on this case. */
  lemma DisputeAcceptance(c: CaseState, ids: seq<TaskId>, hasProfile: bool)
    ensures RaiseDispute(c, ids, hasProfile).error.None?
       <==> && c.status == CustomerReview && hasProfile
            && NoDuplicates(ids) && forall id :: id in ids ==> id in c.tasks
  {
    var found := FoundTasks(c, ids);
    DistinctCount(ids);
    SubsetCount(found, Elements(ids));
    if found == Elements(ids) {
      forall id | id in ids
        ensures id in c.tasks
      {
        assert id in Elements(ids);
      }
    }
  }

  /** A call alters or deletes a completed checklist item exactly when it is an accepted dispute naming it. */
  lemma CompletedTaskStep(c: CaseState, e: CaseEvent, id: TaskId)
    requires id in c.tasks && c.tasks[id].isComplete
    ensures id in Step(c, e).next.tasks
    ensures Step(c, e).next.tasks[id] == c.tasks[id]
       <==> !(e.EvRaiseDispute? && Step(c, e).error.None? && id in e.ids)
    ensures e.EvRaiseDispute? && Step(c, e).error.None? && id in e.ids ==>
              Step(c, e).next.tasks[id] == c.tasks[id].(isComplete := false, completedAt := None)
  {
  }

  /** Over any run, a completed checklist item is kept as it was until an accepted dispute names it. */
  lemma {:induction false} CompletedTaskKept(c: CaseState, events: seq<CaseEvent>, id: TaskId)
    requires id in c.tasks && c.tasks[id].isComplete
    requires forall k :: 0 <= k < |events| && events[k].EvRaiseDispute? && id in events[k].ids ==>
               Step(Run(c, events[..k]), events[k]).error.Some?
    ensures id in Run(c, events).tasks && Run(c, events).tasks[id] == c.tasks[id]
    decreases |events|
  {
    if events != [] {
      var next := Step(c, events[0]).next;
      assert Run(c, events[..0]) == c;
      CompletedTaskStep(c, events[0], id);
      forall k | 0 <= k < |events[1..]| && events[1..][k].EvRaiseDispute? && id in events[1..][k].ids
        ensures Step(Run(next, events[1..][..k]), events[1..][k]).error.Some?
      {
        assert events[..k + 1][1..] == events[1..][..k];
        assert Run(c, events[..k + 1]) == Run(next, events[1..][..k]);
        assert events[k + 1] == events[1..][k];
      }
      CompletedTaskKept(next, events[1..], id);
    }
  }

  /** Exactly when a checklist item appears, and as what. */
  lemma ItemAppears(c: CaseState, e: CaseEvent, id: TaskId)
    requires id !in c.tasks
    ensures var added := e.EvAddTask? && e.newId == id && c.status != Completed && c.status != Closed;
            var revisit := SendsBack(c, e) && e.outcome == RevisitRequired && e.taskId == id;
            var tasks := Step(c, e).next.tasks;
            && (id in tasks <==> added || revisit)
            && (added ==> tasks[id] == Task(e.title, e.isRequired != Some(false), false, None))
            && (revisit ==> tasks[id] == Task("Revisit required: " + e.note.value, true, false, None))
  {
    hide AllowedTransitions;
  }

  /** Exactly when an item is deleted. */
  lemma ItemVanishes(c: CaseState, e: CaseEvent, id: TaskId)
    requires id in c.tasks
    ensures id !in Step(c, e).next.tasks <==> e == EvRemoveTask(id) && !c.tasks[id].isComplete
  {
    hide AllowedTransitions;
  }

  /** What can happen to an incomplete item: it is completed and stamped by the call that completes it, and edited
      by the call that edits it, in the fields that call gives. */
  lemma ItemChanges(c: CaseState, e: CaseEvent, id: TaskId)
    requires id in c.tasks && !c.tasks[id].isComplete && c.tasks[id].completedAt.None? && id in Step(c, e).next.tasks
    ensures var was, now := c.tasks[id], Step(c, e).next.tasks[id];
            && now.title == (if e.EvUpdateTask? && e.id == id && e.newTitle.Some? then e.newTitle.value else was.title)
            && now.isRequired == (if e.EvUpdateTask? && e.id == id && e.newRequired.Some? then e.newRequired.value else was.isRequired)
            && (now.isComplete <==> e.EvCompleteTask? && e.id == id)
            && now.completedAt == (if e.EvCompleteTask? && e.id == id then Some(e.now) else None)
  {
    hide AllowedTransitions;
  }

  /** An accepted dispute is recorded open with the items it names; accepting it closes every open one and changes
      nothing else about any. */
  lemma DisputeRecorded(c: CaseState, e: CaseEvent)
    requires CaseInvariant(c)
    ensures e.EvRaiseDispute? && Step(c, e).error.None? ==>
              Step(c, e).next.disputes == c.disputes + [Dispute(e.ids, true)]
    ensures e.EvResolveDispute? && c.status == Disputed ==>
              && OpenDisputes(Step(c, e).next.disputes) == 0
              && |Step(c, e).next.disputes| == |c.disputes|
              && forall k :: 0 <= k < |c.disputes| ==> Step(c, e).next.disputes[k].taskIds == c.disputes[k].taskIds
    ensures !(e.EvRaiseDispute? && Step(c, e).error.None?) && !(e.EvResolveDispute? && c.status == Disputed) ==>
              Step(c, e).next.disputes == c.disputes
  {
    hide AllowedTransitions;
    if e.EvResolveDispute? && c.status == Disputed {
      ResolveClosesOne(c.disputes);
      ResolveKeepsItems(c.disputes);
    }
  }

  lemma {:induction false} ResolveKeepsItems(disputes: seq<Dispute>)
    ensures |ResolveOldest(disputes)| == |disputes|
    ensures forall k :: 0 <= k < |disputes| ==> ResolveOldest(disputes)[k].taskIds == disputes[k].taskIds
  {
    if disputes != [] && !disputes[0].open {
      ResolveKeepsItems(disputes[1..]);
    }
  }

  /** Over any run from creation, an item of the seeded checklist that no call names is still there as seeded. */
  lemma {:induction false} SeededItemKept(c: CaseState, events: seq<CaseEvent>, id: TaskId)
    requires forall k :: 0 <= k < |events| ==> id !in Named(events[k])
    ensures id in Run(c, events).tasks <==> id in c.tasks
    ensures id in c.tasks ==> Run(c, events).tasks[id] == c.tasks[id]
    decreases |events|
  {
    if events != [] {
      UnnamedItemsUntouched(c, events[0], id);
      hide Step, Named;
      assert forall k :: 0 <= k < |events[1..]| ==> events[1..][k] == events[k + 1];
      SeededItemKept(Step(c, events[0]).next, events[1..], id);
    }
  }

  lemma SeededChecklist(checklist: map<TaskId, Task>, events: seq<CaseEvent>, id: TaskId)
    requires forall k :: 0 <= k < |events| ==> id !in Named(events[k])
    ensures id in Run(Created(checklist), events).tasks <==> id in checklist
    ensures id in checklist ==> Run(Created(checklist), events).tasks[id] == checklist[id]
  {
    SeededItemKept(Created(checklist), events, id);
  }

  /** The checklist items a call names. */
  function Named(e: CaseEvent): set<TaskId> {
    match e
    case EvAddTask(id, _, _) => {id}
    case EvUpdateTask(id, _, _) => {id}
    case EvRemoveTask(id) => {id}
    case EvCompleteTask(id, _) => {id}
    case EvRaiseDispute(ids, _) => set id | id in ids
    case EvPerformQc(_, _, _, id) => {id}
    case _ => {}
  }

  /** A call leaves every checklist item it does not name as it was. */
  lemma UnnamedItemsUntouched(c: CaseState, e: CaseEvent, id: TaskId)
    requires id !in Named(e)
    ensures var next := Step(c, e).next;
            && (id in next.tasks <==> id in c.tasks)
            && (id in c.tasks ==> next.tasks[id] == c.tasks[id])
  {
  }

  /** A held case moves only by resuming, to where it stood; a completed one only by closing; a closed one never. */
  lemma StatusStaysPut(c: CaseState, e: CaseEvent)
    ensures c.status == OnHold && Step(c, e).next.status != OnHold ==> e.EvResume? && Some(Step(c, e).next.status) == c.heldFrom
    ensures c.status == Completed && Step(c, e).next.status != Completed ==> e == EvTransition(Closed)
    ensures c.status == Closed ==> Step(c, e).next.status == Closed
  {
  }

  /** A call that throws has written nothing exactly when it is not a QC call past its status guard; such a call
      has already opened and logged its review. */
  lemma FailedCallsWriteNothing(c: CaseState, e: CaseEvent)
    requires Step(c, e).error.Some?
    ensures Step(c, e).next == c <==> !(e.EvPerformQc? && (c.status == EvidenceSubmitted || c.status == QualityControl))
    ensures Step(c, e).next != c ==> Step(c, e).next == OpenReview(c, e.outcome)
  {
    if e.EvPerformQc? {
      assert |OpenReview(c, e.outcome).reviews| == |c.reviews| + 1;
    }
  }

  predicate Passing(outcome: QcOutcome) {
    outcome == QcApproved || outcome == PassWithLimitation
  }

  /** A review is logged by exactly the QC calls past the status guard, refused or not; a logged pass reaches
      customer review if and only if the call was accepted. */
  lemma ReviewLogged(c: CaseState, e: CaseEvent)
    ensures var next := Step(c, e).next;
            && next.reviews == (if e.EvPerformQc? && (c.status == EvidenceSubmitted || c.status == QualityControl)
                                then c.reviews + [e.outcome] else c.reviews)
            && (next.reviews != c.reviews && Passing(e.outcome) ==>
                  (next.status == CustomerReview <==> Step(c, e).error.None?))
  {
    if e.EvPerformQc? {
      assert |OpenReview(c, e.outcome).reviews| == |c.reviews| + 1;
    }
  }

  /** A refused approval counts as a pass: the case stays in quality control, the passing review stays logged. */
  lemma RefusedApprovalIsLogged(c: CaseState, taskId: TaskId)
    requires c.status == QualityControl
    ensures var o := Step(c, EvPerformQc(QcApproved, false, None, taskId));
            o.error == Some(SummaryRequired) && o.next == c.(reviews := c.reviews + [QcApproved])
  {
  }

  /** No client request id is recorded twice. */
  predicate RequestsOnce(evidence: seq<Option<RequestId>>) {
    forall i, j :: 0 <= i < j < |evidence| && evidence[i].Some? ==> evidence[i] != evidence[j]
  }

  /** Over any run, evidence rows are only added, and a replayed submission adds none. */
  lemma {:induction false} EvidenceRecordedOnce(c: CaseState, events: seq<CaseEvent>)
    requires RequestsOnce(c.evidence)
    ensures c.evidence <= Run(c, events).evidence && RequestsOnce(Run(c, events).evidence)
    decreases |events|
  {
    if events != [] {
      EvidenceStep(c, events[0]);
      hide Step;
      EvidenceRecordedOnce(Step(c, events[0]).next, events[1..]);
    }
  }

  lemma EvidenceStep(c: CaseState, e: CaseEvent)
    ensures var next := Step(c, e).next;
            next.evidence == if e.EvSubmitEvidence? && c.status == InProgress && e.keyIssued && e.uploaded
                                && (e.request.None? || e.request !in c.evidence)
                             then c.evidence + [e.request] else c.evidence
  {
  }
}
