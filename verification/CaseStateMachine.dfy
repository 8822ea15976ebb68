/** The deterministic case state machine (backend/src/cases/case-state-machine.ts). */
module CaseStateMachine {
  datatype CaseStatus =
    | Draft | Submitted | UnderReview | Quoted | AwaitingPayment | Scheduled | Assigned
    | InProgress | EvidenceSubmitted | QualityControl | CustomerReview
    | AdditionalWork | Approved | Completed | Closed
    | OnHold | Disputed

  /** The static map. OnHold and Disputed are never a target and have no way out here. */
  function AllowedTransitions(from: CaseStatus): seq<CaseStatus> {
    match from
    case Draft => [Submitted, Closed]
    case Submitted => [UnderReview, Closed]
    case UnderReview => [Quoted, Closed]
    case Quoted => [AwaitingPayment, UnderReview, Closed]
    case AwaitingPayment => [Scheduled, Closed]
    case Scheduled => [Assigned, Closed]
    case Assigned => [InProgress, Scheduled]
    case InProgress => [EvidenceSubmitted]
    case EvidenceSubmitted => [QualityControl]
    case QualityControl => [CustomerReview, InProgress]
    case CustomerReview => [AdditionalWork, Approved]
    case AdditionalWork => [InProgress]
    case Approved => [Completed]
    case Completed => [Closed]
    case Closed => []
    case OnHold => []
    case Disputed => []
  }

  predicate IsValidTransition(from: CaseStatus, to: CaseStatus) {
    to in AllowedTransitions(from)
  }

  /** The moves a case can make once holds are set aside: the map, and the dispute detour. */
  predicate Edge(from: CaseStatus, to: CaseStatus) {
    || IsValidTransition(from, to)
    || (from == CustomerReview && to == Disputed)
    || (from == Disputed && to == AdditionalWork)
  }

  const STAGES := 13

  /** The golden path, in the order the platform promises. */
  function Stage(k: nat): CaseStatus
    requires k < STAGES
  {
    match k
    case 0 => Draft
    case 1 => Submitted
    case 2 => UnderReview
    case 3 => Quoted
    case 4 => AwaitingPayment
    case 5 => Scheduled
    case 6 => Assigned
    case 7 => InProgress
    case 8 => EvidenceSubmitted
    case 9 => QualityControl
    case 10 => CustomerReview
    case 11 => Approved
    case _ => Completed
  }

  /** How far along the golden path a status lies; the side statuses belong to the review stage. */
  function Rank(s: CaseStatus): nat {
    match s
    case Draft => 0
    case Submitted => 1
    case UnderReview => 2
    case Quoted => 3
    case AwaitingPayment => 4
    case Scheduled => 5
    case Assigned => 6
    case InProgress => 7
    case EvidenceSubmitted => 8
    case QualityControl => 9
    case CustomerReview => 10
    case AdditionalWork => 10
    case Disputed => 10
    case Approved => 11
    case Completed => 12
    case Closed => 0
    case OnHold => 0
  }

  predicate PreExecution(s: CaseStatus) {
    s in [Draft, Submitted, UnderReview, Quoted, AwaitingPayment, Scheduled, Assigned]
  }

  lemma StageRank(k: nat)
    requires k < STAGES
    ensures Rank(Stage(k)) == k
    ensures Stage(k) != OnHold && Stage(k) != Closed
  {
  }

  /** One move climbs the golden path by at most one stage, and lands on that stage when it climbs. */
  lemma EdgeClimbsOneStage(from: CaseStatus, to: CaseStatus)
    requires Edge(from, to) && to != Closed
    ensures Rank(to) <= Rank(from) + 1
    ensures Rank(to) == Rank(from) + 1 ==> to == Stage(Rank(to))
  {
  }

  /** Work that has started is never un-started, and a started case closes only from Completed. */
  lemma EdgeStaysInExecution(from: CaseStatus, to: CaseStatus)
    requires Edge(from, to) && !PreExecution(from)
    ensures !PreExecution(to)
    ensures to == Closed ==> from == Completed
  {
  }

  /** The statuses from which a case can be closed: Assigned is not one of them. */
  lemma WhoCanClose(from: CaseStatus)
    ensures IsValidTransition(from, Closed)
       <==> (PreExecution(from) && from != Assigned) || from == Completed
  {
  }

  predicate OneStageOn(from: CaseStatus, to: CaseStatus) {
    Rank(from) + 1 < STAGES && from == Stage(Rank(from)) && to == Stage(Rank(from) + 1)
  }

  /** The documented ways back. */
  predicate WayBack(from: CaseStatus, to: CaseStatus) {
    || (from == Quoted && to == UnderReview)
    || (from == Assigned && to == Scheduled)
    || (from == QualityControl && to == InProgress)
    || (from == CustomerReview && to == AdditionalWork)
    || (from == AdditionalWork && to == InProgress)
  }

  lemma MapForward(from: CaseStatus, to: CaseStatus)
    requires OneStageOn(from, to) || WayBack(from, to)
    ensures IsValidTransition(from, to) && to != Closed
  {
  }

  lemma MapOnly(from: CaseStatus, to: CaseStatus)
    requires IsValidTransition(from, to) && to != Closed
    ensures OneStageOn(from, to) || WayBack(from, to)
  {
  }

  /** The whole map: one stage on along the golden path, the five ways back, and closing. */
  lemma MapExactly(from: CaseStatus, to: CaseStatus)
    ensures IsValidTransition(from, to)
       <==> || OneStageOn(from, to) || WayBack(from, to)
            || (to == Closed && ((PreExecution(from) && from != Assigned) || from == Completed))
  {
    hide *;
    if to == Closed {
      WhoCanClose(from);
    }
    if OneStageOn(from, to) || WayBack(from, to) {
      MapForward(from, to);
    } else if IsValidTransition(from, to) && to != Closed {
      MapOnly(from, to);
    }
  }
}
