/** Recurring schedules: pausing, resuming and the due sweep (backend/src/recurring/recurring.service.ts). Milliseconds. */
module Recurring {
  import opened Wrappers
  import opened CaseStateMachine

  type CaseId = nat
  type Time = int

  const DAY := 24 * 60 * 60 * 1000

  datatype Mark = SetUp | Paused | Resumed | Spawned

  datatype LogRow = LogRow(at: Time, mark: Mark)

  /** A schedule row, with the audit events recorded about it. */
  datatype Schedule = Schedule(
    originCase: CaseId,
    cadenceDays: nat,
    nextRunAt: Time,
    active: bool,
    pausedAt: Option<Time>,
    log: seq<LogRow>)

  datatype ScheduleError = CaseNotFound | NotCompleted | ScheduleExists | NoSchedule | AlreadyActive | AlreadyPaused

  datatype TableOutcome = TableOutcome(schedules: seq<Schedule>, error: Option<ScheduleError>)

  function Cadence(s: Schedule): nat {
    s.cadenceDays * DAY
  }

  /** The row of a case, or the length of the table. */
  function RowOf(schedules: seq<Schedule>, id: CaseId): (i: nat)
    ensures i <= |schedules|
    ensures i < |schedules| ==> schedules[i].originCase == id
    ensures forall j :: 0 <= j < i ==> schedules[j].originCase != id
  {
    if schedules == [] || schedules[0].originCase == id then 0 else 1 + RowOf(schedules[1..], id)
  }

  function NewSchedule(id: CaseId, cadenceDays: nat, now: Time): Schedule {
    Schedule(id, cadenceDays, now + cadenceDays * DAY, true, None, [LogRow(now, SetUp)])
  }

  function Setup(schedules: seq<Schedule>, status: Option<CaseStatus>, id: CaseId, cadenceDays: nat, now: Time): TableOutcome {
    if status.None? then TableOutcome(schedules, Some(CaseNotFound))
    else if status.value != Completed && status.value != Closed then TableOutcome(schedules, Some(NotCompleted))
    else if RowOf(schedules, id) < |schedules| then TableOutcome(schedules, Some(ScheduleExists))
    else TableOutcome(schedules + [NewSchedule(id, cadenceDays, now)], None)
  }

  function PauseRow(s: Schedule, now: Time): Schedule {
    s.(active := false, pausedAt := Some(now), log := s.log + [LogRow(now, Paused)])
  }

  function ResumeRow(s: Schedule, now: Time): Schedule {
    var next :=
      if s.pausedAt.None? then s.nextRunAt
      else if s.nextRunAt < s.pausedAt.value then now
      else now + (s.nextRunAt - s.pausedAt.value);
    s.(active := true, nextRunAt := next, pausedAt := None, log := s.log + [LogRow(now, Resumed)])
  }

  function SetActive(schedules: seq<Schedule>, id: CaseId, active: bool, now: Time): TableOutcome {
    var i := RowOf(schedules, id);
    if i == |schedules| then TableOutcome(schedules, Some(NoSchedule))
    else if active == schedules[i].active then TableOutcome(schedules, Some(if active then AlreadyActive else AlreadyPaused))
    else TableOutcome(schedules[i := if active then ResumeRow(schedules[i], now) else PauseRow(schedules[i], now)], None)
  }

  predicate Due(s: Schedule, now: Time) {
    s.active && s.nextRunAt <= now
  }

  function SpawnRow(s: Schedule, at: Time): Schedule {
    s.(nextRunAt := at + Cadence(s), log := s.log + [LogRow(at, Spawned)])
  }

  /** Where the sweep stops: the first due row whose case cannot be spawned, or the end of the table. */
  function FirstRefused(schedules: seq<Schedule>, now: Time, spawnOk: seq<bool>): (stop: nat)
    requires |spawnOk| == |schedules|
    ensures stop <= |schedules|
    ensures stop < |schedules| ==> Due(schedules[stop], now) && !spawnOk[stop]
    ensures forall j :: 0 <= j < stop && Due(schedules[j], now) ==> spawnOk[j]
  {
    if schedules == [] || (Due(schedules[0], now) && !spawnOk[0]) then 0
    else 1 + FirstRefused(schedules[1..], now, spawnOk[1..])
  }

  /** The sweep: rows due at its start spawn, each stamped with the clock when its turn comes, up to the first
      refused spawn. */
  function Swept(schedules: seq<Schedule>, now: Time, clock: seq<Time>, spawnOk: seq<bool>): seq<Schedule>
    requires |clock| == |spawnOk| == |schedules|
  {
    var stop := FirstRefused(schedules, now, spawnOk);
    seq(|schedules|, i requires 0 <= i < |schedules| =>
      if i < stop && Due(schedules[i], now) then SpawnRow(schedules[i], clock[i]) else schedules[i])
  }

  function CountDue(schedules: seq<Schedule>, now: Time): nat {
    if schedules == [] then 0
    else CountDue(schedules[..|schedules| - 1], now) + if Due(schedules[|schedules| - 1], now) then 1 else 0
  }

  function RowsDue(schedules: seq<Schedule>, now: Time): set<nat> {
    set i | 0 <= i < |schedules| && schedules[i].active && now - schedules[i].nextRunAt >= 0
  }

  lemma RowsDueNext(schedules: seq<Schedule>, now: Time)
    requires schedules != []
    ensures var n := |schedules| - 1;
            && RowsDue(schedules, now) == RowsDue(schedules[..n], now) + (if Due(schedules[n], now) then {n} else {})
            && n !in RowsDue(schedules[..n], now)
  {
  }

  lemma {:induction false} CountDueIsCount(schedules: seq<Schedule>, now: Time)
    ensures CountDue(schedules, now) == |RowsDue(schedules, now)|
  {
    if schedules != [] {
      CountDueIsCount(schedules[..|schedules| - 1], now);
      RowsDueNext(schedules, now);
      hide RowsDue, Due;
    }
  }

  // ---- the service ----

  class RecurringService {
    var schedules: seq<Schedule>

    constructor ()
      ensures schedules == []
    {
      schedules := [];
    }

    method SetUpSchedule(status: Option<CaseStatus>, id: CaseId, cadenceDays: nat, now: Time)
      returns (error: Option<ScheduleError>)
      modifies this
      ensures TableOutcome(schedules, error) == Setup(old(schedules), status, id, cadenceDays, now)
    {
      if status.None? {
        return Some(CaseNotFound);
      }
      if status.value != Completed && status.value != Closed {
        return Some(NotCompleted);
      }
      if RowOf(schedules, id) < |schedules| {
        return Some(ScheduleExists);
      }
      var nextRunAt := now + cadenceDays * DAY;
      schedules := schedules + [Schedule(id, cadenceDays, nextRunAt, true, None, [LogRow(now, SetUp)])];
      return None;
    }

    method SetScheduleActive(id: CaseId, active: bool, now: Time) returns (error: Option<ScheduleError>)
      modifies this
      ensures TableOutcome(schedules, error) == SetActive(old(schedules), id, active, now)
    {
      var i := RowOf(schedules, id);
      if i == |schedules| {
        return Some(NoSchedule);
      }
      var schedule := schedules[i];
      if active == schedule.active {
        return Some(if active then AlreadyActive else AlreadyPaused);
      }
      var nextRunAt := schedule.nextRunAt;
      if active && schedule.pausedAt.Some? {
        var remaining := schedule.nextRunAt - schedule.pausedAt.value;
        if remaining < 0 {
          remaining := 0;
        }
        nextRunAt := now + remaining;
      }
      var pausedAt := if active then None else Some(now);
      var row := LogRow(now, if active then Resumed else Paused);
      schedules := schedules[i := schedule.(active := active, nextRunAt := nextRunAt, pausedAt := pausedAt,
                                            log := schedule.log + [row])];
      return None;
    }

    /** The due query: the rows due now, in table order, each once. */
    method DueRows(now: Time) returns (due: seq<nat>)
      ensures |due| == CountDue(schedules, now)
      ensures DueList(schedules, now, due)
    {
      due := [];
      for i := 0 to |schedules|
        invariant |due| == CountDue(schedules[..i], now)
        invariant forall k :: 0 <= k < |due| ==> due[k] < i && Due(schedules[due[k]], now)
        invariant forall k, l :: 0 <= k < l < |due| ==> due[k] < due[l]
        invariant forall j :: 0 <= j < i && Due(schedules[j], now) ==> j in due
      {
        assert schedules[..i + 1][..i] == schedules[..i];
        if Due(schedules[i], now) {
          due := due + [i];
        }
      }
      assert schedules[..|schedules|] == schedules;
    }

    /** A spawn that throws ends the sweep: earlier rows have moved on, the rest wait for the next sweep. */
    method ProcessDueSchedules(now: Time, clock: seq<Time>, spawnOk: seq<bool>) returns (processed: Option<nat>)
      requires |clock| == |spawnOk| == |schedules|
      modifies this
      ensures schedules == Swept(old(schedules), now, clock, spawnOk)
      ensures processed == if FirstRefused(old(schedules), now, spawnOk) < |old(schedules)| then None
                           else Some(CountDue(old(schedules), now))
    {
      hide FirstRefused, CountDue, Swept, Due;
      ghost var before := schedules;
      ghost var stop := FirstRefused(before, now, spawnOk);
      var due := DueRows(now);
      for k := 0 to |due|
        invariant |schedules| == |before|
        invariant forall l :: 0 <= l < k ==> due[l] < stop
        invariant forall j :: 0 <= j < |before| ==>
                    schedules[j] == if j in due[..k] then SpawnRow(before[j], clock[j]) else before[j]
      {
        var id := due[k];
        if !spawnOk[id] {
          RefusedRow(before, now, spawnOk, due, k);
          SweptRows(before, now, clock, spawnOk, due[..k], schedules);
          return None;
        }
        assert id !in due[..k];
        assert due[..k + 1] == due[..k] + [id];
        NotRefused(before, now, spawnOk, due, k);
        var schedule := schedules[id];
        var next := clock[id] + schedule.cadenceDays * DAY;
        schedules := schedules[id := schedule.(nextRunAt := next, log := schedule.log + [LogRow(clock[id], Spawned)])];
      }
      assert due[..|due|] == due;
      assert stop == |before|;
      SweptRows(before, now, clock, spawnOk, due, schedules);
      return Some(|due|);
    }
  }

  /** The due rows of a table, in order, each once. */
  predicate DueList(schedules: seq<Schedule>, now: Time, due: seq<nat>) {
    && (forall k :: 0 <= k < |due| ==> due[k] < |schedules| && Due(schedules[due[k]], now))
    && (forall k, l :: 0 <= k < l < |due| ==> due[k] < due[l])
    && (forall j :: 0 <= j < |schedules| && Due(schedules[j], now) ==> j in due)
  }

  /** The table once exactly the due rows before the stop have spawned. */
  lemma SweptRows(before: seq<Schedule>, now: Time, clock: seq<Time>, spawnOk: seq<bool>, done: seq<nat>, after: seq<Schedule>)
    requires |after| == |clock| == |spawnOk| == |before|
    requires forall j :: 0 <= j < |before| ==>
               (j in done <==> j < FirstRefused(before, now, spawnOk) && Due(before[j], now))
    requires forall j :: 0 <= j < |before| ==> after[j] == if j in done then SpawnRow(before[j], clock[j]) else before[j]
    ensures after == Swept(before, now, clock, spawnOk)
  {
  }

  /** When the rows before it spawned and this one is refused, this is where the sweep stops. */
  lemma RefusedRow(schedules: seq<Schedule>, now: Time, spawnOk: seq<bool>, due: seq<nat>, k: nat)
    requires |spawnOk| == |schedules| && DueList(schedules, now, due) && k < |due|
    requires forall l :: 0 <= l < k ==> due[l] < FirstRefused(schedules, now, spawnOk)
    requires !spawnOk[due[k]]
    ensures FirstRefused(schedules, now, spawnOk) == due[k]
    ensures forall j :: 0 <= j < |schedules| ==> (j in due[..k] <==> j < due[k] && Due(schedules[j], now))
  {
    hide FirstRefused;
    var stop := FirstRefused(schedules, now, spawnOk);
    assert stop <= due[k];
    var l :| 0 <= l < |due| && due[l] == stop;
    assert l >= k;
    forall j | 0 <= j < |schedules| && j < due[k] && Due(schedules[j], now)
      ensures j in due[..k]
    {
      var m :| 0 <= m < |due| && due[m] == j;
      assert m < k;
      assert due[..k][m] == j;
    }
  }

  lemma NotRefused(schedules: seq<Schedule>, now: Time, spawnOk: seq<bool>, due: seq<nat>, k: nat)
    requires |spawnOk| == |schedules| && DueList(schedules, now, due) && k < |due|
    requires forall l :: 0 <= l < k ==> due[l] < FirstRefused(schedules, now, spawnOk)
    requires spawnOk[due[k]]
    ensures due[k] < FirstRefused(schedules, now, spawnOk)
  {
    hide FirstRefused;
    var stop := FirstRefused(schedules, now, spawnOk);
    if stop < |schedules| {
      var l :| 0 <= l < |due| && due[l] == stop;
      assert l != k && l >= k;
    }
  }

  // ---- the reference: active time read off the audit log ----

  /** Un-paused time since set-up or the last spawn, up to the last row of the log. */
  function Elapsed(log: seq<LogRow>): Time {
    if |log| <= 1 then 0
    else
      var last, before := log[|log| - 1], log[..|log| - 1];
      match last.mark
      case SetUp => 0
      case Spawned => 0
      case Resumed => Elapsed(before)
      case Paused => Elapsed(before) + (last.at - before[|before| - 1].at)
  }

  predicate Running(log: seq<LogRow>) {
    |log| > 0 && log[|log| - 1].mark != Paused
  }

  /** Un-paused time since set-up or the last spawn, now. */
  function ActiveTime(log: seq<LogRow>, now: Time): Time
    requires |log| > 0
  {
    Elapsed(log) + if Running(log) then now - log[|log| - 1].at else 0
  }

  function LastAt(s: Schedule): Time
    requires |s.log| > 0
  {
    s.log[|s.log| - 1].at
  }

  /** Every spawn on record happened while running, with at least one cadence of active time behind it. */
  predicate SpawnsEarned(s: Schedule) {
    forall i :: 0 <= i < |s.log| && s.log[i].mark == Spawned ==>
      i > 0 && Running(s.log[..i]) && ActiveTime(s.log[..i], s.log[i].at) >= Cadence(s)
  }

  /** The row agrees with its log at a given clock. */
  predicate Tracks(s: Schedule, clock: Time) {
    && |s.log| > 0 && LastAt(s) <= clock
    && (s.active <==> Running(s.log))
    && s.pausedAt == (if s.active then None else Some(LastAt(s)))
    && (Elapsed(s.log) < Cadence(s) ==> s.nextRunAt == LastAt(s) + (Cadence(s) - Elapsed(s.log)))
    && (Elapsed(s.log) >= Cadence(s) ==> s.nextRunAt <= LastAt(s))
    && SpawnsEarned(s)
  }

  /** A schedule is due exactly when it is running and its active time has reached the cadence. */
  lemma DueExactly(s: Schedule, clock: Time, now: Time)
    requires Tracks(s, clock) && clock <= now
    ensures Due(s, now) <==> Running(s.log) && ActiveTime(s.log, now) >= Cadence(s)
  {
  }

  lemma LogAppend(s: Schedule, row: LogRow)
    requires |s.log| > 0 && SpawnsEarned(s)
    requires row.mark == Spawned ==> Running(s.log) && ActiveTime(s.log, row.at) >= Cadence(s)
    ensures (s.log + [row])[..|s.log|] == s.log
    ensures SpawnsEarned(s.(log := s.log + [row]))
  {
    var log := s.log + [row];
    assert log[..|s.log|] == s.log;
    forall i | 0 <= i < |log| && log[i].mark == Spawned
      ensures i > 0 && Running(log[..i]) && ActiveTime(log[..i], log[i].at) >= Cadence(s)
    {
      if i < |s.log| {
        assert log[..i] == s.log[..i] && log[i] == s.log[i];
      }
    }
  }

  lemma PauseTracks(s: Schedule, clock: Time, now: Time)
    requires Tracks(s, clock) && s.active && clock <= now
    ensures Tracks(PauseRow(s, now), now)
  {
    LogAppend(s, LogRow(now, Paused));
  }

  lemma ResumeTracks(s: Schedule, clock: Time, now: Time)
    requires Tracks(s, clock) && !s.active && clock <= now
    ensures Tracks(ResumeRow(s, now), now)
  {
    LogAppend(s, LogRow(now, Resumed));
  }

  lemma SpawnTracks(s: Schedule, clock: Time, now: Time, at: Time)
    requires Tracks(s, clock) && Due(s, now) && clock <= now <= at
    ensures Tracks(SpawnRow(s, at), at)
  {
    LogAppend(s, LogRow(at, Spawned));
  }

  lemma SpawnKeepsCase(s: Schedule, at: Time)
    ensures SpawnRow(s, at).originCase == s.originCase
  {
  }

  // ---- runs ----

  datatype ScheduleCall =
    | SetupCall(status: Option<CaseStatus>, id: CaseId, cadenceDays: nat, now: Time)
    | SetActiveCall(id: CaseId, active: bool, now: Time)
    | SweepCall(now: Time, clock: seq<Time>, spawnOk: seq<bool>)

  function Step(schedules: seq<Schedule>, c: ScheduleCall): seq<Schedule>
    requires c.SweepCall? ==> |c.clock| == |c.spawnOk| == |schedules|
  {
    match c
    case SetupCall(status, id, cadence, now) => Setup(schedules, status, id, cadence, now).schedules
    case SetActiveCall(id, active, now) => SetActive(schedules, id, active, now).schedules
    case SweepCall(now, clock, spawnOk) => Swept(schedules, now, clock, spawnOk)
  }

  /** The latest clock reading of a call. */
  function After(c: ScheduleCall): Time {
    if c.SweepCall? && |c.clock| > 0 then c.clock[|c.clock| - 1] else c.now
  }

  /** The clock never runs backwards, between calls or inside a sweep. */
  predicate Timely(c: ScheduleCall, clock: Time, rows: nat) {
    && clock <= c.now
    && (c.SweepCall? ==>
          && |c.clock| == |c.spawnOk| == rows
          && (forall i :: 0 <= i < rows ==> c.now <= c.clock[i])
          && (forall i, j :: 0 <= i <= j < rows ==> c.clock[i] <= c.clock[j]))
  }

  predicate TimelyRun(schedules: seq<Schedule>, calls: seq<ScheduleCall>, clock: Time)
    decreases |calls|
  {
    calls == [] ||
    (Timely(calls[0], clock, |schedules|) && TimelyRun(Step(schedules, calls[0]), calls[1..], After(calls[0])))
  }

  function Run(schedules: seq<Schedule>, calls: seq<ScheduleCall>, clock: Time): seq<Schedule>
    requires TimelyRun(schedules, calls, clock)
    decreases |calls|
  {
    if calls == [] then schedules else Run(Step(schedules, calls[0]), calls[1..], After(calls[0]))
  }

  function ClockAfter(calls: seq<ScheduleCall>, clock: Time): Time {
    if calls == [] then clock else After(calls[|calls| - 1])
  }

  predicate AllTrack(schedules: seq<Schedule>, clock: Time) {
    && (forall i :: 0 <= i < |schedules| ==> Tracks(schedules[i], clock))
    && (forall i, j :: 0 <= i < j < |schedules| ==> schedules[i].originCase != schedules[j].originCase)
  }

  lemma TracksLater(s: Schedule, clock: Time, later: Time)
    requires Tracks(s, clock) && clock <= later
    ensures Tracks(s, later)
  {
  }

  lemma SetupTracks(schedules: seq<Schedule>, status: Option<CaseStatus>, id: CaseId, cadenceDays: nat, clock: Time, now: Time)
    requires AllTrack(schedules, clock) && clock <= now
    ensures AllTrack(Setup(schedules, status, id, cadenceDays, now).schedules, now)
  {
    assert Tracks(NewSchedule(id, cadenceDays, now), now);
    forall i | 0 <= i < |schedules|
      ensures Tracks(schedules[i], now)
    {
      TracksLater(schedules[i], clock, now);
    }
    hide Tracks;
  }

  lemma SetActiveTracks(schedules: seq<Schedule>, id: CaseId, active: bool, clock: Time, now: Time)
    requires AllTrack(schedules, clock) && clock <= now
    ensures AllTrack(SetActive(schedules, id, active, now).schedules, now)
  {
    hide Tracks;
    forall i | 0 <= i < |schedules|
      ensures Tracks(schedules[i], now)
    {
      TracksLater(schedules[i], clock, now);
    }
    var i := RowOf(schedules, id);
    if i < |schedules| && active != schedules[i].active {
      if active {
        ResumeTracks(schedules[i], clock, now);
      } else {
        PauseTracks(schedules[i], clock, now);
      }
    }
  }

  lemma SweepTracks(schedules: seq<Schedule>, now: Time, readings: seq<Time>, spawnOk: seq<bool>, clock: Time)
    requires AllTrack(schedules, clock) && Timely(SweepCall(now, readings, spawnOk), clock, |schedules|)
    ensures AllTrack(Swept(schedules, now, readings, spawnOk), After(SweepCall(now, readings, spawnOk)))
  {
    hide Tracks, SpawnRow, FirstRefused, Due;
    var after := After(SweepCall(now, readings, spawnOk));
    forall i | 0 <= i < |schedules|
      ensures Tracks(Swept(schedules, now, readings, spawnOk)[i], after)
    {
      TracksLater(schedules[i], clock, after);
      if Due(schedules[i], now) {
        SpawnTracks(schedules[i], clock, now, readings[i]);
        TracksLater(SpawnRow(schedules[i], readings[i]), readings[i], after);
      }
    }
    forall i | 0 <= i < |schedules|
      ensures Swept(schedules, now, readings, spawnOk)[i].originCase == schedules[i].originCase
    {
      SpawnKeepsCase(schedules[i], readings[i]);
    }
  }

  lemma StepTracks(schedules: seq<Schedule>, c: ScheduleCall, clock: Time)
    requires AllTrack(schedules, clock) && Timely(c, clock, |schedules|)
    ensures AllTrack(Step(schedules, c), After(c))
  {
    hide AllTrack, Setup, SetActive, Swept;
    match c
    case SetupCall(status, id, cadence, now) => SetupTracks(schedules, status, id, cadence, clock, now);
    case SetActiveCall(id, active, now) => SetActiveTracks(schedules, id, active, clock, now);
    case SweepCall(now, readings, spawnOk) => SweepTracks(schedules, now, readings, spawnOk, clock);
  }

  lemma {:induction false} RunTracks(schedules: seq<Schedule>, calls: seq<ScheduleCall>, clock: Time)
    requires AllTrack(schedules, clock) && TimelyRun(schedules, calls, clock)
    ensures AllTrack(Run(schedules, calls, clock), ClockAfter(calls, clock))
    decreases |calls|
  {
    hide AllTrack, Step, After;
    if calls != [] {
      StepTracks(schedules, calls[0], clock);
      RunTracks(Step(schedules, calls[0]), calls[1..], After(calls[0]));
    }
  }

  /** After any run: a schedule is due exactly when its active time has reached the cadence, every spawn on
      record was separated from the previous one by at least a cadence of active time, and none happened while paused. */
  lemma PausingKeepsTime(calls: seq<ScheduleCall>, clock: Time, i: nat, now: Time)
    requires TimelyRun([], calls, clock) && i < |Run([], calls, clock)| && ClockAfter(calls, clock) <= now
    ensures var s := Run([], calls, clock)[i];
            && |s.log| > 0
            && (Due(s, now) <==> Running(s.log) && ActiveTime(s.log, now) >= Cadence(s))
            && SpawnsEarned(s)
  {
    RunTracks([], calls, clock);
    DueExactly(Run([], calls, clock)[i], ClockAfter(calls, clock), now);
  }

  /** Exactly when a schedule is set up, once, for a case that is over, and why not otherwise; first due one cadence
      of whole days later. */
  lemma SetupAccepted(schedules: seq<Schedule>, status: Option<CaseStatus>, id: CaseId, cadenceDays: nat, now: Time)
    ensures var o := Setup(schedules, status, id, cadenceDays, now);
            && o.error == (if status == None then Some(CaseNotFound)
                           else if status.value !in {Completed, Closed} then Some(NotCompleted)
                           else if exists j :: 0 <= j < |schedules| && schedules[j].originCase == id then Some(ScheduleExists)
                           else None)
            && (o.error.Some? ==> o.schedules == schedules)
            && (o.error.None? ==>
                  && |o.schedules| == |schedules| + 1 && o.schedules[..|schedules|] == schedules
                  && var s := o.schedules[|schedules|];
                     && s.originCase == id && s.cadenceDays == cadenceDays
                     && (forall later :: now <= later ==> (Due(s, later) <==> later - now >= cadenceDays * 86_400_000)))
  {
    assert (schedules + [NewSchedule(id, cadenceDays, now)])[..|schedules|] == schedules;
  }

  /** Exactly when a schedule is paused or resumed: it exists and does not stand so already. Its row then does, its log
      says when, and no other row changes. */
  lemma SetActiveExactly(schedules: seq<Schedule>, id: CaseId, active: bool, now: Time, i: nat)
    requires i < |schedules|
    requires forall j, k :: 0 <= j < k < |schedules| ==> schedules[j].originCase != schedules[k].originCase
    ensures var o := SetActive(schedules, id, active, now);
            && |o.schedules| == |schedules|
            && (schedules[i].originCase != id ==> o.schedules[i] == schedules[i])
            && (schedules[i].originCase == id ==>
                  o.error == if schedules[i].active != active then None else Some(if active then AlreadyActive else AlreadyPaused))
            && ((forall j :: 0 <= j < |schedules| ==> schedules[j].originCase != id) ==> o.error == Some(NoSchedule) && o.schedules == schedules)
            && (schedules[i].originCase == id ==> o.schedules[i].active == active)
            && (schedules[i].originCase == id && schedules[i].active != active ==>
                  o.schedules[i].log == schedules[i].log + [LogRow(now, if active then Resumed else Paused)])
            && (schedules[i].originCase == id && schedules[i].active == active ==> o.schedules == schedules)
  {
    var row := RowOf(schedules, id);
    if schedules[i].originCase == id {
      assert row <= i;
      assert row == i;
    }
  }

  /** A sweep spawns exactly the due schedules before the first refusal, and leaves each of those a full cadence from
      the next, no longer due; every other schedule is as it was. */
  lemma SweepSpawns(schedules: seq<Schedule>, now: Time, clock: seq<Time>, spawnOk: seq<bool>, i: nat)
    requires |clock| == |spawnOk| == |schedules| && i < |schedules|
    requires forall j :: 0 <= j < |schedules| ==> now <= clock[j] && schedules[j].cadenceDays >= 1
    ensures var s, after := schedules[i], Swept(schedules, now, clock, spawnOk)[i];
            var reached := forall j :: 0 <= j <= i && Due(schedules[j], now) ==> spawnOk[j];
            && (Due(s, now) && reached ==>
                  && after.log == s.log + [LogRow(clock[i], Spawned)] && after.nextRunAt == clock[i] + s.cadenceDays * 86_400_000
                  && after.active && !Due(after, now))
            && (!(Due(s, now) && reached) ==> after == s)
  {
    var stop := FirstRefused(schedules, now, spawnOk);
    if stop < |schedules| {
      assert Due(schedules[stop], now) && !spawnOk[stop];
    }
    hide FirstRefused;
  }

  /** Pausing and resuming leaves exactly the time that remained; an overdue schedule is due at once. */
  lemma PauseThenResume(s: Schedule, pausedAt: Time, resumedAt: Time)
    requires s.active
    ensures var after := ResumeRow(PauseRow(s, pausedAt), resumedAt);
            && after.active && after.pausedAt.None?
            && after.nextRunAt - resumedAt == if s.nextRunAt < pausedAt then 0 else s.nextRunAt - pausedAt
  {
  }
}
