/** `isScheduleDue` and `runDueSchedules` in a fixed-offset time zone, with integer milliseconds
    since the Unix epoch. */
module Scheduling {
  import opened Common

  const MINUTE := 60_000
  const HOUR := 60 * MINUTE
  const DAY := 24 * HOUR

  datatype Frequency = Daily | Weekly

  /** `timeOfDay` after `split(':').map(Number)`. */
  datatype TimeOfDay = Malformed | At(hour: nat, minute: nat)

  datatype Schedule = Schedule(
    frequency: Frequency,
    dayOfWeek: Option<int>,
    timeOfDay: TimeOfDay,
    offset: int,
    lastRunAt: Option<int>)

  /** What the schedule DTO lets in: 00:00 to 23:59. */
  predicate OnTheClock(s: Schedule) {
    s.timeOfDay.At? && s.timeOfDay.hour < 24 && s.timeOfDay.minute < 60
  }

  function DayOf(s: Schedule, instant: int): int {
    (instant + s.offset) / DAY
  }

  function WithinDay(s: Schedule): int
    requires s.timeOfDay.At?
  {
    s.timeOfDay.hour * HOUR + s.timeOfDay.minute * MINUTE
  }

  /** Luxon's `weekday % 7`: Sunday is 0 and 1 January 1970 was a Thursday. */
  function Weekday(s: Schedule, instant: int): int {
    (DayOf(s, instant) + 4) % 7
  }

  /** `now.set({ hour, minute, second: 0, millisecond: 0 })` */
  function ScheduledAt(s: Schedule, now: int): int
    requires s.timeOfDay.At?
  {
    DayOf(s, now) * DAY + WithinDay(s) - s.offset
  }

  predicate IsScheduleDue(s: Schedule, now: int, windowMinutes: nat) {
    if s.timeOfDay.Malformed? then
      false
    else
      var scheduledAt := ScheduledAt(s, now);
      if now < scheduledAt || now - scheduledAt >= windowMinutes * MINUTE then
        false
      else if s.frequency == Weekly && s.dayOfWeek != Some(Weekday(s, scheduledAt)) then
        false
      else
        s.lastRunAt.None? || s.lastRunAt.value < scheduledAt
  }

  // ---------------------------------------------------------------- slots

  /** The instants a schedule asks for, independently of any clock reading. */
  predicate IsSlot(s: Schedule, instant: int) {
    && s.timeOfDay.At?
    && (instant + s.offset) % DAY == WithinDay(s)
    && (s.frequency == Weekly ==> s.dayOfWeek == Some(Weekday(s, instant)))
  }

  predicate Covers(s: Schedule, slot: int, now: int, windowMinutes: nat) {
    slot <= now < slot + windowMinutes * MINUTE && DayOf(s, slot) == DayOf(s, now)
  }

  lemma ScheduledAtSameDay(s: Schedule, now: int)
    requires OnTheClock(s)
    ensures DayOf(s, ScheduledAt(s, now)) == DayOf(s, now)
    ensures (ScheduledAt(s, now) + s.offset) % DAY == WithinDay(s)
  {
    var d, w := DayOf(s, now), WithinDay(s);
    assert 0 <= w < DAY;
    assert ScheduledAt(s, now) + s.offset == d * DAY + w;
    assert (d * DAY + w) / DAY == d;
  }

  /** A slot on the same local day as `now` is the one `isScheduleDue` computes. */
  lemma SlotOfTheDay(s: Schedule, slot: int, now: int)
    requires IsSlot(s, slot) && DayOf(s, slot) == DayOf(s, now)
    ensures slot == ScheduledAt(s, now)
  {
    var local := slot + s.offset;
    assert local == (local / DAY) * DAY + local % DAY;
  }

  /** A schedule is due exactly inside the window of one of its slots that has not run yet; the
      window is cut off at local midnight. */
  lemma DueIffInsideUnservedSlot(s: Schedule, now: int, windowMinutes: nat)
    requires OnTheClock(s)
    ensures IsScheduleDue(s, now, windowMinutes) <==>
            exists slot :: IsSlot(s, slot) && Covers(s, slot, now, windowMinutes)
                           && (s.lastRunAt.None? || s.lastRunAt.value < slot)
  {
    ScheduledAtSameDay(s, now);
    if IsScheduleDue(s, now, windowMinutes) {
      assert IsSlot(s, ScheduledAt(s, now));
    } else {
      forall slot | IsSlot(s, slot) && Covers(s, slot, now, windowMinutes)
        ensures s.lastRunAt.Some? && s.lastRunAt.value >= slot
      {
        SlotOfTheDay(s, slot, now);
      }
    }
  }

  // ---------------------------------------------------------------- the wall clock

  /** The local clock shows the schedule's time of day to the millisecond. */
  predicate ClockShows(s: Schedule, instant: int) {
    && s.timeOfDay.At?
    && (instant + s.offset) / 3_600_000 % 24 == s.timeOfDay.hour
    && (instant + s.offset) / 60_000 % 60 == s.timeOfDay.minute
    && (instant + s.offset) % 60_000 == 0
  }

  lemma HourOfDay(local: int)
    ensures local / 3_600_000 % 24 == local % 86_400_000 / 3_600_000
  {
    var day, rest := local / 86_400_000, local % 86_400_000;
    assert local == day * 86_400_000 + rest;
    assert local / 3_600_000 == 24 * day + rest / 3_600_000;
  }

  lemma MinuteOfDay(local: int)
    ensures local / 60_000 % 60 == local % 86_400_000 / 60_000 % 60
    ensures local % 60_000 == local % 86_400_000 % 60_000
  {
    var day, rest := local / 86_400_000, local % 86_400_000;
    assert local == day * 86_400_000 + rest;
    assert local / 60_000 == 1440 * day + rest / 60_000;
  }

  lemma TimeOfRest(rest: int, hour: nat, minute: nat)
    requires 0 <= rest && hour < 24 && minute < 60
    ensures rest / 3_600_000 == hour && rest / 60_000 % 60 == minute && rest % 60_000 == 0 <==>
            rest == hour * 3_600_000 + minute * 60_000
  {
    var minutes := rest / 60_000;
    assert rest == minutes * 60_000 + rest % 60_000;
    assert rest / 3_600_000 == minutes / 60;
  }

  /** A local time of day in milliseconds is its hours and minutes and nothing else. */
  lemma ClockOfLocal(local: int, hour: nat, minute: nat)
    requires hour < 24 && minute < 60
    ensures local / 3_600_000 % 24 == hour && local / 60_000 % 60 == minute && local % 60_000 == 0 <==>
            local % 86_400_000 == hour * 3_600_000 + minute * 60_000
  {
    HourOfDay(local);
    MinuteOfDay(local);
    TimeOfRest(local % 86_400_000, hour, minute);
  }

  /** The slots, read off the wall clock. */
  lemma SlotIffClockShows(s: Schedule, instant: int)
    requires OnTheClock(s)
    ensures IsSlot(s, instant) <==>
            ClockShows(s, instant) && (s.frequency == Weekly ==> s.dayOfWeek == Some(Weekday(s, instant)))
  {
    ClockOfLocal(instant + s.offset, s.timeOfDay.hour, s.timeOfDay.minute);
  }

  /** The first day of 1970 is day 4 of the week, each day is followed by the next one modulo 7, and a local day
      has one weekday. */
  lemma WeekdayExact(s: Schedule, instant: int)
    ensures 0 <= instant + s.offset < 86_400_000 ==> Weekday(s, instant) == 4
    ensures 0 <= Weekday(s, instant) < 7
    ensures Weekday(s, instant + 86_400_000) == (Weekday(s, instant) + 1) % 7
    ensures forall other :: (other + s.offset) / 86_400_000 == (instant + s.offset) / 86_400_000 ==>
                              Weekday(s, other) == Weekday(s, instant)
  {
    assert (instant + 86_400_000 + s.offset) / DAY == (instant + s.offset) / DAY + 1;
  }

  /** When a schedule is due, on the wall clock: earlier on the same local day, less than the window ago, the
      clock showed its time on its weekday, and no run has been noted since. */
  lemma DueIffClockShowed(s: Schedule, now: int, windowMinutes: nat)
    requires OnTheClock(s)
    ensures IsScheduleDue(s, now, windowMinutes) <==>
            exists instant :: ClockShows(s, instant)
                              && (s.frequency == Weekly ==> s.dayOfWeek == Some(Weekday(s, instant)))
                              && instant <= now < instant + windowMinutes * 60_000
                              && (instant + s.offset) / 86_400_000 == (now + s.offset) / 86_400_000
                              && (s.lastRunAt.Some? ==> s.lastRunAt.value < instant)
  {
    DueIffInsideUnservedSlot(s, now, windowMinutes);
    forall instant
      ensures IsSlot(s, instant) <==>
              ClockShows(s, instant) && (s.frequency == Weekly ==> s.dayOfWeek == Some(Weekday(s, instant)))
    {
      SlotIffClockShows(s, instant);
    }
    if IsScheduleDue(s, now, windowMinutes) {
      var slot :| IsSlot(s, slot) && Covers(s, slot, now, windowMinutes)
                  && (s.lastRunAt.None? || s.lastRunAt.value < slot);
      assert ClockShows(s, slot);
    }
  }

  /** A time of day that is no time never comes. */
  lemma MalformedIsNeverDue(s: Schedule, now: int, windowMinutes: nat)
    ensures s.timeOfDay.Malformed? ==> !IsScheduleDue(s, now, windowMinutes)
  {
  }

  /** The same from the side of a slot that the row has not reached: a reading starts it exactly when the
      slot covers the reading. */
  lemma UnservedSlotIsDueIff(s: Schedule, slot: int, now: int, windowMinutes: nat)
    requires OnTheClock(s) && IsSlot(s, slot) && (s.lastRunAt.None? || s.lastRunAt.value < slot)
    ensures IsScheduleDue(s, now, windowMinutes) && ScheduledAt(s, now) == slot <==> Covers(s, slot, now, windowMinutes)
  {
    ScheduledAtSameDay(s, now);
    if DayOf(s, slot) == DayOf(s, now) {
      SlotOfTheDay(s, slot, now);
    }
  }

  // ---------------------------------------------------------------- one tick

  /** How starting the audit and noting it in the row ends: `runScheduled` throws before it has inserted an
      audit run; an audit run exists, but its enqueueing or the `lastRunAt` update throws, or the
      process dies before the update; or both succeed. */
  datatype Outcome = NotStarted | Unrecorded | Recorded(doneAt: int)

  /** What a tick meets at one row; `aborted` is the signal as the loop head reads it. */
  datatype Encounter = Encounter(aborted: bool, outcome: Outcome)

  predicate Starts(s: Schedule, now: int, windowMinutes: nat, outcome: Outcome) {
    IsScheduleDue(s, now, windowMinutes) && !outcome.NotStarted?
  }

  predicate Records(s: Schedule, now: int, windowMinutes: nat, outcome: Outcome) {
    IsScheduleDue(s, now, windowMinutes) && outcome.Recorded?
  }

  function Served(s: Schedule, now: int, windowMinutes: nat, outcome: Outcome): Schedule {
    if Records(s, now, windowMinutes, outcome) then s.(lastRunAt := Some(outcome.doneAt)) else s
  }

  /** How many rows the loop reaches before `signal.aborted` stops it. */
  function Reached(world: seq<Encounter>): nat
    ensures Reached(world) <= |world|
    ensures Reached(world) < |world| ==> world[Reached(world)].aborted
    ensures forall i | 0 <= i < Reached(world) :: !world[i].aborted
  {
    if world == [] || world[0].aborted then 0 else 1 + Reached(world[1..])
  }

  type ScheduleId = nat

  datatype Row = Row(id: ScheduleId, schedule: Schedule)

  /** The `site_schedules` table, and the schedules whose audits were started, one entry per audit run. */
  class ScheduleTable {
    var rows: map<ScheduleId, Schedule>
    var audits: seq<ScheduleId>

    constructor (rows: map<ScheduleId, Schedule>)
      ensures this.rows == rows && audits == []
    {
      this.rows, this.audits := rows, [];
    }

    /** `runScheduled` and the `lastRunAt` update inside `try`. */
    method RunScheduled(id: ScheduleId, outcome: Outcome)
      requires id in rows
      modifies this
      ensures audits == old(audits) + if outcome.NotStarted? then [] else [id]
      ensures rows == if outcome.Recorded?
                      then old(rows)[id := old(rows)[id].(lastRunAt := Some(outcome.doneAt))]
                      else old(rows)
    {
      if outcome.NotStarted? {
        return;
      }
      audits := audits + [id];
      if outcome.Recorded? {
        rows := rows[id := rows[id].(lastRunAt := Some(outcome.doneAt))];
      }
    }

    /** The body of `runDueSchedules` under the lock; `selected` is the result of its query.  Each schedule
        reached is served as `Served` says, all others stay, and one audit is started for each
        schedule that is reached, due and not stopped by an error. */
    method RunDueSchedules(nowUtc: int, windowMinutes: nat, selected: seq<Row>, world: seq<Encounter>)
      requires |world| == |selected|
      requires forall i, j | 0 <= i < j < |selected| :: selected[i].id != selected[j].id
      requires forall i | 0 <= i < |selected| ::
                 selected[i].id in rows && rows[selected[i].id] == selected[i].schedule
      modifies this
      ensures rows.Keys == old(rows).Keys
      ensures forall i | 0 <= i < Reached(world) ::
                rows[selected[i].id] == Served(selected[i].schedule, nowUtc, windowMinutes, world[i].outcome)
      ensures forall i | Reached(world) <= i < |selected| :: rows[selected[i].id] == selected[i].schedule
      ensures forall id | id in rows && (forall i | 0 <= i < |selected| :: selected[i].id != id) ::
                rows[id] == old(rows)[id]
      ensures audits == old(audits)
                + Started(selected[..Reached(world)], nowUtc, windowMinutes, world[..Reached(world)])
    {
      var i := 0;
      while i < |selected|
        invariant 0 <= i <= Reached(world)
        invariant rows.Keys == old(rows).Keys
        invariant forall k | 0 <= k < i ::
                    rows[selected[k].id] == Served(selected[k].schedule, nowUtc, windowMinutes, world[k].outcome)
        invariant forall k | i <= k < |selected| :: rows[selected[k].id] == selected[k].schedule
        invariant forall id | id in rows && (forall k | 0 <= k < |selected| :: selected[k].id != id) ::
                    rows[id] == old(rows)[id]
        invariant audits == old(audits) + Started(selected[..i], nowUtc, windowMinutes, world[..i])
      {
        if world[i].aborted {
          break;
        }
        assert selected[..i + 1][..i] == selected[..i] && world[..i + 1][..i] == world[..i];
        if IsScheduleDue(selected[i].schedule, nowUtc, windowMinutes) {
          RunScheduled(selected[i].id, world[i].outcome);
        }
        i := i + 1;
      }
    }
  }

  function Started(selected: seq<Row>, nowUtc: int, windowMinutes: nat, world: seq<Encounter>): seq<ScheduleId>
    requires |world| == |selected|
  {
    if selected == [] then []
    else
      var n := |selected| - 1;
      Started(selected[..n], nowUtc, windowMinutes, world[..n])
      + if Starts(selected[n].schedule, nowUtc, windowMinutes, world[n].outcome) then [selected[n].id] else []
  }

  /** Row `i` gets an audit: it is due and nothing throws before the audit run is inserted. */
  predicate GetsAudit(selected: seq<Row>, nowUtc: int, windowMinutes: nat, world: seq<Encounter>, i: nat)
    requires i < |selected| == |world|
  {
    IsScheduleDue(selected[i].schedule, nowUtc, windowMinutes) && world[i].outcome != NotStarted
  }

  /** One tick starts an audit for exactly the due rows whose start succeeds, and one for each. */
  lemma {:induction false} StartedExact(selected: seq<Row>, nowUtc: int, windowMinutes: nat, world: seq<Encounter>)
    requires |world| == |selected|
    requires forall i, j | 0 <= i < j < |selected| :: selected[i].id != selected[j].id
    ensures forall id :: id in Started(selected, nowUtc, windowMinutes, world) <==>
                         exists i | 0 <= i < |selected| ::
                           selected[i].id == id && GetsAudit(selected, nowUtc, windowMinutes, world, i)
    ensures Distinct(Started(selected, nowUtc, windowMinutes, world))
  {
    if selected != [] {
      var n := |selected| - 1;
      var fewer, seen := selected[..n], world[..n];
      StartedExact(fewer, nowUtc, windowMinutes, seen);
      forall i: nat | i < n
        ensures GetsAudit(fewer, nowUtc, windowMinutes, seen, i) <==>
                GetsAudit(selected, nowUtc, windowMinutes, world, i)
      {
      }
      forall id | id in Started(fewer, nowUtc, windowMinutes, seen)
        ensures id != selected[n].id
        ensures exists i | 0 <= i < |selected| ::
                  selected[i].id == id && GetsAudit(selected, nowUtc, windowMinutes, world, i)
      {
        var i :| 0 <= i < n && fewer[i].id == id && GetsAudit(fewer, nowUtc, windowMinutes, seen, i);
        assert selected[i].id == id && GetsAudit(selected, nowUtc, windowMinutes, world, i);
      }
      var before := Started(fewer, nowUtc, windowMinutes, seen);
      forall k | 0 <= k < |before|
        ensures before[k] != selected[n].id
      {
        assert before[k] in before;
      }
      if GetsAudit(selected, nowUtc, windowMinutes, world, n) {
        assert selected[n].id in Started(selected, nowUtc, windowMinutes, world);
      }
      forall id | exists i | 0 <= i < |selected| ::
                    selected[i].id == id && GetsAudit(selected, nowUtc, windowMinutes, world, i)
        ensures id in Started(selected, nowUtc, windowMinutes, world)
      {
        var i :| 0 <= i < |selected| && selected[i].id == id && GetsAudit(selected, nowUtc, windowMinutes, world, i);
        if i < n {
          assert fewer[i].id == id && GetsAudit(fewer, nowUtc, windowMinutes, seen, i);
        }
      }
    }
  }

  // ---------------------------------------------------------------- many ticks

  /** One serialised tick as one schedule sees it: the clock reading taken before the lock, and how
      the firing ends if there is one. */
  datatype Visit = Visit(now: int, outcome: Outcome)

  /** The schedule row after a run of ticks. */
  function AfterVisits(s: Schedule, run: seq<Visit>, windowMinutes: nat): Schedule {
    if run == [] then s
    else
      var v := run[|run| - 1];
      Served(AfterVisits(s, run[..|run| - 1], windowMinutes), v.now, windowMinutes, v.outcome)
  }

  /** Whether tick `i` of the run started an audit, and whether the row says so; and for which slot. */
  predicate StartedAt(s: Schedule, run: seq<Visit>, windowMinutes: nat, i: nat)
    requires i < |run|
  {
    Starts(AfterVisits(s, run[..i], windowMinutes), run[i].now, windowMinutes, run[i].outcome)
  }

  predicate RecordedAt(s: Schedule, run: seq<Visit>, windowMinutes: nat, i: nat)
    requires i < |run|
  {
    Records(AfterVisits(s, run[..i], windowMinutes), run[i].now, windowMinutes, run[i].outcome)
  }

  function SlotAt(s: Schedule, run: seq<Visit>, i: nat): int
    requires i < |run| && s.timeOfDay.At?
  {
    ScheduledAt(s, run[i].now)
  }

  /** A firing ends no earlier than the clock reading its tick started from.  Readings of different
      replicas need not be ordered. */
  predicate EndsAfterStart(run: seq<Visit>) {
    forall i | 0 <= i < |run| && run[i].outcome.Recorded? :: run[i].now <= run[i].outcome.doneAt
  }

  lemma {:induction false} OnlyLastRunChanges(s: Schedule, run: seq<Visit>, windowMinutes: nat)
    ensures AfterVisits(s, run, windowMinutes) == s.(lastRunAt := AfterVisits(s, run, windowMinutes).lastRunAt)
  {
    if run != [] {
      OnlyLastRunChanges(s, run[..|run| - 1], windowMinutes);
    }
  }

  /** After tick `i` was recorded, `lastRunAt` never falls below its slot. */
  lemma {:induction false} FiringIsRemembered(s: Schedule, run: seq<Visit>, windowMinutes: nat, i: nat)
    requires s.timeOfDay.At? && EndsAfterStart(run)
    requires i < |run| && RecordedAt(s, run, windowMinutes, i)
    ensures var last := AfterVisits(s, run, windowMinutes).lastRunAt;
            last.Some? && last.value >= SlotAt(s, run, i)
  {
    var n := |run| - 1;
    var before := run[..n];
    OnlyLastRunChanges(s, before, windowMinutes);
    if i < n {
      assert before[..i] == run[..i];
      FiringIsRemembered(s, before, windowMinutes, i);
    }
  }

  lemma StartIsCovered(s: Schedule, run: seq<Visit>, windowMinutes: nat, i: nat)
    requires OnTheClock(s) && i < |run| && StartedAt(s, run, windowMinutes, i)
    ensures IsSlot(s, SlotAt(s, run, i)) && Covers(s, SlotAt(s, run, i), run[i].now, windowMinutes)
    ensures var last := AfterVisits(s, run[..i], windowMinutes).lastRunAt;
            last.Some? ==> last.value < SlotAt(s, run, i)
  {
    OnlyLastRunChanges(s, run[..i], windowMinutes);
    ScheduledAtSameDay(s, run[i].now);
  }

  /** Once a start is recorded, every later start is for a later slot, whatever the interleaving of replicas
      and however stale their clock readings; and each start lies inside the window of its slot. */
  lemma StartsFollowRecords(s: Schedule, run: seq<Visit>, windowMinutes: nat, i: nat, j: nat)
    requires OnTheClock(s) && EndsAfterStart(run)
    requires i < j < |run| && RecordedAt(s, run, windowMinutes, i) && StartedAt(s, run, windowMinutes, j)
    ensures SlotAt(s, run, i) < SlotAt(s, run, j)
    ensures IsSlot(s, SlotAt(s, run, i)) && Covers(s, SlotAt(s, run, i), run[i].now, windowMinutes)
    ensures IsSlot(s, SlotAt(s, run, j)) && Covers(s, SlotAt(s, run, j), run[j].now, windowMinutes)
  {
    assert run[..j][..i] == run[..i];
    FiringIsRemembered(s, run[..j], windowMinutes, i);
    StartIsCovered(s, run, windowMinutes, i);
    StartIsCovered(s, run, windowMinutes, j);
  }

  /** In particular the slots whose firing is recorded strictly increase. */
  lemma FiredSlotsIncrease(s: Schedule, run: seq<Visit>, windowMinutes: nat, i: nat, j: nat)
    requires OnTheClock(s) && EndsAfterStart(run)
    requires i < j < |run| && RecordedAt(s, run, windowMinutes, i) && RecordedAt(s, run, windowMinutes, j)
    ensures SlotAt(s, run, i) < SlotAt(s, run, j)
  {
    StartsFollowRecords(s, run, windowMinutes, i, j);
  }

  // ---------------------------------------------------------------- starts of one slot

  /** How many audits were started for the slot, and how many of them left no record. */
  function CountStarts(s: Schedule, run: seq<Visit>, windowMinutes: nat, slot: int): nat
    requires s.timeOfDay.At?
  {
    if run == [] then 0
    else
      var n := |run| - 1;
      CountStarts(s, run[..n], windowMinutes, slot)
      + if StartedAt(s, run, windowMinutes, n) && SlotAt(s, run, n) == slot then 1 else 0
  }

  function CountUnrecorded(s: Schedule, run: seq<Visit>, windowMinutes: nat, slot: int): nat
    requires s.timeOfDay.At?
  {
    if run == [] then 0
    else
      var n := |run| - 1;
      CountUnrecorded(s, run[..n], windowMinutes, slot)
      + if StartedAt(s, run, windowMinutes, n) && run[n].outcome.Unrecorded? && SlotAt(s, run, n) == slot then 1 else 0
  }

  predicate RecordedFor(s: Schedule, run: seq<Visit>, windowMinutes: nat, i: nat, slot: int)
    requires i < |run| && s.timeOfDay.At?
  {
    RecordedAt(s, run, windowMinutes, i) && SlotAt(s, run, i) == slot
  }

  predicate SlotRecorded(s: Schedule, run: seq<Visit>, windowMinutes: nat, slot: int)
    requires s.timeOfDay.At?
  {
    exists i | 0 <= i < |run| :: RecordedFor(s, run, windowMinutes, i, slot)
  }

  /** The audits started for a slot are the unrecorded ones and, once the slot is recorded, one more. */
  lemma {:induction false} StartsCounted(s: Schedule, run: seq<Visit>, windowMinutes: nat, slot: int)
    requires OnTheClock(s) && EndsAfterStart(run)
    ensures CountStarts(s, run, windowMinutes, slot) ==
            CountUnrecorded(s, run, windowMinutes, slot) + if SlotRecorded(s, run, windowMinutes, slot) then 1 else 0
  {
    if run != [] {
      var n := |run| - 1;
      StartsCounted(s, run[..n], windowMinutes, slot);
      SlotRecordedStep(s, run, windowMinutes, slot);
    }
  }

  lemma SlotRecordedStep(s: Schedule, run: seq<Visit>, windowMinutes: nat, slot: int)
    requires OnTheClock(s) && EndsAfterStart(run) && run != []
    ensures var n := |run| - 1;
            && (SlotRecorded(s, run, windowMinutes, slot) <==>
                  SlotRecorded(s, run[..n], windowMinutes, slot) || RecordedFor(s, run, windowMinutes, n, slot))
            && (SlotRecorded(s, run[..n], windowMinutes, slot) ==>
                  !(StartedAt(s, run, windowMinutes, n) && SlotAt(s, run, n) == slot))
  {
    var n := |run| - 1;
    forall i | 0 <= i < n
      ensures RecordedFor(s, run[..n], windowMinutes, i, slot) <==> RecordedFor(s, run, windowMinutes, i, slot)
    {
      assert run[..n][..i] == run[..i];
    }
    if SlotRecorded(s, run[..n], windowMinutes, slot) {
      var i :| 0 <= i < n && RecordedFor(s, run[..n], windowMinutes, i, slot);
      assert RecordedFor(s, run, windowMinutes, i, slot);
      if StartedAt(s, run, windowMinutes, n) {
        StartsFollowRecords(s, run, windowMinutes, i, n);
      }
    }
  }

  /** A slot never has more than one audit beyond those whose start was left unrecorded. */
  lemma StartsBounded(s: Schedule, run: seq<Visit>, windowMinutes: nat, slot: int)
    requires OnTheClock(s) && EndsAfterStart(run)
    ensures CountStarts(s, run, windowMinutes, slot) <= 1 + CountUnrecorded(s, run, windowMinutes, slot)
  {
    StartsCounted(s, run, windowMinutes, slot);
  }

  predicate NoRecordBetween(s: Schedule, run: seq<Visit>, windowMinutes: nat, i: nat, j: nat)
    requires i <= j <= |run|
  {
    forall k | i <= k < j :: !RecordedAt(s, run, windowMinutes, k)
  }

  lemma {:induction false} RowStays(s: Schedule, run: seq<Visit>, windowMinutes: nat, i: nat, j: nat)
    requires i <= j <= |run| && NoRecordBetween(s, run, windowMinutes, i, j)
    ensures AfterVisits(s, run[..j], windowMinutes) == AfterVisits(s, run[..i], windowMinutes)
    decreases j
  {
    if i < j {
      RowStays(s, run, windowMinutes, i, j - 1);
      assert run[..j][..j - 1] == run[..j - 1];
      assert !RecordedAt(s, run, windowMinutes, j - 1);
    }
  }

  /** When an unrecorded start is repeated: as long as nothing is recorded in between, a later tick that gets
      as far as inserting an audit run starts the same slot again exactly when its window, cut at
      midnight, still covers the reading. */
  lemma UnrecordedStartRepeatsIff(s: Schedule, run: seq<Visit>, windowMinutes: nat, i: nat, j: nat)
    requires OnTheClock(s) && i < j < |run|
    requires StartedAt(s, run, windowMinutes, i) && run[i].outcome.Unrecorded?
    requires NoRecordBetween(s, run, windowMinutes, i, j) && !run[j].outcome.NotStarted?
    ensures StartedAt(s, run, windowMinutes, j) && SlotAt(s, run, j) == SlotAt(s, run, i) <==>
            Covers(s, SlotAt(s, run, i), run[j].now, windowMinutes)
  {
    RowStays(s, run, windowMinutes, i, j);
    StartIsCovered(s, run, windowMinutes, i);
    OnlyLastRunChanges(s, run[..i], windowMinutes);
    var row := AfterVisits(s, run[..j], windowMinutes);
    UnservedSlotIsDueIff(row, SlotAt(s, run, i), run[j].now, windowMinutes);
  }

  /** `n` starts of the slot that leave no record, then one that does. */
  function Retries(slot: int, n: nat): seq<Visit> {
    seq(n, i => Visit(slot, Unrecorded)) + [Visit(slot, Recorded(slot))]
  }

  lemma {:induction false} UnrecordedStartsCount(s: Schedule, slot: int, windowMinutes: nat, n: nat)
    requires OnTheClock(s) && IsSlot(s, slot) && 1 <= windowMinutes
    requires s.lastRunAt.None? || s.lastRunAt.value < slot
    ensures var run := seq(n, i => Visit(slot, Unrecorded));
            && AfterVisits(s, run, windowMinutes) == s
            && CountStarts(s, run, windowMinutes, slot) == CountUnrecorded(s, run, windowMinutes, slot) == n
  {
    if n > 0 {
      var run := seq(n, i => Visit(slot, Unrecorded));
      assert run[..n - 1] == seq(n - 1, i => Visit(slot, Unrecorded));
      UnrecordedStartsCount(s, slot, windowMinutes, n - 1);
      UnservedSlotIsDueIff(s, slot, slot, windowMinutes);
    }
  }

  /** The bound is reached for every number of unrecorded starts. */
  lemma StartsBoundIsReached(s: Schedule, slot: int, windowMinutes: nat, n: nat)
    requires OnTheClock(s) && IsSlot(s, slot) && 1 <= windowMinutes
    requires s.lastRunAt.None? || s.lastRunAt.value < slot
    ensures exists run :: EndsAfterStart(run) && CountUnrecorded(s, run, windowMinutes, slot) == n
                          && CountStarts(s, run, windowMinutes, slot) == n + 1
  {
    var run := Retries(slot, n);
    assert run[..n] == seq(n, i => Visit(slot, Unrecorded));
    UnrecordedStartsCount(s, slot, windowMinutes, n);
    UnservedSlotIsDueIff(s, slot, slot, windowMinutes);
    assert EndsAfterStart(run);
  }

  // ---------------------------------------------------------------- every slot

  /** Where `lastRunAt` comes from: the initial row or a recorded firing. */
  lemma {:induction false} LastRunOrigin(s: Schedule, run: seq<Visit>, windowMinutes: nat) returns (i: int)
    ensures -1 <= i < |run|
    ensures i == -1 ==> AfterVisits(s, run, windowMinutes).lastRunAt == s.lastRunAt
    ensures 0 <= i ==> RecordedAt(s, run, windowMinutes, i)
                       && AfterVisits(s, run, windowMinutes).lastRunAt == Some(run[i].outcome.doneAt)
  {
    if run == [] {
      i := -1;
    } else {
      var n := |run| - 1;
      if RecordedAt(s, run, windowMinutes, n) {
        i := n;
      } else {
        i := LastRunOrigin(s, run[..n], windowMinutes);
        if 0 <= i {
          assert run[..n][..i] == run[..i];
        }
      }
    }
  }

  /** A tick that reads the clock in the slot's first minute, as the every-minute cron does, can
      always fire it: no window and no midnight cuts the first minute off. */
  lemma FirstMinuteIsCovered(s: Schedule, slot: int, now: int, windowMinutes: nat)
    requires OnTheClock(s) && IsSlot(s, slot) && slot <= now < slot + MINUTE && 1 <= windowMinutes
    ensures Covers(s, slot, now, windowMinutes) && slot == ScheduledAt(s, now)
  {
    var local := slot + s.offset;
    assert local == (local / DAY) * DAY + local % DAY;
    assert local % DAY <= DAY - MINUTE;
    assert (now + s.offset) / DAY == local / DAY;
    assert windowMinutes * MINUTE >= MINUTE;
    SlotOfTheDay(s, slot, now);
  }

  /** Liveness with safety: if a successful tick reads the clock in the slot's first minute, and
      every other recorded firing so far, like the initial `lastRunAt`, ended before the slot, then the
      run records the slot, and it starts exactly one audit for it beyond the unrecorded ones. */
  lemma EverySlotFiresOnce(s: Schedule, run: seq<Visit>, windowMinutes: nat, slot: int, i: nat)
    requires OnTheClock(s) && EndsAfterStart(run) && 1 <= windowMinutes && IsSlot(s, slot)
    requires i < |run| && slot <= run[i].now < slot + MINUTE && run[i].outcome.Recorded?
    requires s.lastRunAt.Some? ==> s.lastRunAt.value < slot
    requires forall j: nat | j < i && RecordedAt(s, run, windowMinutes, j) && SlotAt(s, run, j) != slot ::
               run[j].outcome.doneAt < slot
    ensures exists k: nat | k <= i :: RecordedFor(s, run, windowMinutes, k, slot)
    ensures CountStarts(s, run, windowMinutes, slot) == 1 + CountUnrecorded(s, run, windowMinutes, slot)
  {
    FirstMinuteIsCovered(s, slot, run[i].now, windowMinutes);
    OnlyLastRunChanges(s, run[..i], windowMinutes);
    var k: nat := i;
    if !RecordedAt(s, run, windowMinutes, i) {
      k := LastRunOrigin(s, run[..i], windowMinutes);
      assert run[..i][..k] == run[..k];
    }
    assert RecordedFor(s, run, windowMinutes, k, slot);
    StartsCounted(s, run, windowMinutes, slot);
  }

  // ---------------------------------------------------------------- slots recur

  /** A slot at or after any given instant, if the schedule has a slot at all. */
  lemma {:induction false} LaterSlot(s: Schedule, slot: int, bound: int) returns (later: int)
    requires IsSlot(s, slot)
    ensures IsSlot(s, later) && bound <= later
    decreases if bound <= slot then 0 else bound - slot
  {
    if bound <= slot {
      later := slot;
    } else {
      var week := 7 * DAY;
      assert (slot + week + s.offset) / DAY == (slot + s.offset) / DAY + 7;
      assert (slot + week + s.offset) % DAY == (slot + s.offset) % DAY;
      later := LaterSlot(s, slot + week, bound);
    }
  }
}
