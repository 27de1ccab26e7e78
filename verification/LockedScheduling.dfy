/** One schedule served by many worker replicas: `runDueSchedules` running inside the lease of
    `DistributedLock`.  Each `withLock` call reads the schedule row once, may start an audit for it, and then
    writes `lastRunAt`; the row is shared. */
module LockedScheduling {
  import opened Common
  import L = DistributedLock
  import opened Scheduling

  /** What one call has done: read the clock; read the row; passed the abort check and `isScheduleDue` at
      `since`, and inserted an audit run or not yet; left that part with an exception; or written
      `lastRunAt`. */
  datatype Phase = Ticked | Read | Firing(since: int, started: bool) | Failed(started: bool) | Done

  /** `nowUtc` is read before the lock is requested; `seen` is the `lastRunAt` of its query. */
  datatype Work = Work(nowUtc: int, seen: Option<int>, phase: Phase)

  /** A write of `lastRunAt`: for which slot, and by a tick with which clock reading. */
  datatype Record = Record(slot: int, nowUtc: int)

  datatype System = System(lock: L.State, lastRunAt: Option<int>, works: map<L.Token, Work>, fired: seq<Record>)

  datatype Step =
    | Lock(event: L.Event)
    | Tick(token: L.Token, nowUtc: int)
    | ReadRow(token: L.Token)
    | BeginFiring(token: L.Token)
    | StartAudit(token: L.Token)
    | FailFiring(token: L.Token)
    | CommitFiring(token: L.Token)

  /** `maxFiring` bounds the time from the abort check of a schedule to the end of its `try` block. */
  datatype Config = Config(lease: L.Params, schedule: Schedule, windowMinutes: nat, maxFiring: nat)

  predicate Due(c: Config, w: Work) {
    IsScheduleDue(c.schedule.(lastRunAt := w.seen), w.nowUtc, c.windowMinutes)
  }

  function SlotOf(c: Config, w: Work): int
    requires c.schedule.timeOfDay.At?
  {
    ScheduledAt(c.schedule, w.nowUtc)
  }

  predicate BodyRuns(s: System, t: L.Token) {
    t in s.lock.sessions && s.lock.sessions[t].body.Running?
  }

  predicate Trusted(s: System, t: L.Token) {
    t in s.lock.sessions && L.Protected(s.lock.sessions[t])
  }

  predicate InPhase(s: System, t: L.Token, phase: Phase) {
    t in s.works && s.works[t].phase == phase
  }

  predicate IsFiring(s: System, t: L.Token) {
    BodyRuns(s, t) && t in s.works && s.works[t].phase.Firing?
  }

  /** A clock may be behind, but not ahead.  The query runs without looking at the signal; the loop head looks at
      it; nothing looks at it between the loop head and the write of `lastRunAt`. */
  predicate Can(c: Config, s: System, e: Step) {
    match e
    case Lock(ev) =>
      && L.Enabled(c.lease, s.lock, ev)
      && (ev.Acquire? ==> ev.token in s.works)
      && (ev.Finish? ==> !IsFiring(s, ev.token))
      && (ev.Pass? ==> forall t | t in s.works && IsFiring(s, t) ::
        s.lock.now + ev.dt <= s.works[t].phase.since + c.maxFiring)
    case Tick(t, nowUtc) => t !in s.works && nowUtc <= s.lock.now
    case ReadRow(t) => BodyRuns(s, t) && InPhase(s, t, Ticked)
    case BeginFiring(t) => Trusted(s, t) && InPhase(s, t, Read) && Due(c, s.works[t])
    case StartAudit(t) => IsFiring(s, t) && !s.works[t].phase.started
    case FailFiring(t) => IsFiring(s, t)
    case CommitFiring(t) => IsFiring(s, t) && s.works[t].phase.started
  }

  function WithPhase(s: System, t: L.Token, phase: Phase): System
    requires t in s.works
  {
    s.(works := s.works[t := s.works[t].(phase := phase)])
  }

  function Do(c: Config, s: System, e: Step): System
    requires c.schedule.timeOfDay.At? && Can(c, s, e)
  {
    match e
    case Lock(ev) => s.(lock := L.Next(c.lease, s.lock, ev))
    case Tick(t, nowUtc) => s.(works := s.works[t := Work(nowUtc, None, Ticked)])
    case ReadRow(t) => s.(works := s.works[t := s.works[t].(seen := s.lastRunAt, phase := Read)])
    case BeginFiring(t) => WithPhase(s, t, Firing(s.lock.now, false))
    case StartAudit(t) => WithPhase(s, t, s.works[t].phase.(started := true))
    case FailFiring(t) => WithPhase(s, t, Failed(s.works[t].phase.started))
    case CommitFiring(t) =>
      WithPhase(s, t, Done).(lastRunAt := Some(s.lock.now),
                             fired := s.fired + [Record(SlotOf(c, s.works[t]), s.works[t].nowUtc)])
  }

  predicate Legal(c: Config, s: System, run: seq<Step>)
    requires c.schedule.timeOfDay.At?
    decreases |run|
  {
    run == [] || (Can(c, s, run[0]) && Legal(c, Do(c, s, run[0]), run[1..]))
  }

  function After(c: Config, s: System, run: seq<Step>): System
    requires c.schedule.timeOfDay.At? && Legal(c, s, run)
    decreases |run|
  {
    if run == [] then s else After(c, Do(c, s, run[0]), run[1..])
  }

  function Boot(lastRunAt: Option<int>): System {
    System(L.Start, lastRunAt, map[], [])
  }

  // ---------------------------------------------------------------- what every step keeps

  predicate SlotsIncrease(fired: seq<Record>) {
    forall i, j | 0 <= i < j < |fired| :: fired[i].slot < fired[j].slot
  }

  /** A call that is firing holds the live key until it must have ended, and what it has read is still so. */
  predicate KeepsKey(c: Config, s: System, t: L.Token)
    requires IsFiring(s, t)
  {
    var w := s.works[t];
    && L.HeldBy(s.lock.cell, s.lock.now, t)
    && w.phase.since <= s.lock.now && w.phase.since + c.maxFiring < s.lock.cell.expiresAt
    && w.seen == s.lastRunAt
  }

  predicate WorkOk(c: Config, s: System, t: L.Token)
    requires t in s.works && c.schedule.timeOfDay.At?
  {
    var w := s.works[t];
    && w.nowUtc <= s.lock.now
    && (!w.phase.Ticked? ==> t in s.lock.sessions && !s.lock.sessions[t].body.Entering?)
    && (w.phase.Firing? ==> Due(c, w))
    && ((w.phase.Read? || w.phase.Firing?) && Trusted(s, t) ==> w.seen == s.lastRunAt)
    && (w.phase.Done? ==> s.lastRunAt.Some? && SlotOf(c, w) <= s.lastRunAt.value)
  }

  predicate RecordOk(c: Config, s: System, r: Record) {
    && IsSlot(c.schedule, r.slot) && Covers(c.schedule, r.slot, r.nowUtc, c.windowMinutes)
    && s.lastRunAt.Some? && r.slot <= s.lastRunAt.value
  }

  predicate Inv(c: Config, s: System)
    requires c.schedule.timeOfDay.At?
  {
    && L.Inv(c.lease, s.lock)
    && (forall t | t in s.works :: WorkOk(c, s, t))
    && SlotsIncrease(s.fired)
    && (forall i | 0 <= i < |s.fired| :: RecordOk(c, s, s.fired[i]))
    && (forall t, u | t in s.works && u in s.works && t != u && s.works[t].phase.Done? && s.works[u].phase.Done? ::
          SlotOf(c, s.works[t]) != SlotOf(c, s.works[u]))
  }

  predicate KeyInv(c: Config, s: System) {
    forall t | t in s.works && IsFiring(s, t) :: KeepsKey(c, s, t)
  }

  lemma LockStepKeepsInv(c: Config, s: System, ev: L.Event)
    requires L.FitsLease(c.lease) && OnTheClock(c.schedule) && Inv(c, s) && Can(c, s, Lock(ev))
    ensures Inv(c, Do(c, s, Lock(ev)))
  {
    L.StepKeepsInv(c.lease, s.lock, ev);
    var s' := Do(c, s, Lock(ev));
    forall t | t in s'.works
      ensures WorkOk(c, s', t)
    {
      assert WorkOk(c, s, t);
    }
  }

  lemma CommitKeepsOthers(c: Config, s: System, t: L.Token, u: L.Token)
    requires L.FitsLease(c.lease) && OnTheClock(c.schedule)
    requires Inv(c, s) && Can(c, s, CommitFiring(t)) && u in s.works && u != t
    requires L.HeldBy(s.lock.cell, s.lock.now, t) && s.works[t].seen == s.lastRunAt
    ensures WorkOk(c, Do(c, s, CommitFiring(t)), u)
    ensures s.works[u].phase.Done? ==> SlotOf(c, s.works[u]) < SlotOf(c, s.works[t])
  {
    assert WorkOk(c, s, t) && WorkOk(c, s, u);
    if Trusted(s, u) {
      L.BackedIsLive(c.lease, s.lock, u);
    }
  }

  /** A firing is recorded by the one call that holds the live key, on a row that has not changed since. */
  lemma CommitKeepsInv(c: Config, s: System, t: L.Token)
    requires L.FitsLease(c.lease) && OnTheClock(c.schedule)
    requires Inv(c, s) && Can(c, s, CommitFiring(t))
    requires L.HeldBy(s.lock.cell, s.lock.now, t) && s.works[t].seen == s.lastRunAt
    ensures Inv(c, Do(c, s, CommitFiring(t)))
  {
    var w, s' := s.works[t], Do(c, s, CommitFiring(t));
    assert WorkOk(c, s, t);
    ScheduledAtSameDay(c.schedule, w.nowUtc);
    assert IsSlot(c.schedule, SlotOf(c, w)) && Covers(c.schedule, SlotOf(c, w), w.nowUtc, c.windowMinutes);
    forall u | u in s.works && u != t
      ensures WorkOk(c, s', u) && (s.works[u].phase.Done? ==> SlotOf(c, s.works[u]) < SlotOf(c, w))
    {
      CommitKeepsOthers(c, s, t, u);
    }
    forall i | 0 <= i < |s.fired|
      ensures RecordOk(c, s', s.fired[i]) && s.fired[i].slot < SlotOf(c, w)
    {
      assert RecordOk(c, s, s.fired[i]);
    }
  }

  lemma StepKeepsInv(c: Config, s: System, e: Step)
    requires L.FitsLease(c.lease) && OnTheClock(c.schedule)
    requires Inv(c, s) && Can(c, s, e)
    requires e.CommitFiring? ==> L.HeldBy(s.lock.cell, s.lock.now, e.token) && s.works[e.token].seen == s.lastRunAt
    ensures Inv(c, Do(c, s, e))
  {
    match e
    case Lock(ev) => LockStepKeepsInv(c, s, ev);
    case CommitFiring(t) => CommitKeepsInv(c, s, t);
    case _ =>
      var s' := Do(c, s, e);
      forall t | t in s'.works
        ensures WorkOk(c, s', t)
      {
        assert t in s.works ==> WorkOk(c, s, t);
      }
  }

  // ---------------------------------------------------------------- one record for each slot

  /** Two refresh periods and their delays, and then a whole firing, fit in one lease. */
  predicate FiringFits(c: Config) {
    c.maxFiring + 2 * c.lease.R() + 5 * c.lease.lag < c.lease.ttl
  }

  /** When a trusted call begins to fire, its key outlives the firing. */
  lemma BeginKeepsKey(c: Config, s: System, t: L.Token)
    requires FiringFits(c) && OnTheClock(c.schedule) && Inv(c, s) && Can(c, s, BeginFiring(t))
    ensures KeepsKey(c, Do(c, s, BeginFiring(t)), t)
  {
    assert L.Backed(c.lease, s.lock, t);
    assert WorkOk(c, s, t);
  }

  lemma LockStepKeepsKey(c: Config, s: System, ev: L.Event, t: L.Token)
    requires FiringFits(c) && OnTheClock(c.schedule) && Inv(c, s) && Can(c, s, Lock(ev))
    requires t in s.works && IsFiring(s, t) && KeepsKey(c, s, t)
    requires IsFiring(Do(c, s, Lock(ev)), t)
    ensures KeepsKey(c, Do(c, s, Lock(ev)), t)
  {
    if !ev.Pass? && ev.token != t {
      L.LiveKeyStays(c.lease, s.lock, ev, t);
    }
  }

  lemma StillFiring(c: Config, s: System, e: Step, t: L.Token)
    requires OnTheClock(c.schedule) && Inv(c, s) && Can(c, s, e) && t in s.works
    requires e != BeginFiring(t) && IsFiring(Do(c, s, e), t)
    ensures IsFiring(s, t)
  {
    assert WorkOk(c, s, t);
  }

  lemma StepKeepsKeyInv(c: Config, s: System, e: Step)
    requires FiringFits(c) && OnTheClock(c.schedule)
    requires Inv(c, s) && KeyInv(c, s) && Can(c, s, e)
    ensures KeyInv(c, Do(c, s, e))
  {
    var s' := Do(c, s, e);
    forall t | t in s'.works && IsFiring(s', t)
      ensures KeepsKey(c, s', t)
    {
      if e == BeginFiring(t) {
        BeginKeepsKey(c, s, t);
      } else {
        StillFiring(c, s, e, t);
        assert KeepsKey(c, s, t);
        if e.Lock? {
          LockStepKeepsKey(c, s, e.event, t);
        }
      }
    }
  }

  lemma {:induction false} RunKeepsInv(c: Config, s: System, run: seq<Step>)
    requires FiringFits(c) && OnTheClock(c.schedule)
    requires Inv(c, s) && KeyInv(c, s) && Legal(c, s, run)
    ensures Inv(c, After(c, s, run)) && KeyInv(c, After(c, s, run))
    decreases |run|
  {
    if run != [] {
      if run[0].CommitFiring? {
        assert KeepsKey(c, s, run[0].token);
      }
      StepKeepsInv(c, s, run[0]);
      StepKeepsKeyInv(c, s, run[0]);
      RunKeepsInv(c, Do(c, s, run[0]), run[1..]);
    }
  }

  /** From the lease to the calendar: if a whole firing fits in the lease as well, then over every run of every
      number of replicas, with lost requests, expired keys, failures and crashes, the firings that are
      recorded are for strictly increasing slots, each by a tick inside the window of its slot. */
  lemma RecordedOncePerSlot(c: Config, lastRunAt: Option<int>, run: seq<Step>)
    requires FiringFits(c) && OnTheClock(c.schedule) && Legal(c, Boot(lastRunAt), run)
    ensures var fired := After(c, Boot(lastRunAt), run).fired;
            && SlotsIncrease(fired)
            && forall i | 0 <= i < |fired| ::
                 IsSlot(c.schedule, fired[i].slot)
                   && Covers(c.schedule, fired[i].slot, fired[i].nowUtc, c.windowMinutes)
  {
    RunKeepsInv(c, Boot(lastRunAt), run);
    var s := After(c, Boot(lastRunAt), run);
    forall i | 0 <= i < |s.fired|
      ensures IsSlot(c.schedule, s.fired[i].slot)
      ensures Covers(c.schedule, s.fired[i].slot, s.fired[i].nowUtc, c.windowMinutes)
    {
      assert RecordOk(c, s, s.fired[i]);
    }
  }

  /** Looking at the signal again right before the write would do as well: however long a firing takes, all
      runs in which an aborted call does not write the row record each slot once. */
  predicate AbortEndsWork(c: Config, s: System, run: seq<Step>)
    requires c.schedule.timeOfDay.At? && Legal(c, s, run)
    decreases |run|
  {
    run != [] ==>
      (run[0].CommitFiring? ==> Trusted(s, run[0].token)) && AbortEndsWork(c, Do(c, s, run[0]), run[1..])
  }

  lemma {:induction false} AbortedRunKeepsInv(c: Config, s: System, run: seq<Step>)
    requires L.FitsLease(c.lease) && OnTheClock(c.schedule)
    requires Inv(c, s) && Legal(c, s, run) && AbortEndsWork(c, s, run)
    ensures Inv(c, After(c, s, run))
    decreases |run|
  {
    if run != [] {
      if run[0].CommitFiring? {
        L.BackedIsLive(c.lease, s.lock, run[0].token);
        assert WorkOk(c, s, run[0].token);
      }
      StepKeepsInv(c, s, run[0]);
      AbortedRunKeepsInv(c, Do(c, s, run[0]), run[1..]);
    }
  }

  lemma LeaseGivesOneFiringPerSlot(c: Config, lastRunAt: Option<int>, run: seq<Step>)
    requires L.FitsLease(c.lease) && OnTheClock(c.schedule)
    requires Legal(c, Boot(lastRunAt), run) && AbortEndsWork(c, Boot(lastRunAt), run)
    ensures var fired := After(c, Boot(lastRunAt), run).fired;
            && SlotsIncrease(fired)
            && forall i | 0 <= i < |fired| ::
                 IsSlot(c.schedule, fired[i].slot)
                   && Covers(c.schedule, fired[i].slot, fired[i].nowUtc, c.windowMinutes)
  {
    AbortedRunKeepsInv(c, Boot(lastRunAt), run);
    var s := After(c, Boot(lastRunAt), run);
    forall i | 0 <= i < |s.fired|
      ensures IsSlot(c.schedule, s.fired[i].slot)
      ensures Covers(c.schedule, s.fired[i].slot, s.fired[i].nowUtc, c.windowMinutes)
    {
      assert RecordOk(c, s, s.fired[i]);
    }
  }

  // ---------------------------------------------------------------- starts of one slot

  /** The calls that have started an audit for the slot. */
  function Starters(c: Config, s: System, slot: int): set<L.Token>
    requires c.schedule.timeOfDay.At?
  {
    set t | t in s.works && HasStarted(s.works[t].phase) && SlotOf(c, s.works[t]) == slot
  }

  predicate HasStarted(phase: Phase) {
    phase.Done? || ((phase.Firing? || phase.Failed?) && phase.started)
  }

  /** The call will never record what it started: an exception was caught, or its process has died. */
  predicate IsLost(s: System, t: L.Token)
    requires t in s.works
  {
    s.works[t].phase.Failed? || (s.works[t].phase.Firing? && !BodyRuns(s, t))
  }

  function LostStarters(c: Config, s: System, slot: int): set<L.Token>
    requires c.schedule.timeOfDay.At?
  {
    set t | t in Starters(c, s, slot) && IsLost(s, t)
  }

  lemma OneStarterIsNotLost(c: Config, s: System, slot: int, t: L.Token, u: L.Token)
    requires OnTheClock(c.schedule) && Inv(c, s) && KeyInv(c, s)
    requires t in Starters(c, s, slot) && !IsLost(s, t) && u in Starters(c, s, slot) && !IsLost(s, u)
    ensures t == u
  {
    assert WorkOk(c, s, t) && WorkOk(c, s, u);
    if s.works[t].phase.Firing? {
      assert KeepsKey(c, s, t);
    }
    if s.works[u].phase.Firing? {
      assert KeepsKey(c, s, u);
    }
  }

  /** What a slot costs at most: at any moment of any run, all calls but one that have started an audit for it
      have lost their start to an exception or a crash. */
  lemma OneStartBeyondTheLost(c: Config, lastRunAt: Option<int>, run: seq<Step>, slot: int)
    requires FiringFits(c) && OnTheClock(c.schedule) && Legal(c, Boot(lastRunAt), run)
    ensures var s := After(c, Boot(lastRunAt), run);
            |Starters(c, s, slot)| <= 1 + |LostStarters(c, s, slot)|
  {
    RunKeepsInv(c, Boot(lastRunAt), run);
    var s := After(c, Boot(lastRunAt), run);
    var others := Starters(c, s, slot) - LostStarters(c, s, slot);
    forall t, u | t in others && u in others
      ensures t == u
    {
      OneStarterIsNotLost(c, s, slot, t, u);
    }
    AtMostOne(others);
    assert Starters(c, s, slot) == others + LostStarters(c, s, slot);
  }

  lemma AtMostOne<T>(xs: set<T>)
    requires forall x, y | x in xs && y in xs :: x == y
    ensures |xs| <= 1
  {
    if x :| x in xs {
      assert xs == {x};
    }
  }

  // ---------------------------------------------------------------- runs that go wrong

  /** A run from `Boot` grows by one step. */
  lemma Then(c: Config, lastRunAt: Option<int>, run: seq<Step>, s: System, e: Step)
    returns (longer: seq<Step>, t: System)
    requires c.schedule.timeOfDay.At? && Legal(c, Boot(lastRunAt), run) && After(c, Boot(lastRunAt), run) == s
    requires Can(c, s, e)
    ensures t == Do(c, s, e)
    ensures Legal(c, Boot(lastRunAt), longer) && After(c, Boot(lastRunAt), longer) == t
  {
    Append(c, Boot(lastRunAt), run, e);
    longer, t := run + [e], Do(c, s, e);
  }

  lemma {:induction false} Append(c: Config, s: System, run: seq<Step>, e: Step)
    requires c.schedule.timeOfDay.At? && Legal(c, s, run) && Can(c, After(c, s, run), e)
    ensures Legal(c, s, run + [e]) && After(c, s, run + [e]) == Do(c, After(c, s, run), e)
    decreases |run|
  {
    if run == [] {
      assert [e][1..] == [];
    } else {
      Append(c, Do(c, s, run[0]), run[1..], e);
      assert (run + [e])[1..] == run[1..] + [e];
    }
  }

  /** A slot that the schedule is still to serve. */
  predicate Awaits(c: Config, lastRunAt: Option<int>, slot: int) {
    && OnTheClock(c.schedule) && IsSlot(c.schedule, slot) && c.windowMinutes > 0
    && 0 <= slot && (lastRunAt.Some? ==> lastRunAt.value < slot)
  }

  /** At the slot both replicas tick, and the first one acquires the key. */
  function Opened(c: Config, lastRunAt: Option<int>, slot: int): System {
    var w := Work(slot, None, Ticked);
    System(L.State(slot, L.Held(0, slot + c.lease.ttl), map[0 := L.Session(L.Entering, L.NotStarted, 0, false, slot)]),
           lastRunAt, map[0 := w, 1 := w], [])
  }

  lemma Ticking(c: Config, lastRunAt: Option<int>, slot: int) returns (run: seq<Step>, s: System)
    requires Awaits(c, lastRunAt, slot)
    ensures Legal(c, Boot(lastRunAt), run) && After(c, Boot(lastRunAt), run) == s
    ensures s == System(L.State(slot, L.Free, map[]), lastRunAt, Opened(c, lastRunAt, slot).works, [])
  {
    run, s := Then(c, lastRunAt, [], Boot(lastRunAt), Lock(L.Pass(slot)));
    run, s := Then(c, lastRunAt, run, s, Tick(0, slot));
    run, s := Then(c, lastRunAt, run, s, Tick(1, slot));
  }

  lemma Opening(c: Config, lastRunAt: Option<int>, slot: int) returns (run: seq<Step>)
    requires Awaits(c, lastRunAt, slot)
    ensures Legal(c, Boot(lastRunAt), run) && After(c, Boot(lastRunAt), run) == Opened(c, lastRunAt, slot)
  {
    var s: System;
    run, s := Ticking(c, lastRunAt, slot);
    run, s := Then(c, lastRunAt, run, s, Lock(L.Acquire(0, L.Answered)));
    assert s == Opened(c, lastRunAt, slot);
  }

  /** The first call has read the row and is in `phase`; the second one has not come yet. */
  function FirstAlone(c: Config, lastRunAt: Option<int>, slot: int, now: int, first: L.Session, phase: Phase): System {
    System(L.State(now, L.Held(0, slot + c.lease.ttl), map[0 := first]), lastRunAt,
           map[0 := Work(slot, lastRunAt, phase), 1 := Work(slot, None, Ticked)], [])
  }

  predicate LetsSecondIn(c: Config, slot: int, now: int, first: L.Session, phase: Phase) {
    && slot + c.lease.ttl <= now && (first.body.Running? || first.body.Finished?) && first.loop.Stopped?
    && phase.Firing?
  }

  /** The second replica acquires the expired key and starts an audit for the same slot. */
  lemma SecondStarts(c: Config, lastRunAt: Option<int>, slot: int, now: int, first: L.Session, phase: Phase,
                     run: seq<Step>)
    returns (longer: seq<Step>, s: System)
    requires Awaits(c, lastRunAt, slot) && LetsSecondIn(c, slot, now, first, phase)
    requires Legal(c, Boot(lastRunAt), run)
    requires After(c, Boot(lastRunAt), run) == FirstAlone(c, lastRunAt, slot, now, first, phase)
    ensures Legal(c, Boot(lastRunAt), longer) && After(c, Boot(lastRunAt), longer) == s
    ensures s.works == map[0 := Work(slot, lastRunAt, phase), 1 := Work(slot, lastRunAt, Firing(now, true))]
    ensures s.fired == [] && s.lock.now == now && BodyRuns(s, 1)
    ensures 0 in s.lock.sessions && s.lock.sessions[0] == first
  {
    UnservedSlotIsDueIff(c.schedule.(lastRunAt := lastRunAt), slot, slot, c.windowMinutes);
    longer, s := Then(c, lastRunAt, run, FirstAlone(c, lastRunAt, slot, now, first, phase),
                      Lock(L.Acquire(1, L.Answered)));
    longer, s := Then(c, lastRunAt, longer, s, Lock(L.Enter(1)));
    longer, s := Then(c, lastRunAt, longer, s, ReadRow(1));
    longer, s := Then(c, lastRunAt, longer, s, BeginFiring(1));
    longer, s := Then(c, lastRunAt, longer, s, StartAudit(1));
  }

  /** One step of the lock, while the first call is alone. */
  lemma FirstMoves(c: Config, lastRunAt: Option<int>, slot: int, now: int, x: L.Session, phase: Phase, run: seq<Step>,
                   ev: L.Event, later: int, y: L.Session) returns (longer: seq<Step>)
    requires c.schedule.timeOfDay.At? && Legal(c, Boot(lastRunAt), run)
    requires var s := FirstAlone(c, lastRunAt, slot, now, x, phase);
             && After(c, Boot(lastRunAt), run) == s && Can(c, s, Lock(ev))
             && L.Next(c.lease, s.lock, ev) == FirstAlone(c, lastRunAt, slot, later, y, phase).lock
    ensures Legal(c, Boot(lastRunAt), longer)
    ensures After(c, Boot(lastRunAt), longer) == FirstAlone(c, lastRunAt, slot, later, y, phase)
  {
    var s: System;
    longer, s := Then(c, lastRunAt, run, FirstAlone(c, lastRunAt, slot, now, x, phase), Lock(ev));
  }

  /** Time passes while the first call is alone. */
  lemma FirstWaits(c: Config, lastRunAt: Option<int>, slot: int, now: int, x: L.Session, phase: Phase, run: seq<Step>,
                   dt: nat)
    returns (longer: seq<Step>)
    requires c.schedule.timeOfDay.At? && Legal(c, Boot(lastRunAt), run)
    requires After(c, Boot(lastRunAt), run) == FirstAlone(c, lastRunAt, slot, now, x, phase)
    requires L.InTime(c.lease, x, now + dt)
    requires phase.Firing? && x.body.Running? ==> now + dt <= phase.since + c.maxFiring
    ensures Legal(c, Boot(lastRunAt), longer)
    ensures After(c, Boot(lastRunAt), longer) == FirstAlone(c, lastRunAt, slot, now + dt, x, phase)
  {
    longer := FirstMoves(c, lastRunAt, slot, now, x, phase, run, L.Pass(dt), now + dt, x);
  }

  lemma FirstEnters(c: Config, lastRunAt: Option<int>, slot: int, delay: nat) returns (run: seq<Step>, s: System)
    requires Awaits(c, lastRunAt, slot) && delay <= c.lease.lag
    ensures Legal(c, Boot(lastRunAt), run) && After(c, Boot(lastRunAt), run) == s
    ensures s == Opened(c, lastRunAt, slot).(
                   lock := L.State(slot + delay, L.Held(0, slot + c.lease.ttl),
                                   map[0 := L.Session(L.Running, L.Armed(slot + delay), 0, false, slot)]))
  {
    run := Opening(c, lastRunAt, slot);
    s := Opened(c, lastRunAt, slot);
    run, s := Then(c, lastRunAt, run, s, Lock(L.Pass(delay)));
    run, s := Then(c, lastRunAt, run, s, Lock(L.Enter(0)));
  }

  lemma FirstReads(c: Config, lastRunAt: Option<int>, slot: int, delay: nat) returns (run: seq<Step>)
    requires Awaits(c, lastRunAt, slot) && delay <= c.lease.lag
    ensures Legal(c, Boot(lastRunAt), run)
    ensures After(c, Boot(lastRunAt), run) ==
            FirstAlone(c, lastRunAt, slot, slot + delay, L.Session(L.Running, L.Armed(slot + delay), 0, false, slot),
                       Read)
  {
    var s: System;
    run, s := FirstEnters(c, lastRunAt, slot, delay);
    run, s := Then(c, lastRunAt, run, s, ReadRow(0));
    assert s == FirstAlone(c, lastRunAt, slot, slot + delay,
                           L.Session(L.Running, L.Armed(slot + delay), 0, false, slot), Read);
  }

  lemma FirstStarts(c: Config, lastRunAt: Option<int>, slot: int, now: int, first: L.Session, run: seq<Step>)
    returns (longer: seq<Step>)
    requires Awaits(c, lastRunAt, slot) && L.Protected(first) && Legal(c, Boot(lastRunAt), run)
    requires After(c, Boot(lastRunAt), run) == FirstAlone(c, lastRunAt, slot, now, first, Read)
    ensures Legal(c, Boot(lastRunAt), longer)
    ensures After(c, Boot(lastRunAt), longer) == FirstAlone(c, lastRunAt, slot, now, first, Firing(now, true))
  {
    UnservedSlotIsDueIff(c.schedule.(lastRunAt := lastRunAt), slot, slot, c.windowMinutes);
    var s: System;
    longer, s := Then(c, lastRunAt, run, FirstAlone(c, lastRunAt, slot, now, first, Read), BeginFiring(0));
    longer, s := Then(c, lastRunAt, longer, s, StartAudit(0));
    assert s == FirstAlone(c, lastRunAt, slot, now, first, Firing(now, true));
  }

  /** The first call dies, and its lease runs out. */
  lemma FirstDies(c: Config, lastRunAt: Option<int>, slot: int) returns (run: seq<Step>)
    requires Awaits(c, lastRunAt, slot)
    ensures Legal(c, Boot(lastRunAt), run)
    ensures After(c, Boot(lastRunAt), run) ==
            FirstAlone(c, lastRunAt, slot, slot + c.lease.ttl, L.Session(L.Finished, L.Stopped, 0, false, slot),
                       Firing(slot, true))
  {
    var first := L.Session(L.Running, L.Armed(slot), 0, false, slot);
    var dead := L.Session(L.Finished, L.Stopped, 0, false, slot);
    var phase := Firing(slot, true);
    run := FirstReads(c, lastRunAt, slot, 0);
    run := FirstStarts(c, lastRunAt, slot, slot, first, run);
    run := FirstMoves(c, lastRunAt, slot, slot, first, phase, run, L.Crash(0), slot, dead);
    run := FirstWaits(c, lastRunAt, slot, slot, dead, phase, run, c.lease.ttl);
  }

  /** A replica dies between inserting an audit run and writing `lastRunAt`; when its lease has run out the
      next one starts an audit for the same slot, and records that. */
  lemma CrashStartsSlotTwice(c: Config, lastRunAt: Option<int>, slot: int) returns (run: seq<Step>)
    requires Awaits(c, lastRunAt, slot)
    ensures Legal(c, Boot(lastRunAt), run)
    ensures var s := After(c, Boot(lastRunAt), run);
            && Starters(c, s, slot) == {0, 1} && LostStarters(c, s, slot) == {0}
            && s.fired == [Record(slot, slot)]
  {
    SlotOfTheDay(c.schedule, slot, slot);
    var first := L.Session(L.Finished, L.Stopped, 0, false, slot);
    var s: System;
    run := FirstDies(c, lastRunAt, slot);
    run, s := SecondStarts(c, lastRunAt, slot, slot + c.lease.ttl, first, Firing(slot, true), run);
    run, s := Then(c, lastRunAt, run, s, CommitFiring(1));
  }

  /** One more refresh of the first call is lost, as late as can be. */
  lemma FirstLosesRefresh(c: Config, lastRunAt: Option<int>, slot: int, since: int, failures: nat, run: seq<Step>)
    returns (longer: seq<Step>)
    requires Awaits(c, lastRunAt, slot) && Legal(c, Boot(lastRunAt), run)
    requires After(c, Boot(lastRunAt), run) ==
             FirstAlone(c, lastRunAt, slot, since, L.Session(L.Running, L.Armed(since), failures, false, slot), Read)
    ensures Legal(c, Boot(lastRunAt), longer)
    ensures var sent := since + c.lease.R() + c.lease.lag;
            After(c, Boot(lastRunAt), longer) ==
            FirstAlone(c, lastRunAt, slot, sent + c.lease.lag,
                       L.Session(L.Running, L.InFlight(false, sent), failures, false, slot), Read)
  {
    var sent := since + c.lease.R() + c.lease.lag;
    var armed := L.Session(L.Running, L.Armed(since), failures, false, slot);
    var lost := L.Session(L.Running, L.InFlight(false, sent), failures, false, slot);
    longer := FirstWaits(c, lastRunAt, slot, since, armed, Read, run, c.lease.R() + c.lease.lag);
    longer := FirstMoves(c, lastRunAt, slot, sent, armed, Read, longer, L.Refresh(0, L.RequestLost), sent, lost);
    longer := FirstWaits(c, lastRunAt, slot, sent, lost, Read, longer, c.lease.lag);
  }

  /** The latest moment at which a call whose refreshes both fail can begin to fire. */
  function LastBegin(c: Config, slot: int): int {
    slot + 2 * c.lease.R() + 5 * c.lease.lag
  }

  function LateFirst(c: Config, slot: int): L.Session {
    L.Session(L.Running, L.InFlight(false, LastBegin(c, slot) - c.lease.lag), 1, false, slot)
  }

  lemma FirstIsLate(c: Config, lastRunAt: Option<int>, slot: int) returns (run: seq<Step>)
    requires Awaits(c, lastRunAt, slot)
    ensures Legal(c, Boot(lastRunAt), run)
    ensures After(c, Boot(lastRunAt), run) ==
            FirstAlone(c, lastRunAt, slot, LastBegin(c, slot), LateFirst(c, slot), Read)
  {
    var sent, now := slot + c.lease.R() + 2 * c.lease.lag, slot + c.lease.R() + 3 * c.lease.lag;
    run := FirstReads(c, lastRunAt, slot, c.lease.lag);
    run := FirstLosesRefresh(c, lastRunAt, slot, slot + c.lease.lag, 0, run);
    run := FirstMoves(c, lastRunAt, slot, now, L.Session(L.Running, L.InFlight(false, sent), 0, false, slot), Read, run,
                      L.Reply(0), now, L.Session(L.Running, L.Armed(now), 1, false, slot));
    run := FirstLosesRefresh(c, lastRunAt, slot, now, 1, run);
  }

  /** The first call passes the loop head at the last moment; then its signal fires, and its key expires. */
  lemma FirstOverruns(c: Config, lastRunAt: Option<int>, slot: int, now: int) returns (run: seq<Step>)
    requires Awaits(c, lastRunAt, slot) && LastBegin(c, slot) <= now <= LastBegin(c, slot) + c.maxFiring
    ensures Legal(c, Boot(lastRunAt), run)
    ensures After(c, Boot(lastRunAt), run) ==
            FirstAlone(c, lastRunAt, slot, now, L.Session(L.Running, L.Stopped, 2, true, slot),
                       Firing(LastBegin(c, slot), true))
  {
    var begin, aborted := LastBegin(c, slot), L.Session(L.Running, L.Stopped, 2, true, slot);
    var phase := Firing(begin, true);
    run := FirstIsLate(c, lastRunAt, slot);
    run := FirstStarts(c, lastRunAt, slot, begin, LateFirst(c, slot), run);
    run := FirstMoves(c, lastRunAt, slot, begin, LateFirst(c, slot), phase, run, L.Reply(0), begin, aborted);
    run := FirstWaits(c, lastRunAt, slot, begin, aborted, phase, run, now - begin);
  }

  /** The signal is only read at the loop head.  A call that passes it just before the abort still writes
      `lastRunAt` when another replica has acquired the expired key and fired the same slot. */
  lemma LateFiringRepeatsSlot(c: Config, lastRunAt: Option<int>, slot: int) returns (run: seq<Step>)
    requires Awaits(c, lastRunAt, slot) && !FiringFits(c)
    ensures Legal(c, Boot(lastRunAt), run)
    ensures After(c, Boot(lastRunAt), run).fired == [Record(slot, slot), Record(slot, slot)]
  {
    SlotOfTheDay(c.schedule, slot, slot);
    var begin := LastBegin(c, slot);
    var now := if begin < slot + c.lease.ttl then slot + c.lease.ttl else begin;
    var s: System;
    run := FirstOverruns(c, lastRunAt, slot, now);
    run, s := SecondStarts(c, lastRunAt, slot, now, L.Session(L.Running, L.Stopped, 2, true, slot),
                           Firing(begin, true), run);
    run, s := Then(c, lastRunAt, run, s, CommitFiring(1));
    run, s := Then(c, lastRunAt, run, s, CommitFiring(0));
  }

  // ---------------------------------------------------------------- exactly when

  ghost predicate NeverDue(c: Config) {
    c.windowMinutes == 0 || forall slot :: !IsSlot(c.schedule, slot)
  }

  lemma NeverDueIsNotDue(c: Config, w: Work)
    requires OnTheClock(c.schedule) && NeverDue(c)
    ensures !Due(c, w)
  {
    ScheduledAtSameDay(c.schedule, w.nowUtc);
    assert Due(c, w) ==> IsSlot(c.schedule, ScheduledAt(c.schedule, w.nowUtc));
  }

  lemma {:induction false} NothingFires(c: Config, s: System, run: seq<Step>)
    requires OnTheClock(c.schedule) && NeverDue(c) && Legal(c, s, run)
    requires s.fired == [] && forall t | t in s.works :: s.works[t].phase.Ticked? || s.works[t].phase.Read?
    ensures After(c, s, run).fired == [] && forall slot :: Starters(c, After(c, s, run), slot) == {}
    decreases |run|
  {
    if run != [] {
      if run[0].BeginFiring? {
        NeverDueIsNotDue(c, s.works[run[0].token]);
      }
      NothingFires(c, Do(c, s, run[0]), run[1..]);
    }
  }

  lemma SomeSlotAwaits(c: Config, lastRunAt: Option<int>) returns (slot: int)
    requires OnTheClock(c.schedule) && !NeverDue(c)
    ensures Awaits(c, lastRunAt, slot)
  {
    var some :| IsSlot(c.schedule, some);
    slot := LaterSlot(c.schedule, some, if lastRunAt.Some? && lastRunAt.value >= 0 then lastRunAt.value + 1 else 0);
  }

  ghost predicate AlwaysRecordsOnce(c: Config, lastRunAt: Option<int>)
    requires c.schedule.timeOfDay.At?
  {
    forall run | Legal(c, Boot(lastRunAt), run) :: SlotsIncrease(After(c, Boot(lastRunAt), run).fired)
  }

  /** Exactly when no slot is ever recorded twice: a whole firing fits in the lease behind two failed refreshes, or
      the schedule never fires at all. */
  lemma RecordedOnceIff(c: Config, lastRunAt: Option<int>)
    requires OnTheClock(c.schedule)
    ensures AlwaysRecordsOnce(c, lastRunAt) <==> FiringFits(c) || NeverDue(c)
  {
    if FiringFits(c) || NeverDue(c) {
      forall run | Legal(c, Boot(lastRunAt), run)
        ensures SlotsIncrease(After(c, Boot(lastRunAt), run).fired)
      {
        if FiringFits(c) {
          RecordedOncePerSlot(c, lastRunAt, run);
        } else {
          NothingFires(c, Boot(lastRunAt), run);
        }
      }
    } else {
      var slot := SomeSlotAwaits(c, lastRunAt);
      var run := LateFiringRepeatsSlot(c, lastRunAt, slot);
      var fired := After(c, Boot(lastRunAt), run).fired;
      assert fired[0].slot == fired[1].slot;
    }
  }

  ghost predicate AlwaysStartsOnce(c: Config, lastRunAt: Option<int>)
    requires c.schedule.timeOfDay.At?
  {
    forall run, slot | Legal(c, Boot(lastRunAt), run) :: |Starters(c, After(c, Boot(lastRunAt), run), slot)| <= 1
  }

  /** No lease makes the audits themselves start at most once for a slot: that holds only of a schedule that
      never fires. */
  lemma StartedOnceIff(c: Config, lastRunAt: Option<int>)
    requires OnTheClock(c.schedule)
    ensures AlwaysStartsOnce(c, lastRunAt) <==> NeverDue(c)
  {
    if NeverDue(c) {
      forall run, slot | Legal(c, Boot(lastRunAt), run)
        ensures |Starters(c, After(c, Boot(lastRunAt), run), slot)| <= 1
      {
        NothingFires(c, Boot(lastRunAt), run);
        assert Starters(c, After(c, Boot(lastRunAt), run), slot) == {};
      }
    } else {
      var slot := SomeSlotAwaits(c, lastRunAt);
      var run := CrashStartsSlotTwice(c, lastRunAt, slot);
      assert |Starters(c, After(c, Boot(lastRunAt), run), slot)| == 2;
    }
  }
}
