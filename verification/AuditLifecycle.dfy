/** The life of audit runs: `AuditOrchestrationService`, the state changes of `processQueuedRun`, and the
    deduplicating at-least-once queue between them.  The worker's prefix from the status guard to
    RUNNING is one atomic step, and so is every transaction; an event that is inserted by a statement of
    its own may be lost to an error or a crash. */
module AuditLifecycle {
  import opened Common

  type RunId = nat
  type SiteId = nat

  datatype Status = QUEUED | RUNNING | COMPLETED | FAILED

  datatype LogEntry = RUN_QUEUED | RUN_STARTED | RUN_COMPLETED | RUN_FAILED

  datatype AuditRun = AuditRun(site: SiteId, status: Status, createdAt: int)

  /** The default job id is the run id; the sweep appends a fresh UUID. */
  datatype JobId = Default(run: RunId) | Suffixed(run: RunId, uuid: nat)

  /** Waiting or delayed, taken by a worker (and delivered again if that worker stalls), or finished and
      kept until the retention policy evicts it. */
  datatype JobState = Deliverable | Active | Retained

  /** A worker execution: before the persisting transaction, or in the post-processing after it. */
  datatype Phase = Analysing | PostProcessing

  /** `log` is `audit_events` by run; `withIssues` are the runs whose `audit_issues` were inserted. */
  datatype State = State(
    sites: set<SiteId>,
    runs: map<RunId, AuditRun>,
    log: map<RunId, seq<LogEntry>>,
    withIssues: set<RunId>,
    workers: map<RunId, Phase>,
    jobs: map<JobId, JobState>)

  // ---------------------------------------------------------------- single steps

  /** BullMQ ignores an add whose job id exists, whatever the state of that job. */
  function Enqueued(jobs: map<JobId, JobState>, id: JobId): map<JobId, JobState> {
    if id in jobs then jobs else jobs[id := Deliverable]
  }

  function Moved(s: State, r: RunId, status: Status, entry: LogEntry): State
    requires r in s.runs && r in s.log
  {
    s.(runs := s.runs[r := s.runs[r].(status := status)], log := s.log[r := s.log[r] + [entry]])
  }

  /** `logged`: the RUN_QUEUED event is inserted too. */
  function Created(s: State, r: RunId, site: SiteId, now: int, logged: bool): State {
    s.(runs := s.runs[r := AuditRun(site, QUEUED, now)], log := s.log[r := if logged then [RUN_QUEUED] else []])
  }

  function RunningOn(runs: map<RunId, AuditRun>, site: SiteId): set<RunId> {
    set r | r in runs && runs[r].site == site && runs[r].status == RUNNING
  }

  /** `processQueuedRun` up to RUN_STARTED; unless `logged`, that event is lost and the execution with it. */
  function Begun(s: State, r: RunId, cap: nat, logged: bool): State
    requires r in s.runs ==> r in s.log
  {
    if r !in s.runs || s.runs[r].status != QUEUED then s
    else if |RunningOn(s.runs, s.runs[r].site) - {r}| >= cap then s.(jobs := Enqueued(s.jobs, Default(r)))
    else if s.runs[r].site !in s.sites then Moved(s, r, FAILED, RUN_FAILED)
    else if !logged then s.(runs := s.runs[r := s.runs[r].(status := RUNNING)])
    else
      var moved := Moved(s, r, RUNNING, RUN_STARTED);
      moved.(workers := moved.workers[r := Analysing])
  }

  function Persisted(s: State, r: RunId): State
    requires r in s.runs && r in s.log
  {
    var moved := Moved(s, r, COMPLETED, RUN_COMPLETED);
    moved.(withIssues := s.withIssues + {r}, workers := s.workers[r := PostProcessing])
  }

  /** The database and the queue behind both services. */
  class AuditStore {
    var sites: set<SiteId>
    var runs: map<RunId, AuditRun>
    var log: map<RunId, seq<LogEntry>>
    var withIssues: set<RunId>
    var workers: map<RunId, Phase>
    var jobs: map<JobId, JobState>

    function View(): State
      reads this
    {
      State(sites, runs, log, withIssues, workers, jobs)
    }

    constructor (sites: set<SiteId>)
      ensures View() == State(sites, map[], map[], {}, map[], map[])
    {
      this.sites := sites;
      runs, log, withIssues, workers, jobs := map[], map[], {}, map[], map[];
    }

    method EnqueueAuditRun(id: JobId)
      modifies this
      ensures View() == old(View()).(jobs := Enqueued(old(jobs), id))
    {
      if id !in jobs {
        jobs := jobs[id := Deliverable];
      }
    }

    method CreateAuditRun(r: RunId, site: SiteId, now: int, eventFails: bool) returns (created: bool)
      requires r !in runs
      modifies this
      ensures View() == Created(old(View()), r, site, now, !eventFails) && created == !eventFails
    {
      runs := runs[r := AuditRun(site, QUEUED, now)];
      log := log[r := []];
      if eventFails {
        return false;
      }
      log := log[r := [RUN_QUEUED]];
      created := true;
    }

    method MarkRunFailed(r: RunId)
      requires r in runs && r in log
      modifies this
      ensures View() == Moved(old(View()), r, FAILED, RUN_FAILED)
    {
      runs := runs[r := runs[r].(status := FAILED)];
      log := log[r := log[r] + [RUN_FAILED]];
    }

    method BeginQueuedRun(r: RunId, perProjectConcurrency: nat, eventFails: bool) returns (started: bool)
      requires r in runs ==> r in log
      modifies this
      ensures View() == Begun(old(View()), r, perProjectConcurrency, !eventFails)
      ensures started <==> r in old(runs) && old(runs)[r].status == QUEUED && runs[r].status == RUNNING && !eventFails
    {
      started := false;
      if r !in runs {
        return;
      }
      var run := runs[r];
      if run.status != QUEUED {
        return;
      }
      var running := set q | q in runs && runs[q].site == run.site && runs[q].status == RUNNING && q != r;
      assert running == RunningOn(runs, run.site) - {r};
      if |running| >= perProjectConcurrency {
        EnqueueAuditRun(Default(r));
        return;
      }
      if run.site !in sites {
        MarkRunFailed(r);
        return;
      }
      runs := runs[r := run.(status := RUNNING)];
      if eventFails {
        return;
      }
      log := log[r := log[r] + [RUN_STARTED]];
      workers := workers[r := Analysing];
      started := true;
    }

    method PersistCompleted(r: RunId)
      requires r in runs && r in log
      modifies this
      ensures View() == Persisted(old(View()), r)
    {
      runs := runs[r := runs[r].(status := COMPLETED)];
      withIssues := withIssues + {r};
      log := log[r := log[r] + [RUN_COMPLETED]];
      workers := workers[r := PostProcessing];
    }

    /** `reconcileQueuedRuns`: `candidates` is what the query returned and `uuids` the random suffixes;
        `lost` are the enqueues that throw. */
    method ReconcileQueuedRuns(candidates: seq<RunId>, uuids: seq<nat>, lost: set<nat>) returns (requeued: nat)
      requires |uuids| == |candidates|
      modifies this
      ensures View() == old(View()).(jobs := SweptJobs(old(jobs), candidates, uuids, lost))
      ensures requeued + |set i: nat | i < |candidates| && i in lost| == |candidates|
    {
      requeued := 0;
      var i := 0;
      while i < |candidates|
        invariant 0 <= i <= |candidates|
        invariant View() == old(View()).(jobs := SweptJobs(old(jobs), candidates[..i], uuids[..i], lost))
        invariant requeued + |LostAmong(i, lost)| == i
      {
        assert candidates[..i + 1][..i] == candidates[..i] && uuids[..i + 1][..i] == uuids[..i];
        if i !in lost {
          EnqueueAuditRun(Suffixed(candidates[i], uuids[i]));
          requeued := requeued + 1;
        }
        assert LostAmong(i + 1, lost) == if i in lost then LostAmong(i, lost) + {i} else LostAmong(i, lost);
        i := i + 1;
      }
      assert candidates[..i] == candidates && uuids[..i] == uuids;
    }
  }

  function LostAmong(n: nat, lost: set<nat>): set<nat> {
    set i: nat | i < n && i in lost
  }

  function SweptJobs(jobs: map<JobId, JobState>, candidates: seq<RunId>, uuids: seq<nat>,
                     lost: set<nat>): map<JobId, JobState>
    requires |uuids| == |candidates|
  {
    if candidates == [] then jobs
    else
      var n := |candidates| - 1;
      var rest := SweptJobs(jobs, candidates[..n], uuids[..n], lost);
      if n in lost then rest else Enqueued(rest, Suffixed(candidates[n], uuids[n]))
  }

  // ---------------------------------------------------------------- runs of the system

  /** How far creating a run gets: to its row, its event, or its job. */
  datatype Creation = RowOnly | WithEvent | WithJob

  datatype Event =
    | Create(run: RunId, site: SiteId, now: int, creation: Creation)
    | DropSite(site: SiteId)
    | Deliver(job: JobId, logged: bool)
    | FinishJob(job: JobId)
    | EvictJob(job: JobId)
    | Persist(run: RunId)
    | Fail(run: RunId)
    | Finish(run: RunId)
    | Crash(run: RunId)
    | Sweep(candidates: seq<RunId>, uuids: seq<nat>, lost: set<nat>)

  predicate Enabled(s: State, e: Event) {
    match e
    case Create(r, site, _, _) => r !in s.runs && site in s.sites
    case DropSite(_) => true
    case Deliver(j, _) => j in s.jobs && s.jobs[j] != Retained
    case FinishJob(j) => j in s.jobs && s.jobs[j] == Active
    case EvictJob(j) => j in s.jobs && s.jobs[j] == Retained
    case Persist(r) => r in s.workers && s.workers[r] == Analysing
    case Fail(r) => r in s.workers
    case Finish(r) => r in s.workers && s.workers[r] == PostProcessing
    case Crash(r) => r in s.workers
    case Sweep(candidates, uuids, _) => |uuids| == |candidates|
  }

  function Step(s: State, e: Event, cap: nat): State
    requires Enabled(s, e) && Sound(s, cap)
  {
    match e
    case Create(r, site, now, creation) =>
      var created := Created(s, r, site, now, !creation.RowOnly?);
      if creation.WithJob? then created.(jobs := Enqueued(s.jobs, Default(r))) else created
    case DropSite(site) => s.(sites := s.sites - {site})
    case Deliver(j, logged) => Begun(s.(jobs := s.jobs[j := Active]), j.run, cap, logged)
    case FinishJob(j) => s.(jobs := s.jobs[j := Retained])
    case EvictJob(j) => s.(jobs := s.jobs - {j})
    case Persist(r) => Persisted(s, r)
    case Fail(r) => var moved := Moved(s, r, FAILED, RUN_FAILED); moved.(workers := s.workers - {r})
    case Finish(r) => s.(workers := s.workers - {r})
    case Crash(r) => s.(workers := s.workers - {r})
    case Sweep(candidates, uuids, lost) => s.(jobs := SweptJobs(s.jobs, candidates, uuids, lost))
  }

  function AfterQueued(entries: seq<LogEntry>): seq<LogEntry> {
    if entries != [] && entries[0] == RUN_QUEUED then entries[1..] else entries
  }

  /** What the event log of a run says about its status: RUN_QUEUED and RUN_STARTED may be lost. */
  predicate LogAgrees(status: Status, entries: seq<LogEntry>) {
    var events := AfterQueued(entries);
    match status
    case QUEUED => events == []
    case RUNNING => events == [RUN_STARTED] || events == []
    case COMPLETED => events == [RUN_STARTED, RUN_COMPLETED]
    case FAILED =>
      || events == [RUN_FAILED]
      || events == [RUN_STARTED, RUN_FAILED]
      || events == [RUN_STARTED, RUN_COMPLETED, RUN_FAILED]
  }

  lemma AppendedEvent(entries: seq<LogEntry>, entry: LogEntry)
    requires entry != RUN_QUEUED
    ensures AfterQueued(entries + [entry]) == AfterQueued(entries) + [entry]
  {
    if entries != [] {
      assert (entries + [entry])[1..] == entries[1..] + [entry];
    }
  }

  predicate RunOk(s: State, r: RunId)
    requires r in s.runs
  {
    && r in s.log && LogAgrees(s.runs[r].status, s.log[r])
    && (r in s.withIssues <==> RUN_COMPLETED in s.log[r])
    && (r in s.workers ==> s.runs[r].status == if s.workers[r] == Analysing then RUNNING else COMPLETED)
    && (r in s.workers ==> RUN_STARTED in s.log[r])
  }

  predicate RunsOk(s: State) {
    (forall r | r in s.runs :: RunOk(s, r)) && s.workers.Keys + s.withIssues <= s.runs.Keys
  }

  ghost predicate WithinCap(runs: map<RunId, AuditRun>, cap: nat) {
    forall site :: |RunningOn(runs, site)| <= cap
  }

  /** The event log determines the status, issues are stored exactly with a RUN_COMPLETED event, a worker
      execution matches the status, and no site exceeds its cap of RUNNING runs. */
  ghost predicate Sound(s: State, cap: nat) {
    RunsOk(s) && WithinCap(s.runs, cap)
  }

  // ---------------------------------------------------------------- preservation

  /** Moving one run to another status respects the cap if a start leaves room for it. */
  lemma MoveKeepsCap(runs: map<RunId, AuditRun>, r: RunId, status: Status, cap: nat)
    requires WithinCap(runs, cap) && r in runs
    requires status == RUNNING ==> |RunningOn(runs, runs[r].site) - {r}| < cap
    ensures WithinCap(runs[r := runs[r].(status := status)], cap)
  {
    var moved := runs[r := runs[r].(status := status)];
    forall site
      ensures |RunningOn(moved, site)| <= cap
    {
      MovedRunning(runs, r, status, site);
      SubsetSize(RunningOn(runs, site) - {r}, RunningOn(runs, site));
    }
  }

  lemma MovedRunning(runs: map<RunId, AuditRun>, r: RunId, status: Status, site: SiteId)
    requires r in runs
    ensures var moved, others := runs[r := runs[r].(status := status)], RunningOn(runs, site) - {r};
            RunningOn(moved, site) == if runs[r].site == site && status == RUNNING then others + {r} else others
  {
  }

  /** A step that touches only run `r` keeps every other run. */
  predicate OnlyTouches(s: State, t: State, r: RunId) {
    && t.runs.Keys == s.runs.Keys + {r}
    && (forall q | q in s.runs && q != r ::
          && t.runs[q] == s.runs[q]
          && (q in s.log ==> q in t.log && t.log[q] == s.log[q])
          && (q in t.withIssues <==> q in s.withIssues)
          && (q in t.workers ==> q in s.workers && t.workers[q] == s.workers[q]))
    && t.workers.Keys + t.withIssues <= t.runs.Keys
  }

  lemma TouchKeepsRunsOk(s: State, t: State, r: RunId)
    requires RunsOk(s) && OnlyTouches(s, t, r) && RunOk(t, r)
    ensures RunsOk(t)
  {
    forall q | q in t.runs
      ensures RunOk(t, q)
    {
      assert q != r ==> RunOk(s, q);
    }
  }

  lemma SameRunsKeepSound(s: State, t: State, cap: nat)
    requires Sound(s, cap)
    requires t.runs == s.runs && t.log == s.log && t.withIssues == s.withIssues
    requires t.workers.Keys <= s.workers.Keys && forall r | r in t.workers :: t.workers[r] == s.workers[r]
    ensures Sound(t, cap)
  {
    forall r | r in t.runs
      ensures RunOk(t, r)
    {
      assert RunOk(s, r);
    }
  }

  lemma CreateKeepsSound(s: State, r: RunId, site: SiteId, now: int, logged: bool, cap: nat)
    requires Sound(s, cap) && r !in s.runs
    ensures Sound(Created(s, r, site, now, logged), cap)
  {
    var t := Created(s, r, site, now, logged);
    TouchKeepsRunsOk(s, t, r);
    forall other
      ensures |RunningOn(t.runs, other)| <= cap
    {
      assert RunningOn(t.runs, other) == RunningOn(s.runs, other);
    }
  }

  lemma StartKeepsSound(s: State, r: RunId, cap: nat)
    requires Sound(s, cap) && r in s.runs && s.runs[r].status == QUEUED
    requires |RunningOn(s.runs, s.runs[r].site) - {r}| < cap
    ensures r in s.log
    ensures var moved := Moved(s, r, RUNNING, RUN_STARTED); Sound(moved.(workers := moved.workers[r := Analysing]), cap)
  {
    assert RunOk(s, r);
    AppendedEvent(s.log[r], RUN_STARTED);
    var moved := Moved(s, r, RUNNING, RUN_STARTED);
    TouchKeepsRunsOk(s, moved.(workers := moved.workers[r := Analysing]), r);
    MoveKeepsCap(s.runs, r, RUNNING, cap);
  }

  lemma TornStartKeepsSound(s: State, r: RunId, cap: nat)
    requires Sound(s, cap) && r in s.runs && s.runs[r].status == QUEUED
    requires |RunningOn(s.runs, s.runs[r].site) - {r}| < cap
    ensures Sound(s.(runs := s.runs[r := s.runs[r].(status := RUNNING)]), cap)
  {
    assert RunOk(s, r);
    TouchKeepsRunsOk(s, s.(runs := s.runs[r := s.runs[r].(status := RUNNING)]), r);
    MoveKeepsCap(s.runs, r, RUNNING, cap);
  }

  /** `markRunFailed`, whether the run was QUEUED, RUNNING or already COMPLETED. */
  lemma FailKeepsSound(s: State, r: RunId, cap: nat)
    requires Sound(s, cap) && r in s.runs && s.runs[r].status != FAILED
    requires s.runs[r].status == QUEUED || r in s.workers
    ensures r in s.log
    ensures var moved := Moved(s, r, FAILED, RUN_FAILED); Sound(moved.(workers := s.workers - {r}), cap)
  {
    assert RunOk(s, r);
    AppendedEvent(s.log[r], RUN_FAILED);
    var t := Moved(s, r, FAILED, RUN_FAILED).(workers := s.workers - {r});
    assert t.log[r] == s.log[r] + [RUN_FAILED];
    assert RunOk(t, r);
    TouchKeepsRunsOk(s, t, r);
    MoveKeepsCap(s.runs, r, FAILED, cap);
  }

  lemma PersistKeepsSound(s: State, r: RunId, cap: nat)
    requires Sound(s, cap) && r in s.runs && s.runs[r].status == RUNNING && r in s.workers
    ensures r in s.log && Sound(Persisted(s, r), cap)
  {
    assert RunOk(s, r);
    AppendedEvent(s.log[r], RUN_COMPLETED);
    TouchKeepsRunsOk(s, Persisted(s, r), r);
    MoveKeepsCap(s.runs, r, COMPLETED, cap);
  }

  lemma BeginKeepsSound(s: State, r: RunId, cap: nat, logged: bool)
    requires Sound(s, cap) && (r in s.runs ==> RunOk(s, r))
    ensures Sound(Begun(s, r, cap, logged), cap)
  {
    if r in s.runs && s.runs[r].status == QUEUED {
      if |RunningOn(s.runs, s.runs[r].site) - {r}| >= cap {
        SameRunsKeepSound(s, Begun(s, r, cap, logged), cap);
      } else if s.runs[r].site !in s.sites {
        FailKeepsSound(s, r, cap);
        assert s.workers - {r} == s.workers;
      } else if logged {
        StartKeepsSound(s, r, cap);
      } else {
        TornStartKeepsSound(s, r, cap);
      }
    }
  }

  lemma StepKeepsSound(s: State, e: Event, cap: nat)
    requires Sound(s, cap) && Enabled(s, e)
    ensures Sound(Step(s, e, cap), cap)
  {
    match e
    case Create(r, site, now, creation) =>
      CreateKeepsSound(s, r, site, now, !creation.RowOnly?, cap);
      SameRunsKeepSound(Created(s, r, site, now, !creation.RowOnly?), Step(s, e, cap), cap);
    case Deliver(j, logged) =>
      var taken := s.(jobs := s.jobs[j := Active]);
      SameRunsKeepSound(s, taken, cap);
      BeginKeepsSound(taken, j.run, cap, logged);
    case Persist(r) => assert RunOk(s, r); PersistKeepsSound(s, r, cap);
    case Fail(r) => assert RunOk(s, r); FailKeepsSound(s, r, cap);
    case _ => SameRunsKeepSound(s, Step(s, e, cap), cap);
  }

  ghost predicate Legal(s: State, run: seq<Event>, cap: nat)
    decreases |run|
  {
    Sound(s, cap) && (run != [] ==> Enabled(s, run[0]) && Legal(Step(s, run[0], cap), run[1..], cap))
  }

  ghost function After(s: State, run: seq<Event>, cap: nat): State
    requires Legal(s, run, cap)
    decreases |run|
  {
    if run == [] then s else After(Step(s, run[0], cap), run[1..], cap)
  }

  /** Every step that can be taken from a sound state keeps a run of the system legal: soundness never
      has to be assumed after the start. */
  lemma {:induction false} LegalExtends(s: State, run: seq<Event>, e: Event, cap: nat)
    requires Legal(s, run, cap) && Enabled(After(s, run, cap), e)
    ensures Legal(s, run + [e], cap)
    decreases |run|
  {
    if run == [] {
      StepKeepsSound(s, e, cap);
      assert ([] + [e])[1..] == [];
    } else {
      LegalExtends(Step(s, run[0], cap), run[1..], e, cap);
      assert (run + [e])[1..] == run[1..] + [e];
    }
  }

  // ---------------------------------------------------------------- the lifecycle

  function Rank(status: Status): nat {
    match status case QUEUED => 0 case RUNNING => 1 case COMPLETED => 2 case FAILED => 3
  }

  /** From one state of a run to a later one: the status does not fall and the log is only appended to. */
  predicate Advances(s: State, t: State, r: RunId) {
    && r in s.runs && r in t.runs && r in s.log && r in t.log
    && t.runs[r].site == s.runs[r].site && Rank(s.runs[r].status) <= Rank(t.runs[r].status)
    && s.log[r] <= t.log[r]
  }

  lemma MovedAdvances(s: State, q: RunId, status: Status, entry: LogEntry, r: RunId)
    requires q in s.runs && q in s.log && Rank(s.runs[q].status) <= Rank(status)
    requires r in s.runs && r in s.log
    ensures Advances(s, Moved(s, q, status, entry), r)
  {
  }

  lemma BegunAdvances(s: State, q: RunId, cap: nat, logged: bool, r: RunId)
    requires q in s.runs ==> q in s.log
    requires r in s.runs && r in s.log
    ensures Advances(s, Begun(s, q, cap, logged), r)
  {
    if q in s.runs {
      MovedAdvances(s, q, FAILED, RUN_FAILED, r);
      if s.runs[q].status == QUEUED {
        MovedAdvances(s, q, RUNNING, RUN_STARTED, r);
      }
    }
  }

  lemma DeliveryAdvances(s: State, j: JobId, logged: bool, cap: nat, r: RunId)
    requires Sound(s, cap) && Enabled(s, Deliver(j, logged)) && r in s.runs
    ensures Advances(s, Step(s, Deliver(j, logged), cap), r)
  {
    assert RunOk(s, r) && (j.run in s.runs ==> RunOk(s, j.run));
    BegunAdvances(s.(jobs := s.jobs[j := Active]), j.run, cap, logged, r);
  }

  lemma WorkerAdvances(s: State, e: Event, q: RunId, cap: nat, r: RunId)
    requires Sound(s, cap) && Enabled(s, e) && (e == Persist(q) || e == Fail(q)) && r in s.runs
    ensures Advances(s, Step(s, e, cap), r)
  {
    assert RunOk(s, r) && RunOk(s, q);
    if e.Persist? {
      MovedAdvances(s, q, COMPLETED, RUN_COMPLETED, r);
    } else {
      MovedAdvances(s, q, FAILED, RUN_FAILED, r);
    }
  }

  lemma StepOnlyAdvances(s: State, e: Event, cap: nat, r: RunId)
    requires Sound(s, cap) && Enabled(s, e) && r in s.runs
    ensures Advances(s, Step(s, e, cap), r)
  {
    assert RunOk(s, r);
    match e
    case Deliver(j, logged) => DeliveryAdvances(s, j, logged, cap, r);
    case Persist(q) => WorkerAdvances(s, e, q, cap, r);
    case Fail(q) => WorkerAdvances(s, e, q, cap, r);
    case _ =>
  }

  /** Along every run, whatever jobs are duplicated, redelivered, dropped or crashed: a run's status only
      rises in QUEUED < RUNNING < COMPLETED < FAILED and its log is only appended to. */
  lemma {:induction false} StatusOnlyRises(s: State, run: seq<Event>, cap: nat, r: RunId)
    requires Legal(s, run, cap) && r in s.runs
    ensures Advances(s, After(s, run, cap), r)
    decreases |run|
  {
    assert RunOk(s, r);
    if run != [] {
      StepOnlyAdvances(s, run[0], cap, r);
      StatusOnlyRises(Step(s, run[0], cap), run[1..], cap, r);
    }
  }

  lemma {:induction false} AfterIsSound(s: State, run: seq<Event>, cap: nat)
    requires Legal(s, run, cap)
    ensures Sound(After(s, run, cap), cap)
    decreases |run|
  {
    if run != [] {
      AfterIsSound(Step(s, run[0], cap), run[1..], cap);
    }
  }

  /** The worker of a RUNNING run has died. */
  predicate Abandoned(s: State, r: RunId) {
    r in s.runs && s.runs[r].status == RUNNING && r !in s.workers
  }

  /** Along every run from an empty database: a run starts at most once however often its jobs are
      delivered; RUN_FAILED is logged exactly for FAILED runs; issues are stored exactly with
      RUN_COMPLETED; RUN_STARTED is missing only where nobody works any more; and no site has more
      RUNNING runs than the cap. */
  lemma LogAgreesWithStatus(sites: set<SiteId>, run: seq<Event>, cap: nat, r: RunId, site: SiteId)
    requires Legal(State(sites, map[], map[], {}, map[], map[]), run, cap)
    ensures var s := After(State(sites, map[], map[], {}, map[], map[]), run, cap);
            && |RunningOn(s.runs, site)| <= cap
            && (r in s.runs ==>
                  && r in s.log && multiset(s.log[r])[RUN_STARTED] <= 1
                  && (RUN_FAILED in s.log[r] <==> s.runs[r].status == FAILED)
                  && (r in s.withIssues <==> RUN_COMPLETED in s.log[r])
                  && (s.runs[r].status == COMPLETED ==> r in s.withIssues && RUN_STARTED in s.log[r])
                  && (s.runs[r].status == RUNNING && RUN_STARTED !in s.log[r] ==> Abandoned(s, r)))
  {
    var s := After(State(sites, map[], map[], {}, map[], map[]), run, cap);
    AfterIsSound(State(sites, map[], map[], {}, map[], map[]), run, cap);
    if r in s.runs {
      assert RunOk(s, r);
      assert s.log[r] == AfterQueued(s.log[r]) || s.log[r] == [RUN_QUEUED] + AfterQueued(s.log[r]);
    }
  }

  // ---------------------------------------------------------------- no lost work

  /** A worker can still be handed this run. */
  predicate Awaited(jobs: map<JobId, JobState>, r: RunId) {
    exists j | j in jobs :: j.run == r && jobs[j] == Deliverable
  }

  /** What the sweep's query may return: `limit` stale runs, or all of them, in any order. */
  predicate Selects(candidates: seq<RunId>, stale: set<RunId>, limit: nat) {
    && (forall i | 0 <= i < |candidates| :: candidates[i] in stale)
    && (forall i, j | 0 <= i < j < |candidates| :: candidates[i] != candidates[j])
    && |candidates| == if |stale| <= limit then |stale| else limit
  }

  predicate NewIds(jobs: map<JobId, JobState>, candidates: seq<RunId>, uuids: seq<nat>)
    requires |uuids| == |candidates|
  {
    && (forall i | 0 <= i < |candidates| :: Suffixed(candidates[i], uuids[i]) !in jobs)
    && (forall i, j | 0 <= i < j < |candidates| :: uuids[i] != uuids[j])
  }

  lemma {:induction false} SweepEnqueues(jobs: map<JobId, JobState>, candidates: seq<RunId>, uuids: seq<nat>,
                                         lost: set<nat>, i: nat)
    requires |uuids| == |candidates| && NewIds(jobs, candidates, uuids)
    ensures var swept := SweptJobs(jobs, candidates, uuids, lost);
            && (i < |candidates| && i !in lost ==>
                  Suffixed(candidates[i], uuids[i]) in swept && swept[Suffixed(candidates[i], uuids[i])] == Deliverable)
            && (forall j | j in swept :: j in jobs || exists k | 0 <= k < |candidates| ::
              j == Suffixed(candidates[k], uuids[k]))
            && (forall j | j in jobs :: j in swept && swept[j] == jobs[j])
    decreases |candidates|
  {
    if candidates != [] {
      var n := |candidates| - 1;
      SweepEnqueues(jobs, candidates[..n], uuids[..n], lost, i);
    }
  }

  lemma {:induction false} SeqCoversSet(xs: seq<RunId>, all: set<RunId>)
    requires forall i | 0 <= i < |xs| :: xs[i] in all
    requires forall i, j | 0 <= i < j < |xs| :: xs[i] != xs[j]
    requires |xs| == |all|
    ensures forall x | x in all :: x in xs
  {
    if xs == [] {
    } else {
      var last, init := xs[|xs| - 1], xs[..|xs| - 1];
      SeqCoversSet(init, all - {last});
      assert forall x | x in init :: x in xs;
    }
  }

  /** The sweep rescues everything: when at most `limit` runs are stale and no enqueue throws, afterwards
      every stale QUEUED run has a deliverable job, whatever earlier requeues were dropped. */
  lemma SweepLosesNothing(s: State, candidates: seq<RunId>, uuids: seq<nat>, staleBefore: int, limit: nat, r: RunId)
    requires |uuids| == |candidates| && NewIds(s.jobs, candidates, uuids)
    requires var stale := set q | q in s.runs && s.runs[q].status == QUEUED && s.runs[q].createdAt < staleBefore;
             |stale| <= limit && Selects(candidates, stale, limit)
    requires r in s.runs && s.runs[r].status == QUEUED && s.runs[r].createdAt < staleBefore
    ensures Awaited(SweptJobs(s.jobs, candidates, uuids, {}), r)
  {
    var stale := set q | q in s.runs && s.runs[q].status == QUEUED && s.runs[q].createdAt < staleBefore;
    assert r in stale;
    SeqCoversSet(candidates, stale);
    var i :| 0 <= i < |candidates| && candidates[i] == r;
    SweepEnqueues(s.jobs, candidates, uuids, {}, i);
  }

  /** A throttled run is requeued under its default job id, so the requeue takes effect exactly when no
      job with that id exists, not even the one being processed. */
  lemma ThrottledRequeueIffNoDefaultJob(s: State, j: JobId, cap: nat)
    requires Sound(s, cap) && Enabled(s, Deliver(j, true)) && j.run in s.runs && s.runs[j.run].status == QUEUED
    requires |RunningOn(s.runs, s.runs[j.run].site) - {j.run}| >= cap
    requires forall k | k in s.jobs && k != j :: k.run != j.run || s.jobs[k] != Deliverable
    ensures Awaited(Step(s, Deliver(j, true), cap).jobs, j.run) <==> Default(j.run) !in s.jobs
    ensures Step(s, Deliver(j, true), cap).runs == s.runs
  {
    var t := Step(s, Deliver(j, true), cap);
    if Default(j.run) !in s.jobs {
      assert t.jobs[Default(j.run)] == Deliverable;
    }
  }

  /** So a run that is throttled on the delivery of its original job is left QUEUED with nothing to deliver it
      once that job finishes; only the sweep brings it back. */
  lemma FirstThrottleLosesTheJob(s: State, r: RunId, cap: nat)
    requires Sound(s, cap) && r in s.runs && s.runs[r].status == QUEUED
    requires Default(r) in s.jobs && s.jobs[Default(r)] == Deliverable
    requires forall k | k in s.jobs && k != Default(r) :: k.run != r || s.jobs[k] != Deliverable
    requires |RunningOn(s.runs, s.runs[r].site) - {r}| >= cap
    ensures var t := Step(s, Deliver(Default(r), true), cap);
            && Sound(t, cap) && Enabled(t, FinishJob(Default(r)))
            && var u := Step(t, FinishJob(Default(r)), cap);
               r in u.runs && u.runs[r].status == QUEUED && !Awaited(u.jobs, r)
  {
    ThrottledRequeueIffNoDefaultJob(s, Default(r), cap);
    StepKeepsSound(s, Deliver(Default(r), true), cap);
  }

  // ---------------------------------------------------------------- abandoned runs

  lemma BegunOthers(s: State, q: RunId, cap: nat, logged: bool, x: RunId)
    requires (q in s.runs ==> q in s.log) && x in s.runs && x !in s.workers
    requires q == x ==> s.runs[x].status != QUEUED
    ensures var t := Begun(s, q, cap, logged); x in t.runs && t.runs[x] == s.runs[x] && x !in t.workers
  {
  }

  /** A run without a worker only changes when it is QUEUED and one of its jobs is delivered. */
  lemma IdleRunUntouched(s: State, e: Event, cap: nat, x: RunId)
    requires Sound(s, cap) && Enabled(s, e) && x in s.runs && x !in s.workers
    requires e.Deliver? && e.job.run == x ==> s.runs[x].status != QUEUED
    ensures var t := Step(s, e, cap); x in t.runs && t.runs[x] == s.runs[x] && x !in t.workers
  {
    match e
    case Deliver(j, logged) =>
      assert j.run in s.runs ==> RunOk(s, j.run);
      BegunOthers(s.(jobs := s.jobs[j := Active]), j.run, cap, logged, x);
    case _ =>
  }

  /** Nothing ever picks an abandoned run up again: redelivered jobs stop at the status guard and the sweep
      only looks at QUEUED runs. */
  lemma {:induction false} AbandonedForGood(s: State, run: seq<Event>, cap: nat, r: RunId)
    requires Legal(s, run, cap) && Abandoned(s, r)
    ensures Abandoned(After(s, run, cap), r)
    decreases |run|
  {
    if run != [] {
      IdleRunUntouched(s, run[0], cap, r);
      AbandonedForGood(Step(s, run[0], cap), run[1..], cap, r);
    }
  }

  lemma Prepend(s: State, e: Event, run: seq<Event>, cap: nat)
    requires Sound(s, cap) && Enabled(s, e) && Legal(Step(s, e, cap), run, cap)
    ensures Legal(s, [e] + run, cap) && After(s, [e] + run, cap) == After(Step(s, e, cap), run, cap)
  {
    assert ([e] + run)[1..] == run;
  }

  ghost predicate CanEnd(s: State, r: RunId, cap: nat) {
    exists run | Legal(s, run, cap) :: r in After(s, run, cap).runs && After(s, run, cap).runs[r].status != RUNNING
  }

  /** Exactly when a RUNNING run can still end: as long as a worker works on it. */
  lemma CanEndIffWorkedOn(s: State, r: RunId, cap: nat)
    requires Sound(s, cap) && r in s.runs && s.runs[r].status == RUNNING
    ensures CanEnd(s, r, cap) <==> r in s.workers
  {
    if r in s.workers {
      assert RunOk(s, r);
      StepKeepsSound(s, Fail(r), cap);
      Prepend(s, Fail(r), [], cap);
    } else {
      forall run | Legal(s, run, cap)
        ensures Abandoned(After(s, run, cap), r)
      {
        AbandonedForGood(s, run, cap, r);
      }
    }
  }

  /** The runs of the site that occupy a slot without anybody working on them. */
  function AbandonedOn(s: State, site: SiteId): set<RunId> {
    set r | r in s.runs && s.runs[r].site == site && Abandoned(s, r)
  }

  lemma ThrottledStep(s: State, j: JobId, logged: bool, dead: set<RunId>, cap: nat)
    requires Sound(s, cap) && Enabled(s, Deliver(j, logged)) && j.run in s.runs && s.runs[j.run].status == QUEUED
    requires dead <= AbandonedOn(s, s.runs[j.run].site) && |dead| >= cap
    ensures Step(s, Deliver(j, logged), cap).runs == s.runs
  {
    assert RunOk(s, j.run);
    SubsetSize(dead, RunningOn(s.runs, s.runs[j.run].site) - {j.run});
  }

  /** Abandoned runs occupy their slots for ever: when they fill the cap, no queued run of the site ever
      starts. */
  lemma {:induction false} AbandonedRunsBlockSite(s: State, run: seq<Event>, dead: set<RunId>, q: RunId, cap: nat)
    requires Legal(s, run, cap) && q in s.runs && s.runs[q].status == QUEUED
    requires dead <= AbandonedOn(s, s.runs[q].site) && |dead| >= cap
    ensures var t := After(s, run, cap); q in t.runs && t.runs[q].status == QUEUED
    decreases |run|
  {
    if run != [] {
      var t := Step(s, run[0], cap);
      assert RunOk(s, q);
      forall r | r in dead
        ensures r in t.runs && t.runs[r] == s.runs[r] && r !in t.workers
      {
        IdleRunUntouched(s, run[0], cap, r);
      }
      if run[0].Deliver? && run[0].job.run == q {
        ThrottledStep(s, run[0].job, run[0].logged, dead, cap);
      } else {
        IdleRunUntouched(s, run[0], cap, q);
      }
      AbandonedRunsBlockSite(t, run[1..], dead, q, cap);
    }
  }

  predicate CanBegin(s: State, q: RunId) {
    q in s.runs && s.runs[q].status == QUEUED && s.runs[q].site in s.sites
  }

  /** A sweep makes a new job for the run, and its delivery starts it if there is room. */
  lemma SweptRunStarts(s: State, q: RunId, cap: nat) returns (run: seq<Event>)
    requires Sound(s, cap) && CanBegin(s, q) && |RunningOn(s.runs, s.runs[q].site)| < cap
    ensures Legal(s, run, cap) && q in After(s, run, cap).runs && After(s, run, cap).runs[q].status == RUNNING
  {
    var uuid := FreshUuid(s.jobs, q);
    var id := Suffixed(q, uuid);
    var s1 := Step(s, Sweep([q], [uuid], {}), cap);
    SweepEnqueues(s.jobs, [q], [uuid], {}, 0);
    StepKeepsSound(s, Sweep([q], [uuid], {}), cap);
    StepKeepsSound(s1, Deliver(id, true), cap);
    assert RunOk(s, q);
    SubsetSize(RunningOn(s.runs, s.runs[q].site) - {q}, RunningOn(s.runs, s.runs[q].site));
    Prepend(s1, Deliver(id, true), [], cap);
    run := [Deliver(id, true)] + [];
    Prepend(s, Sweep([q], [uuid], {}), run, cap);
    run := [Sweep([q], [uuid], {})] + run;
  }

  lemma FreshUuid(jobs: map<JobId, JobState>, q: RunId) returns (uuid: nat)
    ensures Suffixed(q, uuid) !in jobs
  {
    var n := |jobs| + 1;
    var ids := set i: nat | i < n :: Suffixed(q, i);
    SuffixedCount(q, n);
    if ids <= jobs.Keys {
      SubsetSize(ids, jobs.Keys);
      assert false;
    }
    var id :| id in ids && id !in jobs.Keys;
    uuid := id.uuid;
  }

  lemma {:induction false} SuffixedCount(q: RunId, n: nat)
    ensures |set i: nat | i < n :: Suffixed(q, i)| == n
  {
    if n == 0 {
      assert (set i: nat | i < 0 :: Suffixed(q, i)) == {};
    } else {
      SuffixedCount(q, n - 1);
      assert (set i: nat | i < n :: Suffixed(q, i)) == (set i: nat | i < n - 1 :: Suffixed(q, i))
        + {Suffixed(q, n - 1)};
    }
  }

  lemma FailKeepsAbandoned(s: State, r: RunId, site: SiteId)
    requires r in s.runs && r in s.log && r in s.workers
    ensures var moved := Moved(s, r, FAILED, RUN_FAILED);
            AbandonedOn(moved.(workers := s.workers - {r}), site) == AbandonedOn(s, site)
  {
  }

  lemma FailFreesSlot(s: State, q: RunId, r: RunId, cap: nat)
    requires Sound(s, cap) && CanBegin(s, q) && r in RunningOn(s.runs, s.runs[q].site) && r in s.workers
    ensures var t := Step(s, Fail(r), cap);
            && CanBegin(t, q) && t.runs[q].site == s.runs[q].site
            && RunningOn(t.runs, s.runs[q].site) == RunningOn(s.runs, s.runs[q].site) - {r}
            && AbandonedOn(t, s.runs[q].site) == AbandonedOn(s, s.runs[q].site)
  {
    assert RunOk(s, r);
    MovedRunning(s.runs, r, FAILED, s.runs[q].site);
    FailKeepsAbandoned(s, r, s.runs[q].site);
  }

  /** When all live runs of the site have failed, only abandoned ones are left running. */
  lemma {:induction false} LiveRunsFail(s: State, q: RunId, cap: nat) returns (run: seq<Event>)
    requires Sound(s, cap) && CanBegin(s, q)
    ensures Legal(s, run, cap)
    ensures var t := After(s, run, cap);
            Sound(t, cap) && CanBegin(t, q) && RunningOn(t.runs, t.runs[q].site) == AbandonedOn(s, s.runs[q].site)
    decreases |RunningOn(s.runs, s.runs[q].site)|
  {
    var site := s.runs[q].site;
    if r :| r in RunningOn(s.runs, site) && r in s.workers {
      FailFreesSlot(s, q, r, cap);
      StepKeepsSound(s, Fail(r), cap);
      run := LiveRunsFail(Step(s, Fail(r), cap), q, cap);
      Prepend(s, Fail(r), run, cap);
      run := [Fail(r)] + run;
    } else {
      run := [];
      assert RunningOn(s.runs, site) == AbandonedOn(s, site);
    }
  }

  lemma {:induction false} Join(s: State, first: seq<Event>, rest: seq<Event>, cap: nat)
    requires Legal(s, first, cap) && Legal(After(s, first, cap), rest, cap)
    ensures Legal(s, first + rest, cap) && After(s, first + rest, cap) == After(After(s, first, cap), rest, cap)
    decreases |first|
  {
    if first == [] {
      assert first + rest == rest;
    } else {
      Join(Step(s, first[0], cap), first[1..], rest, cap);
      Prepend(s, first[0], first[1..] + rest, cap);
      assert [first[0]] + (first[1..] + rest) == first + rest;
    }
  }

  ghost predicate CanStart(s: State, q: RunId, cap: nat) {
    exists run | Legal(s, run, cap) :: q in After(s, run, cap).runs && After(s, run, cap).runs[q].status == RUNNING
  }

  /** Exactly when a queued run of an existing site can still start: fewer of the site's runs are abandoned
      than may run at once. */
  lemma CanStartIffRoom(s: State, q: RunId, cap: nat)
    requires Sound(s, cap) && CanBegin(s, q)
    ensures CanStart(s, q, cap) <==> |AbandonedOn(s, s.runs[q].site)| < cap
  {
    var site := s.runs[q].site;
    if |AbandonedOn(s, site)| < cap {
      var first := LiveRunsFail(s, q, cap);
      var rest := SweptRunStarts(After(s, first, cap), q, cap);
      Join(s, first, rest, cap);
    } else {
      forall run | Legal(s, run, cap)
        ensures q in After(s, run, cap).runs && After(s, run, cap).runs[q].status == QUEUED
      {
        AbandonedRunsBlockSite(s, run, AbandonedOn(s, site), q, cap);
      }
    }
  }

  // ---------------------------------------------------------------- what each step does to its run

  /** Run `r` has this status and log, and a worker in this phase if any. */
  predicate Is(s: State, r: RunId, status: Status, entries: seq<LogEntry>, phase: Option<Phase>) {
    && r in s.runs && s.runs[r].status == status && r in s.log && s.log[r] == entries
    && (if phase.Some? then r in s.workers && s.workers[r] == phase.value else r !in s.workers)
  }

  /** Nothing but run `r` changes, nor do its site, its date of creation and which sites there are. */
  ghost predicate OthersStay(s: State, t: State, r: RunId) {
    && t.sites == s.sites && t.runs.Keys == s.runs.Keys
    && (r in s.runs ==> t.runs[r].site == s.runs[r].site && t.runs[r].createdAt == s.runs[r].createdAt)
    && (forall q | q in s.runs && q != r :: t.runs[q] == s.runs[q])
    && (forall q | q != r :: (q in t.log <==> q in s.log) && (q in s.log ==> t.log[q] == s.log[q]))
    && (forall q | q != r ::
          (q in t.workers <==> q in s.workers) && (q in s.workers ==> t.workers[q] == s.workers[q]))
    && (forall q | q != r :: q in t.withIssues <==> q in s.withIssues)
  }

  lemma QueuedHasNoWorker(s: State, r: RunId, cap: nat)
    requires Sound(s, cap) && r in s.runs && s.runs[r].status == QUEUED
    ensures r in s.log && r !in s.workers && r !in s.withIssues
  {
    assert RunOk(s, r);
  }

  /** A delivery of a QUEUED run.  While its site has `cap` other runs RUNNING it stays queued, and its default job is
      added unless that id is taken.  With room it fails at once if its site is gone, and is RUNNING
      otherwise, with a worker unless the RUN_STARTED event could not be written. */
  lemma DeliveryOutcome(s: State, j: JobId, logged: bool, cap: nat)
    requires Sound(s, cap) && Enabled(s, Deliver(j, logged))
    requires j.run in s.runs && s.runs[j.run].status == QUEUED
    ensures var (r, t) := (j.run, Step(s, Deliver(j, logged), cap));
            var running := set q | q in s.runs && q != r && s.runs[q].site == s.runs[r].site
                                   && s.runs[q].status == RUNNING;
            && r in s.log && OthersStay(s, t, r) && t.withIssues == s.withIssues
            && (|running| >= cap ==>
                  && Is(t, r, QUEUED, s.log[r], None)
                  && t.jobs == if Default(r) in s.jobs then s.jobs[j := Active]
                               else s.jobs[j := Active][Default(r) := Deliverable])
            && (|running| < cap ==> t.jobs == s.jobs[j := Active])
            && (|running| < cap && s.runs[r].site !in s.sites ==> Is(t, r, FAILED, s.log[r] + [RUN_FAILED], None))
            && (|running| < cap && s.runs[r].site in s.sites && logged ==>
                  Is(t, r, RUNNING, s.log[r] + [RUN_STARTED], Some(Analysing)))
            && (|running| < cap && s.runs[r].site in s.sites && !logged ==> Is(t, r, RUNNING, s.log[r], None))
  {
    var r := j.run;
    QueuedHasNoWorker(s, r, cap);
    var running := set q | q in s.runs && q != r && s.runs[q].site == s.runs[r].site && s.runs[q].status == RUNNING;
    assert running == RunningOn(s.runs, s.runs[r].site) - {r};
  }

  /** A delivery of a run that is gone or no longer QUEUED only takes the job. */
  lemma RedeliveryDoesNothing(s: State, j: JobId, logged: bool, cap: nat)
    requires Sound(s, cap) && Enabled(s, Deliver(j, logged))
    requires j.run !in s.runs || s.runs[j.run].status != QUEUED
    ensures Step(s, Deliver(j, logged), cap) == s.(jobs := s.jobs[j := Active])
  {
  }

  /** A created run is QUEUED for its site with the present time, and no other run changes; with its job it can be
      delivered unless an old job keeps the id. */
  lemma CreationOutcome(s: State, e: Event, cap: nat)
    requires Sound(s, cap) && Enabled(s, e) && e.Create?
    ensures var t := Step(s, e, cap);
            && Is(t, e.run, QUEUED, if e.creation.RowOnly? then [] else [RUN_QUEUED], None)
            && t.runs == s.runs[e.run := t.runs[e.run]]
            && t.runs[e.run].site == e.site && t.runs[e.run].createdAt == e.now
            && (forall r | r in s.log && r != e.run :: r in t.log && t.log[r] == s.log[r])
            && t.sites == s.sites && t.workers == s.workers && t.withIssues == s.withIssues
            && (e.creation.WithJob? && Default(e.run) !in s.jobs ==> Awaited(t.jobs, e.run))
            && (!e.creation.WithJob? ==> t.jobs == s.jobs)
            && (forall j | j in s.jobs :: j in t.jobs && t.jobs[j] == s.jobs[j])
  {
    var t := Step(s, e, cap);
    if e.creation.WithJob? && Default(e.run) !in s.jobs {
      assert Default(e.run) in t.jobs && t.jobs[Default(e.run)] == Deliverable && Default(e.run).run == e.run;
    }
  }

  /** How a worker's execution ends: persisted, it has stored its issues and goes on; failed, it is gone and so is the
      run's success; finished or crashed, it is gone and the run stays as it was. */
  lemma ExecutionOutcome(s: State, e: Event, cap: nat)
    requires Sound(s, cap) && Enabled(s, e) && (e.Persist? || e.Fail? || e.Finish? || e.Crash?)
    ensures e.run in s.log && e.run in s.runs
    ensures var t := Step(s, e, cap);
            && OthersStay(s, t, e.run) && t.jobs == s.jobs
            && (e.Persist? ==>
                  Is(t, e.run, COMPLETED, s.log[e.run] + [RUN_COMPLETED], Some(PostProcessing))
                  && e.run in t.withIssues)
            && (e.Fail? ==> Is(t, e.run, FAILED, s.log[e.run] + [RUN_FAILED], None))
            && (e.Finish? || e.Crash? ==> Is(t, e.run, s.runs[e.run].status, s.log[e.run], None))
            && (!e.Persist? ==> t.withIssues == s.withIssues)
  {
    assert e.run in s.runs;
    assert RunOk(s, e.run);
  }
}
