/** The web client's request machine: refreshes shared by all calls, GETs in flight shared by path, one
    replay after a 401, and retries of GETs with growing sleeps.  The client runs on one thread; what
    interleaves are its continuations, so every `await` is a point where any other call may move. */
module ApiClient {
  import opened Common

  /** `maxRetries` is whatever number the caller passes. */
  datatype Config = Config(hasRefresher: bool, hasTokenGetter: bool, maxRetries: int)

  /** `get`; `post`, `put`, `patch` and `delete`; `getBlob`. */
  datatype Kind = Get | Mutation | Blob

  /** What a fetch settles with; a timeout aborts the fetch and is a network error too. */
  datatype Answer = Response(status: nat) | NetworkError

  datatype Verdict = Granted | Refused | Threw

  datatype Result = Success | BadBody | HttpError(status: nat) | NetworkFailure | RefreshFailure

  /** Where a call is suspended.  Refreshes are numbered in the order in which they start. */
  datatype Stage =
    | AwaitBefore(refresh: nat)
    | AwaitReplay(refresh: nat)
    | Fetching(attempt: nat)
    | Sleeping(attempt: nat)
    | Reading(status: nat)
    | Settled(result: Result)

  /** One run of `request`: its answers so far, and how often and how long (in ms) it has slept. */
  datatype Round = Round(answers: seq<Answer>, naps: nat, slept: nat)

  const FreshRound := Round([], 0, 0)

  /** `first`, `second`, `renewal` (the refresh awaited after a 401) and `notices` (calls of
      `onUnauthorized`) are book-keeping of the model; no step reads them. */
  datatype Call = Call(path: string, kind: Kind, stage: Stage, replayed: bool,
                       first: Round, second: Round, renewal: Option<nat>, notices: nat)

  /** `refreshes[k]` is the promise of the k-th `refreshSession()`, empty while it is outstanding. */
  datatype State = State(calls: seq<Call>, inflight: map<string, nat>, refreshing: Option<nat>,
                         refreshes: seq<Option<Verdict>>)

  const Start := State([], map[], None, [])

  type Jitter = j: nat | j < 150

  datatype Event =
    | Request(kind: Kind, path: string, hasToken: bool)
    | RefreshEnds(refresh: nat, verdict: Verdict)
    | Resume(id: nat)
    | Answered(id: nat, answer: Answer, jitter: Jitter)
    | Wakes(id: nat)
    | BodyRead(id: nat, good: bool)

  // ---------------------------------------------------------------- the code

  predicate IsRefreshPath(path: string) {
    "/auth/refresh" <= path
  }

  predicate IsAuthBootstrapPath(path: string) {
    || "/auth/login" <= path || "/auth/register" <= path || IsRefreshPath(path)
    || "/auth/session" <= path || "/auth/password/" <= path
  }

  predicate ShouldRefreshBefore(cfg: Config, path: string, hasToken: bool) {
    cfg.hasRefresher && cfg.hasTokenGetter && !hasToken && !IsAuthBootstrapPath(path)
  }

  predicate IsOk(status: nat) {
    200 <= status < 300
  }

  predicate IsTransient(status: nat) {
    status == 408 || status == 500 || status == 502 || status == 503 || status == 504
  }

  function BackoffMs(attempt: nat, jitter: Jitter): nat {
    300 * Pow2(attempt) + jitter
  }

  function Current(c: Call): Round {
    if c.replayed then c.second else c.first
  }

  function WithRound(c: Call, r: Round): Call {
    if c.replayed then c.(second := r) else c.(first := r)
  }

  function Logged(c: Call, answer: Answer): Call {
    WithRound(c, Current(c).(answers := Current(c).answers + [answer]))
  }

  function GoesToSleep(c: Call, attempt: nat, jitter: Jitter): Call {
    var r := Current(c);
    WithRound(c, r.(naps := r.naps + 1, slept := r.slept + BackoffMs(attempt, jitter))).(stage := Sleeping(attempt))
  }

  predicate RetriesAnswer(cfg: Config, kind: Kind, answer: Answer, attempt: nat) {
    !kind.Mutation?
    && match answer
       case Response(status) => IsTransient(status) && attempt < cfg.maxRetries
       case NetworkError => attempt != cfg.maxRetries
  }

  /** The end of `requestJson`, from the test of `response.ok` on. */
  function Delivered(c: Call, status: nat): Call {
    if !IsOk(status) then c.(stage := Reading(status), notices := c.notices + if status == 401 then 1 else 0)
    else if status == 204 then c.(stage := Settled(Success))
    else c.(stage := Reading(status))
  }

  /** The end of `getBlob`, which does not read the body of an error. */
  function DeliveredBlob(c: Call, status: nat): Call {
    if IsOk(status) then c.(stage := Reading(status))
    else c.(stage := Settled(HttpError(status)), notices := c.notices + if status == 401 then 1 else 0)
  }

  /** Must this final answer go through a refresh first? */
  predicate AsksForRefresh(cfg: Config, c: Call, answer: Answer) {
    answer == Response(401) && !c.kind.Blob? && !c.replayed && !IsRefreshPath(c.path) && cfg.hasRefresher
  }

  /** The call after a final answer that needs no refresh. */
  function Final(c: Call, answer: Answer): Call {
    match answer
    case NetworkError => c.(stage := Settled(NetworkFailure))
    case Response(status) => if c.kind.Blob? then DeliveredBlob(c, status) else Delivered(c, status)
  }

  /** Stores a call; `finally` takes a settled GET out of `inflight`. */
  function Put(s: State, id: nat, c: Call): State
    requires id < |s.calls|
  {
    s.(calls := s.calls[id := c],
       inflight := if c.stage.Settled? && c.kind.Get? then s.inflight - {c.path} else s.inflight)
  }

  /** `tryRefresh()` with a refresher: the state and the refresh to wait for. */
  function TryRefresh(s: State): (State, nat) {
    if s.refreshing.Some? then (s, s.refreshing.value)
    else (s.(refreshing := Some(|s.refreshes|), refreshes := s.refreshes + [None]), |s.refreshes|)
  }

  function Requested(cfg: Config, s: State, kind: Kind, path: string, hasToken: bool): State {
    if kind.Get? && path in s.inflight then s
    else
      var before := ShouldRefreshBefore(cfg, path, hasToken);
      var (s1, refresh) := if before then TryRefresh(s) else (s, 0);
      var stage := if before then AwaitBefore(refresh) else Fetching(0);
      s1.(calls := s.calls + [Call(path, kind, stage, false, FreshRound, FreshRound, None, 0)],
          inflight := if kind.Get? then s.inflight[path := |s.calls|] else s.inflight)
  }

  function AfterAnswer(cfg: Config, s: State, id: nat, answer: Answer, jitter: Jitter): State
    requires id < |s.calls| && s.calls[id].stage.Fetching?
  {
    var attempt := s.calls[id].stage.attempt;
    var c := Logged(s.calls[id], answer);
    if RetriesAnswer(cfg, c.kind, answer, attempt) then Put(s, id, GoesToSleep(c, attempt, jitter))
    else if AsksForRefresh(cfg, c, answer) then
      var (s1, refresh) := TryRefresh(s);
      Put(s1, id, c.(stage := AwaitReplay(refresh), renewal := Some(refresh)))
    else Put(s, id, Final(c, answer))
  }

  /** The continuation of `await this.tryRefresh()`. */
  function Resumed(c: Call, verdict: Verdict): Call {
    if verdict.Threw? then c.(stage := Settled(RefreshFailure))
    else if c.stage.AwaitBefore? then c.(stage := Fetching(0))
    else if verdict.Granted? then c.(stage := Fetching(0), replayed := true)
    else Delivered(c, 401)
  }

  /** The body of an error is read for its message only; unreadable, it changes nothing. */
  function BodyEnds(c: Call, good: bool): Call
    requires c.stage.Reading?
  {
    if !IsOk(c.stage.status) then c.(stage := Settled(HttpError(c.stage.status)))
    else c.(stage := Settled(if good then Success else BadBody))
  }

  predicate Waiting(c: Call) {
    c.stage.AwaitBefore? || c.stage.AwaitReplay?
  }

  predicate Enabled(s: State, e: Event) {
    match e
    case Request(_, _, _) => true
    case RefreshEnds(refresh, _) => refresh < |s.refreshes| && s.refreshes[refresh].None?
    case Resume(id) =>
      id < |s.calls| && Waiting(s.calls[id]) && s.calls[id].stage.refresh < |s.refreshes|
      && s.refreshes[s.calls[id].stage.refresh].Some?
    case Answered(id, _, _) => id < |s.calls| && s.calls[id].stage.Fetching?
    case Wakes(id) => id < |s.calls| && s.calls[id].stage.Sleeping?
    case BodyRead(id, _) => id < |s.calls| && s.calls[id].stage.Reading?
  }

  /** A step of the client; an event whose promise is not pending does nothing. */
  function Step(cfg: Config, s: State, e: Event): State {
    if !Enabled(s, e) then s
    else
      match e
      case Request(kind, path, hasToken) => Requested(cfg, s, kind, path, hasToken)
      case RefreshEnds(refresh, verdict) => s.(refreshing := None, refreshes := s.refreshes[refresh := Some(verdict)])
      case Resume(id) => Put(s, id, Resumed(s.calls[id], s.refreshes[s.calls[id].stage.refresh].value))
      case Answered(id, answer, jitter) => AfterAnswer(cfg, s, id, answer, jitter)
      case Wakes(id) => Put(s, id, s.calls[id].(stage := Fetching(s.calls[id].stage.attempt + 1)))
      case BodyRead(id, good) => Put(s, id, BodyEnds(s.calls[id], good))
  }

  function After(cfg: Config, run: seq<Event>): State {
    if run == [] then Start else Step(cfg, After(cfg, run[..|run| - 1]), run[|run| - 1])
  }

  /** The client object.  Its methods are the pieces of code between two `await`s. */
  class Client {
    const cfg: Config
    var calls: seq<Call>
    var inflight: map<string, nat>
    var refreshing: Option<nat>
    var refreshes: seq<Option<Verdict>>

    function View(): State
      reads this
    {
      State(calls, inflight, refreshing, refreshes)
    }

    constructor (cfg: Config)
      ensures this.cfg == cfg && View() == Start
    {
      this.cfg := cfg;
      calls, inflight, refreshing, refreshes := [], map[], None, [];
    }

    method StartRefresh() returns (refresh: nat)
      modifies this
      ensures (View(), refresh) == TryRefresh(old(View()))
    {
      if refreshing.Some? {
        return refreshing.value;
      }
      refresh := |refreshes|;
      refreshes := refreshes + [None];
      refreshing := Some(refresh);
    }

    method OnRefreshEnded(refresh: nat, verdict: Verdict)
      requires Enabled(View(), RefreshEnds(refresh, verdict))
      modifies this
      ensures View() == Step(cfg, old(View()), RefreshEnds(refresh, verdict))
    {
      refreshes := refreshes[refresh := Some(verdict)];
      refreshing := None;
    }

    /** `get`, the mutations and `getBlob` up to their first `await`; `id` is the promise returned. */
    method Send(kind: Kind, path: string, hasToken: bool) returns (id: nat)
      modifies this
      ensures View() == Step(cfg, old(View()), Request(kind, path, hasToken))
      ensures id == if kind.Get? && path in old(inflight) then old(inflight)[path] else |old(calls)|
    {
      if kind.Get? && path in inflight {
        return inflight[path];
      }
      id := |calls|;
      var stage := Fetching(0);
      if ShouldRefreshBefore(cfg, path, hasToken) {
        var refresh := StartRefresh();
        stage := AwaitBefore(refresh);
      }
      calls := calls + [Call(path, kind, stage, false, FreshRound, FreshRound, None, 0)];
      if kind.Get? {
        inflight := inflight[path := id];
      }
    }

    method Store(id: nat, c: Call)
      requires id < |calls|
      modifies `calls, `inflight
      ensures View() == Put(old(View()), id, c)
    {
      calls := calls[id := c];
      if c.stage.Settled? && c.kind.Get? {
        inflight := inflight - {c.path};
      }
    }

    method OnAnswer(id: nat, answer: Answer, jitter: Jitter)
      requires Enabled(View(), Answered(id, answer, jitter))
      modifies this
      ensures View() == Step(cfg, old(View()), Answered(id, answer, jitter))
    {
      var attempt := calls[id].stage.attempt;
      var c := Logged(calls[id], answer);
      if RetriesAnswer(cfg, c.kind, answer, attempt) {
        Store(id, GoesToSleep(c, attempt, jitter));
      } else if AsksForRefresh(cfg, c, answer) {
        var refresh := StartRefresh();
        Store(id, c.(stage := AwaitReplay(refresh), renewal := Some(refresh)));
      } else {
        Store(id, Final(c, answer));
      }
    }

    method OnRefreshAwaited(id: nat)
      requires Enabled(View(), Resume(id))
      modifies this
      ensures View() == Step(cfg, old(View()), Resume(id))
    {
      Store(id, Resumed(calls[id], refreshes[calls[id].stage.refresh].value));
    }

    method OnWake(id: nat)
      requires Enabled(View(), Wakes(id))
      modifies this
      ensures View() == Step(cfg, old(View()), Wakes(id))
    {
      Store(id, calls[id].(stage := Fetching(calls[id].stage.attempt + 1)));
    }

    method OnBodyRead(id: nat, good: bool)
      requires Enabled(View(), BodyRead(id, good))
      modifies this
      ensures View() == Step(cfg, old(View()), BodyRead(id, good))
    {
      Store(id, BodyEnds(calls[id], good));
    }
  }

  // ---------------------------------------------------------------- what every run keeps

  predicate Retryable(answer: Answer) {
    answer.NetworkError? || IsTransient(answer.status)
  }

  predicate SleptWithin(r: Round) {
    300 * (Pow2(r.naps) - 1) <= r.slept <= 300 * (Pow2(r.naps) - 1) + 149 * r.naps
  }

  predicate RoundOk(cfg: Config, kind: Kind, r: Round) {
    && r.naps <= |r.answers| <= r.naps + 1
    && (forall i | 0 <= i < r.naps :: Retryable(r.answers[i]))
    && (kind.Mutation? ==> r.naps == 0)
    && (cfg.maxRetries >= 0 ==> r.naps <= cfg.maxRetries)
    && SleptWithin(r)
  }

  /** The round is over with this answer. */
  predicate EndedWith(r: Round, answer: Answer) {
    |r.answers| == r.naps + 1 && r.answers[r.naps] == answer
  }

  predicate EndedWell(r: Round) {
    |r.answers| == r.naps + 1 && r.answers[r.naps].Response? && IsOk(r.answers[r.naps].status)
  }

  predicate Exhausted(cfg: Config, c: Call, answer: Answer) {
    !c.kind.Mutation? && Retryable(answer) ==> Current(c).naps >= cfg.maxRetries
  }

  predicate MayRefresh(cfg: Config, c: Call) {
    cfg.hasRefresher && !IsRefreshPath(c.path)
  }

  /** Why this final answer of the call reaches the caller: a 401 only when it could not be cured. */
  predicate Surfaces(cfg: Config, refreshes: seq<Option<Verdict>>, c: Call, status: nat) {
    && EndedWith(Current(c), Response(status)) && Exhausted(cfg, c, Response(status))
    && (status == 401 && MayRefresh(cfg, c) && !c.kind.Blob? && !c.replayed ==>
          c.renewal.Some? && c.renewal.value < |refreshes| && refreshes[c.renewal.value] == Some(Refused))
  }

  predicate ResultOk(cfg: Config, refreshes: seq<Option<Verdict>>, c: Call, result: Result) {
    match result
    case Success => EndedWell(Current(c))
    case BadBody => EndedWell(Current(c))
    case HttpError(status) => !IsOk(status) && Surfaces(cfg, refreshes, c, status)
    case NetworkFailure => EndedWith(Current(c), NetworkError) && Exhausted(cfg, c, NetworkError)
    case RefreshFailure => MayRefresh(cfg, c)
  }

  predicate StageOk(cfg: Config, refreshes: seq<Option<Verdict>>, c: Call) {
    match c.stage
    case AwaitBefore(k) =>
      MayRefresh(cfg, c) && k < |refreshes| && !c.replayed && c.renewal.None? && c.first == FreshRound
    case AwaitReplay(k) =>
      MayRefresh(cfg, c) && k < |refreshes| && !c.replayed && c.renewal == Some(k) && !c.kind.Blob?
      && EndedWith(c.first, Response(401))
    case Fetching(a) => |Current(c).answers| == Current(c).naps == a
    case Sleeping(a) => |Current(c).answers| == Current(c).naps == a + 1
    case Reading(status) =>
      (IsOk(status) ==> status != 204 || c.kind.Blob?) && (c.kind.Blob? ==> IsOk(status))
        && Surfaces(cfg, refreshes, c, status)
    case Settled(result) => ResultOk(cfg, refreshes, c, result)
  }

  /** The replay follows a 401 and a granted refresh. */
  predicate ReplayOk(cfg: Config, refreshes: seq<Option<Verdict>>, c: Call) {
    && (!c.replayed ==> c.second == FreshRound)
    && (c.replayed ==>
          && MayRefresh(cfg, c) && !c.kind.Blob? && EndedWith(c.first, Response(401))
          && c.renewal.Some? && c.renewal.value < |refreshes| && refreshes[c.renewal.value] == Some(Granted))
  }

  predicate Reports401(c: Call) {
    c.stage == Reading(401) || c.stage == Settled(HttpError(401))
  }

  predicate CallOk(cfg: Config, refreshes: seq<Option<Verdict>>, c: Call) {
    && RoundOk(cfg, c.kind, c.first) && RoundOk(cfg, c.kind, c.second)
    && ReplayOk(cfg, refreshes, c) && StageOk(cfg, refreshes, c)
    && c.notices == if Reports401(c) then 1 else 0
  }

  predicate Unsettled(c: Call) {
    !c.stage.Settled?
  }

  predicate CallsOk(cfg: Config, s: State) {
    forall id | 0 <= id < |s.calls| :: CallOk(cfg, s.refreshes, s.calls[id])
  }

  predicate PendingGet(s: State, id: nat, path: string) {
    id < |s.calls| && s.calls[id].kind.Get? && s.calls[id].path == path && Unsettled(s.calls[id])
  }

  /** `inflight` holds exactly the GETs whose promise is unsettled. */
  predicate InflightExact(s: State) {
    && (forall path | path in s.inflight :: PendingGet(s, s.inflight[path], path))
    && (forall id | 0 <= id < |s.calls| && s.calls[id].kind.Get? && Unsettled(s.calls[id]) ::
          s.calls[id].path in s.inflight && s.inflight[s.calls[id].path] == id)
  }

  predicate Outstanding(s: State, k: nat) {
    k < |s.refreshes| && s.refreshes[k].None?
  }

  predicate SingleFlight(s: State) {
    && (s.refreshing.Some? ==> Outstanding(s, s.refreshing.value))
    && (forall k | 0 <= k < |s.refreshes| && s.refreshes[k].None? :: s.refreshing == Some(k))
  }

  predicate Inv(cfg: Config, s: State) {
    CallsOk(cfg, s) && InflightExact(s) && SingleFlight(s)
  }

  /** Settled refreshes keep their verdict. */
  predicate Extends(before: seq<Option<Verdict>>, after: seq<Option<Verdict>>) {
    |before| <= |after| && forall k | 0 <= k < |before| && before[k].Some? :: after[k] == before[k]
  }

  lemma CallOkCarriesOver(cfg: Config, before: seq<Option<Verdict>>, after: seq<Option<Verdict>>, c: Call)
    requires CallOk(cfg, before, c) && Extends(before, after)
    ensures CallOk(cfg, after, c)
  {
  }

  lemma CallsCarryOver(cfg: Config, s: State, refreshes: seq<Option<Verdict>>, refreshing: Option<nat>)
    requires CallsOk(cfg, s) && Extends(s.refreshes, refreshes)
    ensures CallsOk(cfg, s.(refreshes := refreshes, refreshing := refreshing))
  {
    forall id | 0 <= id < |s.calls|
      ensures CallOk(cfg, refreshes, s.calls[id])
    {
      CallOkCarriesOver(cfg, s.refreshes, refreshes, s.calls[id]);
    }
  }

  lemma TryRefreshKeepsInv(cfg: Config, s: State)
    requires Inv(cfg, s)
    ensures Inv(cfg, TryRefresh(s).0) && Outstanding(TryRefresh(s).0, TryRefresh(s).1)
  {
    if s.refreshing.None? {
      CallsCarryOver(cfg, s, s.refreshes + [None], Some(|s.refreshes|));
    }
  }

  lemma PutKeepsInv(cfg: Config, s: State, id: nat, c: Call)
    requires Inv(cfg, s) && id < |s.calls| && Unsettled(s.calls[id])
    requires c.path == s.calls[id].path && c.kind == s.calls[id].kind && CallOk(cfg, s.refreshes, c)
    ensures Inv(cfg, Put(s, id, c))
  {
    var t := Put(s, id, c);
    forall path | path in t.inflight
      ensures PendingGet(t, t.inflight[path], path)
    {
      assert PendingGet(s, s.inflight[path], path);
    }
  }

  /** A new call, with no GET on its path in flight if it is a GET. */
  lemma NewCallKeepsInv(cfg: Config, s: State, c: Call)
    requires Inv(cfg, s) && Unsettled(c) && CallOk(cfg, s.refreshes, c)
    requires c.kind.Get? ==> c.path !in s.inflight
    ensures Inv(cfg, s.(calls := s.calls + [c],
                        inflight := if c.kind.Get? then s.inflight[c.path := |s.calls|] else s.inflight))
  {
    var t := s.(calls := s.calls + [c],
                inflight := if c.kind.Get? then s.inflight[c.path := |s.calls|] else s.inflight);
    forall p | p in t.inflight
      ensures PendingGet(t, t.inflight[p], p)
    {
      assert p in s.inflight ==> PendingGet(s, s.inflight[p], p);
    }
  }

  lemma RequestKeepsInv(cfg: Config, s: State, kind: Kind, path: string, hasToken: bool)
    requires Inv(cfg, s)
    ensures Inv(cfg, Requested(cfg, s, kind, path, hasToken))
  {
    if !(kind.Get? && path in s.inflight) {
      var newCall := Call(path, kind, Fetching(0), false, FreshRound, FreshRound, None, 0);
      if ShouldRefreshBefore(cfg, path, hasToken) {
        TryRefreshKeepsInv(cfg, s);
        var (s1, k) := TryRefresh(s);
        NewCallKeepsInv(cfg, s1, newCall.(stage := AwaitBefore(k)));
      } else {
        NewCallKeepsInv(cfg, s, newCall);
      }
    }
  }

  lemma NapStaysWithin(r: Round, attempt: nat, jitter: Jitter)
    requires SleptWithin(r) && r.naps == attempt
    ensures SleptWithin(r.(naps := r.naps + 1, slept := r.slept + BackoffMs(attempt, jitter)))
  {
  }

  lemma SleeperOk(cfg: Config, refreshes: seq<Option<Verdict>>, c: Call, answer: Answer, jitter: Jitter)
    requires CallOk(cfg, refreshes, c) && c.stage.Fetching?
    requires RetriesAnswer(cfg, c.kind, answer, c.stage.attempt)
    ensures CallOk(cfg, refreshes, GoesToSleep(Logged(c, answer), c.stage.attempt, jitter))
  {
    NapStaysWithin(Current(Logged(c, answer)), c.stage.attempt, jitter);
  }

  /** The round of a fetching call after an answer that is not retried. */
  lemma LastAnswerOk(cfg: Config, refreshes: seq<Option<Verdict>>, c: Call, answer: Answer)
    requires CallOk(cfg, refreshes, c) && c.stage.Fetching?
    requires !RetriesAnswer(cfg, c.kind, answer, c.stage.attempt)
    ensures var d := Logged(c, answer);
            && RoundOk(cfg, c.kind, d.first) && RoundOk(cfg, c.kind, d.second) && ReplayOk(cfg, refreshes, d)
            && EndedWith(Current(d), answer) && Exhausted(cfg, d, answer)
  {
  }

  lemma DeliveredOk(cfg: Config, refreshes: seq<Option<Verdict>>, c: Call, status: nat)
    requires RoundOk(cfg, c.kind, c.first) && RoundOk(cfg, c.kind, c.second) && ReplayOk(cfg, refreshes, c)
    requires Surfaces(cfg, refreshes, c, status) && c.notices == 0
    ensures CallOk(cfg, refreshes, Final(c, Response(status)))
  {
    var d := Final(c, Response(status));
    assert Current(d) == Current(c);
    assert Surfaces(cfg, refreshes, d, status);
  }

  lemma FinalOk(cfg: Config, refreshes: seq<Option<Verdict>>, c: Call, answer: Answer)
    requires CallOk(cfg, refreshes, c) && c.stage.Fetching?
    requires !RetriesAnswer(cfg, c.kind, answer, c.stage.attempt) && !AsksForRefresh(cfg, c, answer)
    ensures CallOk(cfg, refreshes, Final(Logged(c, answer), answer))
  {
    LastAnswerOk(cfg, refreshes, c, answer);
    if answer.Response? {
      DeliveredOk(cfg, refreshes, Logged(c, answer), answer.status);
    }
  }

  lemma AskerOk(cfg: Config, refreshes: seq<Option<Verdict>>, c: Call, k: nat)
    requires CallOk(cfg, refreshes, c) && c.stage.Fetching? && k < |refreshes|
    requires AsksForRefresh(cfg, c, Response(401))
    ensures CallOk(cfg, refreshes, Logged(c, Response(401)).(stage := AwaitReplay(k), renewal := Some(k)))
  {
    LastAnswerOk(cfg, refreshes, c, Response(401));
  }

  lemma AskKeepsInv(cfg: Config, s: State, id: nat)
    requires Inv(cfg, s) && id < |s.calls| && s.calls[id].stage.Fetching?
    requires AsksForRefresh(cfg, s.calls[id], Response(401))
    ensures var (s1, k) := TryRefresh(s);
            Inv(cfg, Put(s1, id, Logged(s.calls[id], Response(401)).(stage := AwaitReplay(k), renewal := Some(k))))
  {
    TryRefreshKeepsInv(cfg, s);
    var (s1, k) := TryRefresh(s);
    AskerOk(cfg, s1.refreshes, s1.calls[id], k);
    PutKeepsInv(cfg, s1, id, Logged(s.calls[id], Response(401)).(stage := AwaitReplay(k), renewal := Some(k)));
  }

  lemma AnswerKeepsInv(cfg: Config, s: State, id: nat, answer: Answer, jitter: Jitter)
    requires Inv(cfg, s) && id < |s.calls| && s.calls[id].stage.Fetching?
    ensures Inv(cfg, AfterAnswer(cfg, s, id, answer, jitter))
  {
    var c := s.calls[id];
    var d := Logged(c, answer);
    if RetriesAnswer(cfg, c.kind, answer, c.stage.attempt) {
      SleeperOk(cfg, s.refreshes, c, answer, jitter);
      PutKeepsInv(cfg, s, id, GoesToSleep(d, c.stage.attempt, jitter));
    } else if AsksForRefresh(cfg, c, answer) {
      AskKeepsInv(cfg, s, id);
    } else {
      FinalOk(cfg, s.refreshes, c, answer);
      PutKeepsInv(cfg, s, id, Final(d, answer));
    }
  }

  lemma ResumedOk(cfg: Config, refreshes: seq<Option<Verdict>>, c: Call)
    requires CallOk(cfg, refreshes, c) && Waiting(c)
    requires refreshes[c.stage.refresh].Some?
    ensures CallOk(cfg, refreshes, Resumed(c, refreshes[c.stage.refresh].value))
  {
  }

  lemma BodyEndsOk(cfg: Config, refreshes: seq<Option<Verdict>>, c: Call, good: bool)
    requires CallOk(cfg, refreshes, c) && c.stage.Reading?
    ensures CallOk(cfg, refreshes, BodyEnds(c, good))
  {
    assert Surfaces(cfg, refreshes, BodyEnds(c, good), c.stage.status);
  }

  lemma ContinuationKeepsInv(cfg: Config, s: State, id: nat, e: Event)
    requires Inv(cfg, s) && Enabled(s, e)
    requires e == Resume(id) || e == Wakes(id) || e == BodyRead(id, true) || e == BodyRead(id, false)
    ensures Inv(cfg, Step(cfg, s, e))
  {
    var c := s.calls[id];
    assert CallOk(cfg, s.refreshes, c);
    if e.Resume? {
      ResumedOk(cfg, s.refreshes, c);
      PutKeepsInv(cfg, s, id, Resumed(c, s.refreshes[c.stage.refresh].value));
    } else if e.Wakes? {
      PutKeepsInv(cfg, s, id, c.(stage := Fetching(c.stage.attempt + 1)));
    } else {
      BodyEndsOk(cfg, s.refreshes, c, e.good);
      PutKeepsInv(cfg, s, id, BodyEnds(c, e.good));
    }
  }

  lemma StepKeepsInv(cfg: Config, s: State, e: Event)
    requires Inv(cfg, s)
    ensures Inv(cfg, Step(cfg, s, e))
  {
    if Enabled(s, e) {
      match e {
        case Request(kind, path, hasToken) => RequestKeepsInv(cfg, s, kind, path, hasToken);
        case RefreshEnds(k, verdict) => CallsCarryOver(cfg, s, s.refreshes[k := Some(verdict)], None);
        case Answered(id, answer, jitter) => AnswerKeepsInv(cfg, s, id, answer, jitter);
        case _ => ContinuationKeepsInv(cfg, s, e.id, e);
      }
    }
  }

  lemma {:induction false} RunKeepsInv(cfg: Config, run: seq<Event>)
    ensures Inv(cfg, After(cfg, run))
  {
    if run != [] {
      RunKeepsInv(cfg, run[..|run| - 1]);
      StepKeepsInv(cfg, After(cfg, run[..|run| - 1]), run[|run| - 1]);
    }
  }

  // ---------------------------------------------------------------- what that means

  lemma AtMostOneRefresh(cfg: Config, run: seq<Event>, j: nat, k: nat)
    requires Outstanding(After(cfg, run), j) && Outstanding(After(cfg, run), k)
    ensures j == k
  {
    RunKeepsInv(cfg, run);
  }

  lemma InflightHoldsThePendingGets(cfg: Config, run: seq<Event>, path: string)
    ensures var s := After(cfg, run);
            (path in s.inflight <==> exists id: nat :: PendingGet(s, id, path))
            && (forall i: nat, j: nat | PendingGet(s, i, path) && PendingGet(s, j, path) :: i == j == s.inflight[path])
  {
    RunKeepsInv(cfg, run);
    var s := After(cfg, run);
    if path in s.inflight {
      assert PendingGet(s, s.inflight[path], path);
    }
  }

  /** A call to the refresh endpoint waits for no refresh, so a refresh made of such a call cannot
      wait for itself; nor is such a call ever replayed. */
  lemma {:induction false} RefreshCallsNeverWait(cfg: Config, run: seq<Event>, id: nat)
    requires id < |After(cfg, run).calls| && IsRefreshPath(After(cfg, run).calls[id].path)
    ensures !Waiting(After(cfg, run).calls[id]) && !After(cfg, run).calls[id].replayed
  {
    RunKeepsInv(cfg, run);
  }

  function Fetches(c: Call): nat {
    |c.first.answers| + |c.second.answers| + if c.stage.Fetching? then 1 else 0
  }

  /** A mutation is sent twice only if the first answer was a 401 and the refresh was granted. */
  lemma MutationsRepeatOnlyAfter401(cfg: Config, run: seq<Event>, id: nat)
    requires id < |After(cfg, run).calls| && After(cfg, run).calls[id].kind.Mutation?
    ensures var c := After(cfg, run).calls[id];
            Fetches(c) <= 2
            && (Fetches(c) == 2 ==>
                  c.first.answers == [Response(401)] && c.renewal.Some? && c.renewal.value < |After(cfg, run).refreshes|
                  && After(cfg, run).refreshes[c.renewal.value] == Some(Granted))
  {
    RunKeepsInv(cfg, run);
  }

  /** A call that fails with 401 has told `onUnauthorized` once, and no refresh could have helped: the
      call is a download, or goes to the refresh endpoint, or there is no refresher, or the
      refresh was refused, or the replay got a 401 as well. */
  lemma UnauthorizedIsFinal(cfg: Config, run: seq<Event>, id: nat)
    requires id < |After(cfg, run).calls| && After(cfg, run).calls[id].stage == Settled(HttpError(401))
    ensures var s := After(cfg, run);
            var c := s.calls[id];
            c.notices == 1
            && (|| c.kind.Blob? || IsRefreshPath(c.path) || !cfg.hasRefresher
                || (c.renewal.Some? && c.renewal.value < |s.refreshes| && s.refreshes[c.renewal.value] == Some(Refused))
                || (c.replayed && EndedWith(c.second, Response(401))))
  {
    RunKeepsInv(cfg, run);
  }

  /** `onUnauthorized` is not told of a 401 that the caller never sees. */
  lemma OthersStaySilent(cfg: Config, run: seq<Event>, id: nat)
    requires id < |After(cfg, run).calls| && After(cfg, run).calls[id].stage.Settled?
    ensures After(cfg, run).calls[id].notices == 0 <==> After(cfg, run).calls[id].stage.result != HttpError(401)
  {
    RunKeepsInv(cfg, run);
  }

  /** What a caller of `get` is told about an unavailable server is the answer to the last attempt allowed. */
  lemma GetsGiveUpLast(cfg: Config, run: seq<Event>, id: nat)
    requires id < |After(cfg, run).calls| && !After(cfg, run).calls[id].kind.Mutation? && cfg.maxRetries >= 0
    requires var c := After(cfg, run).calls[id];
             c.stage.Settled? && (c.stage.result.NetworkFailure?
               || (c.stage.result.HttpError? && IsTransient(c.stage.result.status)))
    ensures |Current(After(cfg, run).calls[id]).answers| == cfg.maxRetries + 1
  {
    RunKeepsInv(cfg, run);
  }

  lemma SleepsWithin(cfg: Config, run: seq<Event>, id: nat)
    requires id < |After(cfg, run).calls|
    ensures forall r | r in [After(cfg, run).calls[id].first, After(cfg, run).calls[id].second] ::
              300 * (Pow2(r.naps) - 1) <= r.slept <= 300 * (Pow2(r.naps) - 1) + 149 * r.naps
  {
    RunKeepsInv(cfg, run);
  }

  // ---------------------------------------------------------------- how often a call fetches

  ghost predicate FetchesAtMost(cfg: Config, bound: nat) {
    forall run, id: nat | id < |After(cfg, run).calls| :: Fetches(After(cfg, run).calls[id]) <= bound
  }

  lemma FetchesBounded(cfg: Config)
    requires cfg.maxRetries >= 0
    ensures FetchesAtMost(cfg, 2 * (cfg.maxRetries + 1))
  {
    forall run, id: nat | id < |After(cfg, run).calls|
      ensures Fetches(After(cfg, run).calls[id]) <= 2 * (cfg.maxRetries + 1)
    {
      RunKeepsInv(cfg, run);
    }
  }

  /** `n` network errors in a row answer the first call. */
  function Failures(n: nat): seq<Event> {
    if n == 0 then [Request(Get, "/", true)] else Failures(n - 1) + [Answered(0, NetworkError, 0)] + [Wakes(0)]
  }

  predicate RetryingOnly(s: State, n: nat) {
    && |s.calls| == 1 && s.calls[0].kind.Get? && !s.calls[0].replayed
    && s.calls[0].stage == Fetching(n) && |s.calls[0].first.answers| == n
  }

  lemma FailureRetried(cfg: Config, s: State, n: nat)
    requires cfg.maxRetries < 0 && RetryingOnly(s, n)
    ensures RetryingOnly(Step(cfg, Step(cfg, s, Answered(0, NetworkError, 0)), Wakes(0)), n + 1)
  {
    var t := Step(cfg, s, Answered(0, NetworkError, 0));
    assert t == Put(s, 0, GoesToSleep(Logged(s.calls[0], NetworkError), n, 0));
    assert t.calls[0].stage == Sleeping(n);
  }

  lemma {:induction false} FailuresRetried(cfg: Config, n: nat)
    requires cfg.maxRetries < 0
    ensures RetryingOnly(After(cfg, Failures(n)), n)
  {
    if n == 0 {
      var s := Unfold(cfg, [], Request(Get, "/", true));
      assert [] + [Request(Get, "/", true)] == Failures(0);
    } else {
      FailuresRetried(cfg, n - 1);
      FailureRetried(cfg, After(cfg, Failures(n - 1)), n - 1);
      var s := Unfold(cfg, Failures(n - 1), Answered(0, NetworkError, 0));
      var t := Unfold(cfg, Failures(n - 1) + [Answered(0, NetworkError, 0)], Wakes(0));
    }
  }

  /** A GET makes a bounded number of fetches exactly when `maxRetries` is not negative: the test
      `attempt === maxRetries` that stops the retries of a network error never meets a negative one. */
  lemma BoundedIffRetriesNonNegative(cfg: Config)
    ensures (exists bound: nat :: FetchesAtMost(cfg, bound)) <==> cfg.maxRetries >= 0
  {
    if cfg.maxRetries >= 0 {
      FetchesBounded(cfg);
    } else {
      forall bound: nat
        ensures !FetchesAtMost(cfg, bound)
      {
        FailuresRetried(cfg, bound);
        assert Fetches(After(cfg, Failures(bound)).calls[0]) > bound;
      }
    }
  }

  // ---------------------------------------------------------------- every call ends

  /** Does the event continue this call? */
  predicate Continues(s: State, e: Event, id: nat) {
    Enabled(s, e) && match e
                     case Resume(i) => i == id
                     case Answered(i, _, _) => i == id
                     case Wakes(i) => i == id
                     case BodyRead(i, _) => i == id
                     case _ => false
  }

  /** An unsettled call always has something to wait for, and what it waits for is really under way. */
  lemma NoCallIsStuck(cfg: Config, run: seq<Event>, id: nat)
    requires id < |After(cfg, run).calls| && Unsettled(After(cfg, run).calls[id])
    ensures var s := After(cfg, run);
            (exists e :: Continues(s, e, id)) || (Waiting(s.calls[id]) && Outstanding(s, s.calls[id].stage.refresh))
  {
    RunKeepsInv(cfg, run);
    var s := After(cfg, run);
    var c := s.calls[id];
    assert CallOk(cfg, s.refreshes, c);
    if c.stage.Fetching? {
      assert Continues(s, Answered(id, NetworkError, 0), id);
    } else if c.stage.Sleeping? {
      assert Continues(s, Wakes(id), id);
    } else if c.stage.Reading? {
      assert Continues(s, BodyRead(id, true), id);
    } else if !Outstanding(s, c.stage.refresh) {
      assert Continues(s, Resume(id), id);
    }
  }

  /** How many continuations a call has left. */
  function Rank(cfg: Config, c: Call): int {
    var replay := if c.replayed then 0 else 2 * cfg.maxRetries + 3;
    match c.stage
    case Settled(_) => 0
    case Reading(_) => 1
    case Sleeping(a) => 2 * (cfg.maxRetries - a) + 1 + replay
    case Fetching(a) => 2 * (cfg.maxRetries - a) + 2 + replay
    case AwaitReplay(_) => 2 * cfg.maxRetries + 3
    case AwaitBefore(_) => 4 * cfg.maxRetries + 6
  }

  function Continuations(cfg: Config, run: seq<Event>, id: nat): nat {
    if run == [] then 0
    else Continuations(cfg, run[..|run| - 1], id)
         + if Continues(After(cfg, run[..|run| - 1]), run[|run| - 1], id) then 1 else 0
  }

  lemma AnswerSpends(cfg: Config, s: State, id: nat, answer: Answer, jitter: Jitter)
    requires cfg.maxRetries >= 0 && id < |s.calls| && s.calls[id].stage.Fetching?
    requires CallOk(cfg, s.refreshes, s.calls[id])
    ensures Rank(cfg, AfterAnswer(cfg, s, id, answer, jitter).calls[id]) < Rank(cfg, s.calls[id])
  {
  }

  lemma ContinuationSpends(cfg: Config, s: State, e: Event, id: nat)
    requires cfg.maxRetries >= 0 && id < |s.calls| && CallOk(cfg, s.refreshes, s.calls[id])
    requires Continues(s, e, id)
    ensures Rank(cfg, Step(cfg, s, e).calls[id]) < Rank(cfg, s.calls[id])
  {
    if e.Answered? {
      AnswerSpends(cfg, s, id, e.answer, e.jitter);
    }
  }

  lemma OthersStay(cfg: Config, s: State, e: Event, id: nat)
    requires id < |s.calls| && !Continues(s, e, id)
    ensures id < |Step(cfg, s, e).calls| && Step(cfg, s, e).calls[id] == s.calls[id]
  {
  }

  lemma StepSpends(cfg: Config, s: State, e: Event, id: nat)
    requires cfg.maxRetries >= 0 && id < |s.calls| && CallOk(cfg, s.refreshes, s.calls[id])
    ensures id < |Step(cfg, s, e).calls|
    ensures if Continues(s, e, id) then Rank(cfg, Step(cfg, s, e).calls[id]) < Rank(cfg, s.calls[id])
            else Step(cfg, s, e).calls[id] == s.calls[id]
  {
    if Continues(s, e, id) {
      ContinuationSpends(cfg, s, e, id);
    } else {
      OthersStay(cfg, s, e, id);
    }
  }

  lemma {:induction false} RankIsSpent(cfg: Config, run: seq<Event>, id: nat)
    requires cfg.maxRetries >= 0
    ensures var s := After(cfg, run);
            Continuations(cfg, run, id) <= if id < |s.calls| then 4 * cfg.maxRetries + 6 - Rank(cfg, s.calls[id]) else 0
  {
    if run != [] {
      var before := run[..|run| - 1];
      RankIsSpent(cfg, before, id);
      RunKeepsInv(cfg, before);
      if id < |After(cfg, before).calls| {
        StepSpends(cfg, After(cfg, before), run[|run| - 1], id);
      }
    }
  }

  /** Together with `NoCallIsStuck`: every call settles.  With the default of two retries it is
      continued at most 14 times, and once it has been continued that often it has settled. */
  lemma CallsEnd(cfg: Config, run: seq<Event>, id: nat)
    requires cfg.maxRetries >= 0
    ensures Continuations(cfg, run, id) <= 4 * cfg.maxRetries + 6
    ensures Continuations(cfg, run, id) == 4 * cfg.maxRetries + 6 ==>
              id < |After(cfg, run).calls| && After(cfg, run).calls[id].stage.Settled?
  {
    RankIsSpent(cfg, run, id);
    RunKeepsInv(cfg, run);
    if id < |After(cfg, run).calls| {
      assert CallOk(cfg, After(cfg, run).refreshes, After(cfg, run).calls[id]);
    }
  }

  // ---------------------------------------------------------------- what coalesces

  /** A 401 starts a refresh of its own exactly when none is outstanding at that moment. */
  lemma CoalescesIffOutstanding(cfg: Config, run: seq<Event>, id: nat, jitter: Jitter)
    requires id < |After(cfg, run).calls| && After(cfg, run).calls[id].stage.Fetching?
    requires AsksForRefresh(cfg, After(cfg, run).calls[id], Response(401))
    ensures var s := After(cfg, run);
            var t := Step(cfg, s, Answered(id, Response(401), jitter));
            t.refreshes == (if exists k: nat :: Outstanding(s, k) then s.refreshes else s.refreshes + [None])
            && Waiting(t.calls[id]) && Outstanding(t, t.calls[id].stage.refresh)
  {
    RunKeepsInv(cfg, run);
    var s := After(cfg, run);
    if s.refreshing.Some? {
      assert Outstanding(s, s.refreshing.value);
    }
  }

  /** Two calls sent with the same expired token can therefore refresh twice: the second 401 arrives when
      the refresh that the first one started is over. */
  lemma LateUnauthorizedRefreshesAgain(cfg: Config)
    requires cfg.hasRefresher
    ensures exists run :: |After(cfg, run).refreshes| == 2 && |After(cfg, run).calls| == 2
                          && After(cfg, run).calls[0].first.answers == After(cfg, run).calls[1].first.answers ==
                            [Response(401)]
                          && After(cfg, run).refreshes[0] == Some(Granted)
  {
    var e := [Request(Mutation, "/a", true), Request(Mutation, "/b", true), Answered(0, Response(401), 0),
              RefreshEnds(0, Granted), Answered(1, Response(401), 0)];
    var s1 := Unfold(cfg, e[..0], e[0]);
    assert e[..0] + [e[0]] == e[..1];
    var s2 := Unfold(cfg, e[..1], e[1]);
    assert e[..1] + [e[1]] == e[..2];
    var s3 := Unfold(cfg, e[..2], e[2]);
    assert e[..2] + [e[2]] == e[..3];
    var s4 := Unfold(cfg, e[..3], e[3]);
    assert e[..3] + [e[3]] == e[..4];
    var s5 := Unfold(cfg, e[..4], e[4]);
    assert e[..4] + [e[4]] == e;
  }

  lemma Unfold(cfg: Config, run: seq<Event>, e: Event) returns (s: State)
    ensures s == After(cfg, run + [e]) == Step(cfg, After(cfg, run), e)
  {
    assert (run + [e])[..|run|] == run;
    s := After(cfg, run + [e]);
  }

  // ---------------------------------------------------------------- what each continuation leads to

  predicate StartsWith(path: string, prefix: string) {
    |prefix| <= |path| && path[..|prefix|] == prefix
  }

  /** The paths that work without a session. */
  predicate WorksSignedOut(path: string) {
    || StartsWith(path, "/auth/login") || StartsWith(path, "/auth/register") || StartsWith(path, "/auth/refresh")
    || StartsWith(path, "/auth/session") || StartsWith(path, "/auth/password/")
  }

  /** A request adds nothing when it is a GET whose path is in flight.  Otherwise it adds one call, which first awaits
      a refresh exactly when there is a refresher and a token getter that returns nothing, and the path
      needs a session. */
  lemma RequestStarts(cfg: Config, s: State, kind: Kind, path: string, hasToken: bool)
    ensures var t := Step(cfg, s, Request(kind, path, hasToken));
            if kind.Get? && path in s.inflight then t == s
            else
              && |t.calls| == |s.calls| + 1 && t.calls[..|s.calls|] == s.calls
              && t.calls[|s.calls|].path == path && t.calls[|s.calls|].kind == kind
              && (t.calls[|s.calls|].stage.AwaitBefore? <==>
                    cfg.hasRefresher && cfg.hasTokenGetter && !hasToken && !WorksSignedOut(path))
              && (t.calls[|s.calls|].stage.AwaitBefore? || t.calls[|s.calls|].stage == Fetching(0))
              && (kind.Get? ==> path in t.inflight && t.inflight[path] == |s.calls|)
              && (!kind.Get? ==> t.inflight == s.inflight)
  {
  }

  /** The statuses after which a GET is sent again. */
  predicate WorthRetrying(status: nat) {
    status in {408, 500, 502, 503, 504}
  }

  predicate Retried(cfg: Config, c: Call, answer: Answer)
    requires c.stage.Fetching?
  {
    && !c.kind.Mutation?
    && ((answer.NetworkError? && c.stage.attempt != cfg.maxRetries)
        || (answer.Response? && WorthRetrying(answer.status) && c.stage.attempt < cfg.maxRetries))
  }

  predicate Renewed(cfg: Config, c: Call, answer: Answer) {
    answer == Response(401) && cfg.hasRefresher && !c.replayed && !c.kind.Blob? && !StartsWith(c.path, "/auth/refresh")
  }

  /** Where an answer leads: another attempt after a sleep, a refresh, or the end of the call, which reads the body
      unless there is none or it is that of a failed download. */
  lemma AnswerLeadsTo(cfg: Config, s: State, id: nat, answer: Answer, jitter: Jitter)
    requires id < |s.calls| && s.calls[id].stage.Fetching?
    ensures var c, next := s.calls[id], Step(cfg, s, Answered(id, answer, jitter)).calls[id].stage;
            if Retried(cfg, c, answer) then next == Sleeping(c.stage.attempt)
            else if Renewed(cfg, c, answer) then next.AwaitReplay?
            else if answer.NetworkError? then next == Settled(NetworkFailure)
            else if 200 <= answer.status < 300 then
              next == if answer.status == 204 && !c.kind.Blob? then Settled(Success) else Reading(answer.status)
            else
              next == if c.kind.Blob? then Settled(HttpError(answer.status)) else Reading(answer.status)
  {
  }

  /** What an answer adds to the books: itself, the sleep before another attempt (300 ms doubled with each attempt
      plus a jitter below 150 ms), and one notice for a 401 that is not taken to a refresh. */
  lemma AnswerIsBooked(cfg: Config, s: State, id: nat, answer: Answer, jitter: Jitter)
    requires id < |s.calls| && s.calls[id].stage.Fetching?
    ensures var c, d := s.calls[id], Step(cfg, s, Answered(id, answer, jitter)).calls[id];
            && Current(d).answers == Current(c).answers + [answer]
            && d.path == c.path && d.kind == c.kind && d.replayed == c.replayed
            && (Current(d).naps, Current(d).slept) ==
               (if Retried(cfg, c, answer)
                then (Current(c).naps + 1, Current(c).slept + 300 * Pow2(c.stage.attempt) + jitter)
                else (Current(c).naps, Current(c).slept))
            && (d.notices == c.notices + if answer == Response(401) && !Renewed(cfg, c, answer) then 1 else 0)
  {
  }

  /** Where the other continuations lead.  After a refresh that threw the call fails.  An early refresh lets the call
      go on, granted or not; a late one replays it if granted and delivers the 401 if refused.  A sleeper
      sends the next attempt.  The body of a good answer must be readable and that of a bad one need not. */
  lemma ContinuationLeadsTo(cfg: Config, s: State, e: Event)
    requires Enabled(s, e)
    ensures e.Resume? ==>
              var c, d := s.calls[e.id], Step(cfg, s, e).calls[e.id];
              var verdict := s.refreshes[c.stage.refresh].value;
              && (verdict.Threw? ==> d.stage == Settled(RefreshFailure))
              && (!verdict.Threw? && c.stage.AwaitBefore? ==> d.stage == Fetching(0) && d.replayed == c.replayed)
              && (verdict.Granted? && c.stage.AwaitReplay? ==> d.stage == Fetching(0) && d.replayed)
              && (verdict.Refused? && c.stage.AwaitReplay? ==> d.stage == Reading(401) && d.notices == c.notices + 1)
    ensures e.Wakes? ==> Step(cfg, s, e).calls[e.id].stage == Fetching(s.calls[e.id].stage.attempt + 1)
    ensures e.BodyRead? ==>
              var status := s.calls[e.id].stage.status;
              Step(cfg, s, e).calls[e.id].stage.Settled?
              && Step(cfg, s, e).calls[e.id].stage.result
                 == (if !(200 <= status < 300) then HttpError(status) else if e.good then Success else BadBody)
  {
  }

  /** Over every run the result of a call that no failed refresh has ended is that of its last answer. */
  lemma ResultIsLastAnswer(cfg: Config, run: seq<Event>, id: nat)
    requires id < |After(cfg, run).calls|
    requires After(cfg, run).calls[id].stage.Settled? && !After(cfg, run).calls[id].stage.result.RefreshFailure?
    ensures var (c, r) := (After(cfg, run).calls[id], After(cfg, run).calls[id].stage.result);
            var answers := Current(c).answers;
            && answers != []
            && var last := answers[|answers| - 1];
               && (r.NetworkFailure? <==> last.NetworkError?)
               && (r.Success? || r.BadBody? <==> last.Response? && 200 <= last.status < 300)
               && (r.HttpError? ==> last == Response(r.status))
  {
    RunKeepsInv(cfg, run);
    assert CallOk(cfg, After(cfg, run).refreshes, After(cfg, run).calls[id]);
  }
}
