/** The Redis lease of `DistributedLockService`: `SET NX PX` to acquire, compare-and-extend in a
    background refresh loop, compare-and-delete to release, and abort after two consecutive
    refreshes that did not extend.

    Times are integer milliseconds.  A token stands for the random UUID of one `withLock` call,
    so it also names that call.  Every request to Redis may be lost before or after Redis
    executes it; timers and replies are late by at most `lag` milliseconds each. */
module DistributedLock {

  type Token = nat

  const MAX_CONSECUTIVE_REFRESH_FAILURES := 2

  /** `Math.max(1000, Math.floor(ttlMs / 3))` */
  function RefreshInterval(ttl: nat): nat {
    if ttl / 3 > 1000 then ttl / 3 else 1000
  }

  // ---------------------------------------------------------------- the Redis key

  datatype Cell = Free | Held(token: Token, expiresAt: int)

  predicate Live(c: Cell, now: int) {
    c.Held? && now < c.expiresAt
  }

  predicate HeldBy(c: Cell, now: int, token: Token) {
    Live(c, now) && c.token == token
  }

  function SetIfAbsent(c: Cell, now: int, token: Token, ttl: nat): Cell {
    if Live(c, now) then c else Held(token, now + ttl)
  }

  function ExtendIfOwner(c: Cell, now: int, token: Token, ttl: nat): Cell {
    if HeldBy(c, now, token) then Held(token, now + ttl) else c
  }

  function DeleteIfOwner(c: Cell, now: int, token: Token): Cell {
    if HeldBy(c, now, token) then Free else c
  }

  /** One namespaced key of the shared Redis server. */
  class RedisKey {
    var cell: Cell

    constructor ()
      ensures cell == Free
    {
      cell := Free;
    }

    method Acquire(now: int, token: Token, ttl: nat) returns (acquired: bool)
      modifies this
      ensures acquired == !Live(old(cell), now)
      ensures cell == SetIfAbsent(old(cell), now, token, ttl)
      ensures acquired && 0 < ttl ==> HeldBy(cell, now, token)
    {
      if cell.Held? && now < cell.expiresAt {
        return false;
      }
      cell := Held(token, now + ttl);
      acquired := true;
    }

    method Extend(now: int, token: Token, ttl: nat) returns (extended: bool)
      modifies this
      ensures extended == HeldBy(old(cell), now, token)
      ensures cell == ExtendIfOwner(old(cell), now, token, ttl)
    {
      extended := cell.Held? && now < cell.expiresAt && cell.token == token;
      if extended {
        cell := Held(token, now + ttl);
      }
    }

    method Release(now: int, token: Token) returns (released: bool)
      modifies this
      ensures released == HeldBy(old(cell), now, token)
      ensures cell == DeleteIfOwner(old(cell), now, token)
      ensures !HeldBy(cell, now, token)
    {
      released := cell.Held? && now < cell.expiresAt && cell.token == token;
      if released {
        cell := Free;
      }
    }
  }

  // ---------------------------------------------------------------- one withLock call

  /** Where the task body is: the SET has been answered in Redis but `fn` has not started, `fn`
      runs, `fn` has returned and the release is on its way, or `withLock` has returned. */
  datatype Body = Entering | Running | Releasing | Finished

  /** The refresh loop: not started, timer armed, extend script executed and its reply on the
      way (`extended` is what the reply will say), or no timer left. */
  datatype Loop = NotStarted | Armed(since: int) | InFlight(extended: bool, at: int) | Stopped

  /** `leasedAt` is when Redis last set the expiry for this token; it is book-keeping of the
      model and no step reads it. */
  datatype Session = Session(body: Body, loop: Loop, failures: nat, aborted: bool, leasedAt: int)

  /** `fn` is running and its signal has not fired. */
  predicate Protected(s: Session) {
    s.body.Running? && !s.aborted
  }

  /** What `runRefresh` does once `extend` has answered `extended` (an exception counts as false). */
  function AfterReply(s: Session, extended: bool, now: int): Session {
    var failures := if extended then 0 else s.failures + 1;
    if failures >= MAX_CONSECUTIVE_REFRESH_FAILURES && !s.aborted then
      s.(failures := failures, aborted := true, loop := Stopped)
    else if !s.aborted then
      s.(failures := failures, loop := Armed(now))
    else
      s.(failures := failures, loop := Stopped)
  }

  /** The `finally` block before its release: `clearTimeout` stops an armed timer and does nothing
      to a refresh already in flight. */
  function AfterBody(s: Session): Session {
    s.(body := Releasing, loop := if s.loop.InFlight? then s.loop else Stopped)
  }

  /** The local variables of one `withLock` call. */
  class LockedTask {
    var body: Body
    var loop: Loop
    var consecutiveFailures: nat
    var aborted: bool
    ghost const leasedAt: int

    ghost function View(): Session
      reads this
    {
      Session(body, loop, consecutiveFailures, aborted, leasedAt)
    }

    constructor (now: int, ghost leasedAt: int)
      ensures View() == Session(Running, Armed(now), 0, false, leasedAt)
    {
      body, loop := Running, Armed(now);
      consecutiveFailures, aborted := 0, false;
      this.leasedAt := leasedAt;
    }

    method HandleRefreshReply(extended: bool, now: int)
      requires loop.InFlight?
      modifies this
      ensures View() == AfterReply(old(View()), extended, now)
      ensures aborted == (old(aborted)
                || (!extended && old(consecutiveFailures) + 1 >= MAX_CONSECUTIVE_REFRESH_FAILURES))
      ensures consecutiveFailures == if extended then 0 else old(consecutiveFailures) + 1
      ensures loop == if aborted then Stopped else Armed(now)
      ensures body == old(body)
    {
      if extended {
        consecutiveFailures := 0;
      } else {
        consecutiveFailures := consecutiveFailures + 1;
      }
      loop := Stopped;
      if consecutiveFailures >= MAX_CONSECUTIVE_REFRESH_FAILURES && !aborted {
        aborted := true;
        return;
      }
      if !aborted {
        loop := Armed(now);
      }
    }

    method FinishBody()
      requires body.Running?
      modifies this
      ensures View() == AfterBody(old(View()))
    {
      if !loop.InFlight? {
        loop := Stopped;
      }
      body := Releasing;
    }
  }

  // ---------------------------------------------------------------- the whole system

  datatype Params = Params(ttl: nat, lag: nat) {
    function R(): nat { RefreshInterval(ttl) }
  }

  datatype State = State(now: int, cell: Cell, sessions: map<Token, Session>)

  const Start := State(0, Free, map[])

  /** What happened to one request: executed and answered, never executed, or executed with the
      answer lost. */
  datatype Fate = Answered | RequestLost | ReplyLost

  datatype Event =
    | Pass(dt: nat)
    | Acquire(token: Token, fate: Fate)
    | Enter(token: Token)
    | Refresh(token: Token, fate: Fate)
    | Reply(token: Token)
    | Finish(token: Token)
    | Release(token: Token, executed: bool)
    | Crash(token: Token)

  /** Time may reach `time` only if nothing that must happen by then is still pending. */
  predicate InTime(p: Params, s: Session, time: int) {
    && (s.body.Entering? ==> time <= s.leasedAt + p.lag)
    && (s.loop.Armed? ==> time <= s.loop.since + p.R() + p.lag)
    && (s.loop.InFlight? ==> time <= s.loop.at + p.lag)
  }

  predicate Enabled(p: Params, s: State, e: Event) {
    match e
    case Pass(dt) => forall t | t in s.sessions :: InTime(p, s.sessions[t], s.now + dt)
    case Acquire(t, _) => t !in s.sessions
    case Enter(t) => t in s.sessions && s.sessions[t].body.Entering?
    case Refresh(t, _) =>
      t in s.sessions && s.sessions[t].loop.Armed? && s.sessions[t].loop.since + p.R() <= s.now
    case Reply(t) => t in s.sessions && s.sessions[t].loop.InFlight?
    case Finish(t) => t in s.sessions && s.sessions[t].body.Running?
    case Release(t, _) => t in s.sessions && s.sessions[t].body.Releasing?
    case Crash(t) => t in s.sessions
  }

  function Next(p: Params, s: State, e: Event): State
    requires Enabled(p, s, e)
  {
    match e
    case Pass(dt) => s.(now := s.now + dt)
    case Acquire(t, fate) =>
      if fate.RequestLost? || Live(s.cell, s.now) then s
      else
        var cell := SetIfAbsent(s.cell, s.now, t, p.ttl);
        // Without its reply the call throws and never runs `fn`, but Redis keeps the key.
        var session := if fate.Answered? then Session(Entering, NotStarted, 0, false, s.now)
                       else Session(Finished, Stopped, 0, false, s.now);
        s.(cell := cell, sessions := s.sessions[t := session])
    case Enter(t) =>
      s.(sessions := s.sessions[t := s.sessions[t].(body := Running, loop := Armed(s.now))])
    case Refresh(t, fate) =>
      if fate.RequestLost? then
        s.(sessions := s.sessions[t := s.sessions[t].(loop := InFlight(false, s.now))])
      else
        var extended := HeldBy(s.cell, s.now, t);
        var x := s.sessions[t];
        State(s.now,
              ExtendIfOwner(s.cell, s.now, t, p.ttl),
              s.sessions[t := x.(loop := InFlight(extended && fate.Answered?, s.now),
                                 leasedAt := if extended then s.now else x.leasedAt)])
    case Reply(t) =>
      s.(sessions := s.sessions[t := AfterReply(s.sessions[t], s.sessions[t].loop.extended, s.now)])
    case Finish(t) =>
      s.(sessions := s.sessions[t := AfterBody(s.sessions[t])])
    case Release(t, executed) =>
      s.(cell := if executed then DeleteIfOwner(s.cell, s.now, t) else s.cell,
         sessions := s.sessions[t := s.sessions[t].(body := Finished)])
    case Crash(t) =>
      s.(sessions := s.sessions[t := s.sessions[t].(body := Finished, loop := Stopped)])
  }

  predicate Legal(p: Params, s: State, run: seq<Event>)
    decreases |run|
  {
    run == [] || (Enabled(p, s, run[0]) && Legal(p, Next(p, s, run[0]), run[1..]))
  }

  function After(p: Params, s: State, run: seq<Event>): State
    requires Legal(p, s, run)
    decreases |run|
  {
    if run == [] then s else After(p, Next(p, s, run[0]), run[1..])
  }

  // ---------------------------------------------------------------- the signal

  /** What the refreshes of the call `t` have answered so far, in the order the replies were handled. */
  function Replies(p: Params, s: State, run: seq<Event>, t: Token): seq<bool>
    requires Legal(p, s, run)
    decreases |run|
  {
    if run == [] then []
    else
      (if run[0] == Reply(t) then [s.sessions[t].loop.extended] else [])
      + Replies(p, Next(p, s, run[0]), run[1..], t)
  }

  /** The length of the run of negative replies at the end. */
  function Trailing(replies: seq<bool>): nat {
    if replies == [] || replies[|replies| - 1] then 0 else 1 + Trailing(replies[..|replies| - 1])
  }

  predicate TwoInARow(replies: seq<bool>) {
    exists i | 0 < i < |replies| :: !replies[i - 1] && !replies[i]
  }

  /** What the counter, the flag and the timer of a call tell about its replies. */
  predicate Tells(s: State, t: Token, replies: seq<bool>) {
    if t in s.sessions then
      var x := s.sessions[t];
      && x.failures == Trailing(replies)
      && (x.aborted <==> TwoInARow(replies))
      && (x.aborted ==> x.loop.Stopped?)
      && (x.body.Entering? <==> x.loop.NotStarted?)
    else
      replies == []
  }

  lemma TwoInARowStep(replies: seq<bool>, reply: bool)
    ensures TwoInARow(replies + [reply]) <==>
            TwoInARow(replies) || (!reply && replies != [] && !replies[|replies| - 1])
    ensures Trailing(replies + [reply]) == if reply then 0 else 1 + Trailing(replies)
    ensures Trailing(replies) == 0 <==> replies == [] || replies[|replies| - 1]
  {
    var more := replies + [reply];
    assert more[..|replies|] == replies;
    if TwoInARow(replies) {
      var i :| 0 < i < |replies| && !replies[i - 1] && !replies[i];
      assert !more[i - 1] && !more[i];
    }
    if !reply && replies != [] && !replies[|replies| - 1] {
      assert !more[|replies| - 1] && !more[|replies|];
    }
  }

  lemma StepTells(p: Params, s: State, e: Event, t: Token, replies: seq<bool>)
    requires Enabled(p, s, e) && Tells(s, t, replies)
    ensures Tells(Next(p, s, e), t, replies + Replies(p, s, [e], t))
  {
    var more := Replies(p, s, [e], t);
    assert Replies(p, Next(p, s, e), [e][1..], t) == [];
    if e == Reply(t) {
      assert more == [s.sessions[t].loop.extended];
      TwoInARowStep(replies, more[0]);
    } else {
      assert replies + more == replies;
    }
  }

  lemma {:induction false} RunTells(p: Params, s: State, run: seq<Event>, t: Token, replies: seq<bool>)
    requires Legal(p, s, run) && Tells(s, t, replies)
    ensures Tells(After(p, s, run), t, replies + Replies(p, s, run, t))
    decreases |run|
  {
    if run == [] {
      assert replies + Replies(p, s, run, t) == replies;
    } else {
      var first := Replies(p, s, [run[0]], t);
      assert Replies(p, Next(p, s, run[0]), [run[0]][1..], t) == [];
      StepTells(p, s, run[0], t, replies);
      RunTells(p, Next(p, s, run[0]), run[1..], t, replies + first);
      assert (replies + first) + Replies(p, Next(p, s, run[0]), run[1..], t) == replies + Replies(p, s, run, t);
    }
  }

  /** Over every run the signal of a call has fired exactly when two adjacent replies were negative, and
      the counter is the length of the run of negative replies at the end: a refresh that
      extends clears it. */
  lemma SignalFiresIffTwoInARow(p: Params, run: seq<Event>, t: Token)
    requires Legal(p, Start, run) && t in After(p, Start, run).sessions
    ensures After(p, Start, run).sessions[t].aborted <==> TwoInARow(Replies(p, Start, run, t))
    ensures After(p, Start, run).sessions[t].failures == Trailing(Replies(p, Start, run, t))
  {
    RunTells(p, Start, run, t, []);
    assert [] + Replies(p, Start, run, t) == Replies(p, Start, run, t);
  }

  lemma ReplyRearms(p: Params, s: State, t: Token, replies: seq<bool>)
    requires Enabled(p, s, Reply(t)) && Tells(s, t, replies)
    ensures Next(p, s, Reply(t)).sessions[t].loop ==
            if TwoInARow(replies + [s.sessions[t].loop.extended]) then Stopped else Armed(s.now)
  {
    TwoInARowStep(replies, s.sessions[t].loop.extended);
  }

  /** When a reply has been handled the timer is armed again from that instant, unless this was the second
      negative reply in a row. */
  lemma TimerGoesOnUnlessLost(p: Params, run: seq<Event>, t: Token)
    requires Legal(p, Start, run) && Enabled(p, After(p, Start, run), Reply(t))
    ensures var s := After(p, Start, run);
            var replies := Replies(p, Start, run, t) + [s.sessions[t].loop.extended];
            Next(p, s, Reply(t)).sessions[t].loop == if TwoInARow(replies) then Stopped else Armed(s.now)
  {
    var s := After(p, Start, run);
    RunTells(p, Start, run, t, []);
    assert [] + Replies(p, Start, run, t) == Replies(p, Start, run, t);
    ReplyRearms(p, s, t, Replies(p, Start, run, t));
  }

  // ---------------------------------------------------------------- getting and giving back the key

  /** A call runs exactly when it finds the key free or expired and hears back; the key is its own for
      one TTL even if the answer is lost, and a live key is left as it is. */
  lemma AcquiredIff(p: Params, s: State, t: Token, fate: Fate)
    requires Enabled(p, s, Acquire(t, fate))
    ensures var s' := Next(p, s, Acquire(t, fate));
            && (t in s'.sessions && s'.sessions[t].body.Entering? <==> fate.Answered? && !Live(s.cell, s.now))
            && (s'.cell == if fate.RequestLost? || (s.cell.Held? && s.now < s.cell.expiresAt)
                           then s.cell
                           else Held(t, s.now + p.ttl))
            && forall u | u in s.sessions :: u in s'.sessions && s'.sessions[u] == s.sessions[u]
  {
  }

  /** A refresh answers true exactly when its reply arrives and Redis found the key live with this token; then,
      or when only the reply is lost, the key lives for one TTL from that instant. */
  lemma RefreshExtendsIff(p: Params, s: State, t: Token, fate: Fate)
    requires Enabled(p, s, Refresh(t, fate))
    ensures var s' := Next(p, s, Refresh(t, fate));
            var owned := s.cell.Held? && s.cell.token == t && s.now < s.cell.expiresAt;
            && s'.sessions[t].loop == InFlight(owned && fate.Answered?, s.now)
            && s'.sessions[t].body == s.sessions[t].body && s'.sessions[t].aborted == s.sessions[t].aborted
            && s'.cell == if owned && !fate.RequestLost? then Held(t, s.now + p.ttl) else s.cell
  {
  }

  /** A release that Redis executes leaves its own live key free, so that another call gets it at the same
      instant. */
  lemma ReleaseHandsTheKeyOver(p: Params, s: State, t: Token, u: Token)
    requires Enabled(p, s, Release(t, true)) && HeldBy(s.cell, s.now, t)
    requires u !in s.sessions
    ensures var s1 := Next(p, s, Release(t, true));
            && s1.now == s.now && !Live(s1.cell, s1.now) && s1.sessions[t].body.Finished?
            && Enabled(p, s1, Acquire(u, Answered))
            && var s2 := Next(p, s1, Acquire(u, Answered));
               s2.sessions[u].body.Entering? && s2.cell == Held(u, s.now + p.ttl)
  {
    var s1 := Next(p, s, Release(t, true));
    AcquiredIff(p, s1, u, Answered);
  }

  /** A release that is lost leaves the key to its TTL: no other call gets in before. */
  lemma LostReleaseKeepsTheKey(p: Params, s: State, t: Token, u: Token, fate: Fate)
    requires Enabled(p, s, Release(t, false)) && HeldBy(s.cell, s.now, t)
    requires u !in s.sessions
    ensures var s1 := Next(p, s, Release(t, false));
            s1.cell == s.cell && u !in Next(p, s1, Acquire(u, fate)).sessions
  {
  }

  // ---------------------------------------------------------------- safety

  predicate Exclusive(s: State) {
    forall t, u | t in s.sessions && u in s.sessions && Protected(s.sessions[t]) && Protected(s.sessions[u]) :: t == u
  }

  /** Two refresh periods and the five delays around them fit in one lease. */
  predicate FitsLease(p: Params) {
    2 * p.R() + 5 * p.lag < p.ttl
  }

  /** The delay one failed refresh adds. */
  function Slip(p: Params, s: Session): nat {
    if s.failures == 0 then 0 else p.R() + 2 * p.lag
  }

  /** How far behind the last lease a session that is still trusted can be. */
  predicate Timely(p: Params, s: Session, now: int) {
    && s.failures <= 1
    && s.leasedAt <= now
    && (match s.loop
        case NotStarted => now <= s.leasedAt + p.lag
        case Armed(since) =>
          && since <= s.leasedAt + p.lag + Slip(p, s)
          && now <= since + p.R() + p.lag
        case InFlight(extended, at) =>
          && now <= at + p.lag
          && (if extended then at <= s.leasedAt
              else at <= s.leasedAt + p.R() + 2 * p.lag + Slip(p, s))
        case Stopped => false)
  }

  predicate Trusted(x: Session) {
    (x.body.Entering? || x.body.Running?) && !x.aborted
  }

  /** A session that is entering or protected owns the key, with the expiry of its last lease. */
  predicate Backed(p: Params, s: State, t: Token)
    requires t in s.sessions
  {
    var x := s.sessions[t];
    Trusted(x) ==> s.cell == Held(t, x.leasedAt + p.ttl) && Timely(p, x, s.now)
  }

  predicate Fresh(s: Session) {
    s.body.Entering? <==> s.loop.NotStarted?
  }

  predicate Inv(p: Params, s: State) {
    forall t | t in s.sessions :: Backed(p, s, t) && Fresh(s.sessions[t])
  }

  lemma BackedIsLive(p: Params, s: State, t: Token)
    requires FitsLease(p) && t in s.sessions && Backed(p, s, t)
    requires Trusted(s.sessions[t])
    ensures HeldBy(s.cell, s.now, t)
  {
  }

  /** Requests for other tokens leave a backed session and its key alone. */
  lemma OthersKeepBacked(p: Params, s: State, e: Event, t: Token)
    requires Enabled(p, s, e) && t in s.sessions && !e.Pass? && e.token != t
    requires Trusted(s.sessions[t]) ==> HeldBy(s.cell, s.now, t)
    ensures t in Next(p, s, e).sessions && Next(p, s, e).sessions[t] == s.sessions[t] && Next(p, s, e).now == s.now
    ensures Trusted(s.sessions[t]) ==> Next(p, s, e).cell == s.cell
  {
  }

  /** A live key answers to nobody but its holder. */
  lemma LiveKeyStays(p: Params, s: State, e: Event, t: Token)
    requires Enabled(p, s, e) && !e.Pass? && e.token != t && HeldBy(s.cell, s.now, t)
    ensures Next(p, s, e).cell == s.cell && Next(p, s, e).now == s.now
  {
  }

  lemma PassKeepsBacked(p: Params, s: State, dt: nat, t: Token)
    requires Enabled(p, s, Pass(dt)) && t in s.sessions && Backed(p, s, t) && Fresh(s.sessions[t])
    ensures Backed(p, Next(p, s, Pass(dt)), t)
  {
    assert InTime(p, s.sessions[t], s.now + dt);
  }

  lemma OwnStepKeepsBacked(p: Params, s: State, e: Event, t: Token)
    requires FitsLease(p) && Enabled(p, s, e) && t in s.sessions && !e.Pass? && !e.Acquire? && e.token == t
    requires Backed(p, s, t) && Fresh(s.sessions[t])
    ensures t in Next(p, s, e).sessions && Backed(p, Next(p, s, e), t) && Fresh(Next(p, s, e).sessions[t])
  {
    if Trusted(s.sessions[t]) {
      BackedIsLive(p, s, t);
    }
  }

  lemma StepKeepsInv(p: Params, s: State, e: Event)
    requires FitsLease(p) && Inv(p, s) && Enabled(p, s, e)
    ensures Inv(p, Next(p, s, e))
  {
    var s' := Next(p, s, e);
    forall t | t in s'.sessions
      ensures Backed(p, s', t) && Fresh(s'.sessions[t])
    {
      if t in s.sessions {
        assert Backed(p, s, t);
        if Trusted(s.sessions[t]) {
          BackedIsLive(p, s, t);
        }
        if e.Pass? {
          PassKeepsBacked(p, s, e.dt, t);
        } else if e.token != t {
          OthersKeepBacked(p, s, e, t);
        } else {
          OwnStepKeepsBacked(p, s, e, t);
        }
      }
    }
  }

  lemma {:induction false} RunKeepsInv(p: Params, s: State, run: seq<Event>)
    requires FitsLease(p) && Inv(p, s) && Legal(p, s, run)
    ensures Inv(p, After(p, s, run))
    decreases |run|
  {
    if run != [] {
      StepKeepsInv(p, s, run[0]);
      RunKeepsInv(p, Next(p, s, run[0]), run[1..]);
    }
  }

  /** The lease protocol is safe: along every run, whatever the interleaving, whatever requests are
      lost and whenever keys expire, at most one un-aborted body runs. */
  lemma MutualExclusion(p: Params, run: seq<Event>)
    requires FitsLease(p) && Legal(p, Start, run)
    ensures Exclusive(After(p, Start, run))
    ensures forall t | t in After(p, Start, run).sessions && Protected(After(p, Start, run).sessions[t]) ::
              HeldBy(After(p, Start, run).cell, After(p, Start, run).now, t)
  {
    RunKeepsInv(p, Start, run);
    var s := After(p, Start, run);
    forall t | t in s.sessions && Protected(s.sessions[t])
      ensures HeldBy(s.cell, s.now, t)
    {
      BackedIsLive(p, s, t);
    }
  }

  /** No extend or release executed for one token changes a key that another token holds. */
  lemma ForeignKeyUntouched(p: Params, s: State, e: Event)
    requires Enabled(p, s, e) && (e.Refresh? || e.Release?)
    requires s.cell.Held? && s.cell.token != e.token
    ensures Next(p, s, e).cell == s.cell
  {
  }

  // ---------------------------------------------------------------- the bound is exact

  lemma Prepend(p: Params, s: State, e: Event, run: seq<Event>)
    requires Enabled(p, s, e) && Legal(p, Next(p, s, e), run)
    ensures Legal(p, s, [e] + run)
    ensures After(p, s, [e] + run) == After(p, Next(p, s, e), run)
  {
    assert ([e] + run)[1..] == run;
  }

  /** One holder loses two refreshes at the latest moments allowed while another call acquires the
      expired key just before the second reply is handled. */
  lemma LateRefreshesBreakExclusion(p: Params) returns (run: seq<Event>)
    requires !FitsLease(p)
    ensures Legal(p, Start, run) && !Exclusive(After(p, Start, run))
  {
    var r := p.R();
    var s1 := Next(p, Start, Acquire(0, Answered));
    var s2 := Next(p, s1, Pass(p.lag));
    var s3 := Next(p, s2, Enter(0));
    var s4 := Next(p, s3, Pass(r + p.lag));
    var s5 := Next(p, s4, Refresh(0, RequestLost));
    var s6 := Next(p, s5, Pass(p.lag));
    var s7 := Next(p, s6, Reply(0));
    var s8 := Next(p, s7, Pass(r + p.lag));
    var s9 := Next(p, s8, Refresh(0, RequestLost));
    var s10 := Next(p, s9, Pass(p.lag));
    var s11 := Next(p, s10, Acquire(1, Answered));
    var s12 := Next(p, s11, Enter(1));
    assert !Exclusive(s12) by {
      assert Protected(s12.sessions[0]) && Protected(s12.sessions[1]);
    }
    run := [];
    Prepend(p, s11, Enter(1), run);              run := [Enter(1)] + run;
    Prepend(p, s10, Acquire(1, Answered), run);  run := [Acquire(1, Answered)] + run;
    Prepend(p, s9, Pass(p.lag), run);            run := [Pass(p.lag)] + run;
    Prepend(p, s8, Refresh(0, RequestLost), run); run := [Refresh(0, RequestLost)] + run;
    Prepend(p, s7, Pass(r + p.lag), run);        run := [Pass(r + p.lag)] + run;
    Prepend(p, s6, Reply(0), run);               run := [Reply(0)] + run;
    Prepend(p, s5, Pass(p.lag), run);            run := [Pass(p.lag)] + run;
    Prepend(p, s4, Refresh(0, RequestLost), run); run := [Refresh(0, RequestLost)] + run;
    Prepend(p, s3, Pass(r + p.lag), run);        run := [Pass(r + p.lag)] + run;
    Prepend(p, s2, Enter(0), run);               run := [Enter(0)] + run;
    Prepend(p, s1, Pass(p.lag), run);            run := [Pass(p.lag)] + run;
    Prepend(p, Start, Acquire(0, Answered), run); run := [Acquire(0, Answered)] + run;
  }

  /** Exactly when the lease protects its task. */
  lemma ExclusionIffFitsLease(p: Params)
    ensures (forall run :: Legal(p, Start, run) ==> Exclusive(After(p, Start, run))) <==> FitsLease(p)
  {
    if FitsLease(p) {
      forall run | Legal(p, Start, run)
        ensures Exclusive(After(p, Start, run))
      {
        MutualExclusion(p, run);
      }
    } else {
      var run := LateRefreshesBreakExclusion(p);
    }
  }

  /** With instantaneous requests and punctual timers the condition is `ttlMs > 2000`; with the
      default TTL of 90 s every delay may be almost six seconds. */
  lemma LeaseBudget(ttl: nat)
    ensures FitsLease(Params(ttl, 0)) <==> ttl > 2000
    ensures forall lag: nat :: FitsLease(Params(90_000, lag)) <==> lag < 6000
  {
    assert RefreshInterval(90_000) == 30_000;
  }

  // ---------------------------------------------------------------- after the task

  /** The task is over and its refresh loop cannot come back. */
  predicate Quiet(s: Session) {
    s.body.Finished? && s.loop.Stopped?
  }

  /** Once a call has returned with its refresh loop stopped, nothing it did keeps the key
      beyond its last lease, whatever happens afterwards. */
  lemma {:induction false} QuietCallFreesTheKey(p: Params, s: State, run: seq<Event>, t: Token)
    requires Legal(p, s, run)
    requires t in s.sessions && Quiet(s.sessions[t])
    requires s.cell.Held? && s.cell.token == t ==> s.cell.expiresAt <= s.sessions[t].leasedAt + p.ttl
    ensures t in After(p, s, run).sessions && After(p, s, run).sessions[t] == s.sessions[t]
    ensures After(p, s, run).now >= s.sessions[t].leasedAt + p.ttl ==>
              !HeldBy(After(p, s, run).cell, After(p, s, run).now, t)
    decreases |run|
  {
    if run != [] {
      QuietCallFreesTheKey(p, Next(p, s, run[0]), run[1..], t);
    }
  }

  predicate NoTask(s: State) {
    forall t | t in s.sessions :: s.sessions[t].body.Finished?
  }

  /** No `withLock` call is left, yet the key is live and names this call. */
  predicate HeldWithoutTask(s: State, t: Token) {
    HeldBy(s.cell, s.now, t) && NoTask(s)
  }

  ghost predicate CanHoldAfterwards(p: Params, s: State, t: Token, time: int) {
    exists run | Legal(p, s, run) :: HeldWithoutTask(After(p, s, run), t) && After(p, s, run).now >= time
  }

  /** A refresh in flight whose reply will re-arm the timer. */
  predicate WillRearm(x: Session) {
    x.loop.InFlight? && (x.loop.extended || x.failures == 0)
  }

  /** The call has ended and no reply will re-arm its timer: its lease only runs out. */
  predicate Fading(p: Params, s: State, t: Token) {
    && t in s.sessions && !s.sessions[t].body.Entering? && !s.sessions[t].body.Running?
    && (s.sessions[t].loop.Stopped?
        || (s.sessions[t].loop.InFlight? && !s.sessions[t].loop.extended && s.sessions[t].failures > 0))
    && (s.cell.Held? && s.cell.token == t ==> s.cell.expiresAt <= s.sessions[t].leasedAt + p.ttl)
  }

  lemma {:induction false} FadingCallFreesTheKey(p: Params, s: State, run: seq<Event>, t: Token)
    requires Legal(p, s, run) && Fading(p, s, t)
    ensures Fading(p, After(p, s, run), t) && After(p, s, run).sessions[t].leasedAt == s.sessions[t].leasedAt
    decreases |run|
  {
    if run != [] {
      FadingStep(p, s, run[0], t);
      FadingCallFreesTheKey(p, Next(p, s, run[0]), run[1..], t);
    }
  }

  lemma FadingStep(p: Params, s: State, e: Event, t: Token)
    requires Enabled(p, s, e) && Fading(p, s, t)
    ensures Fading(p, Next(p, s, e), t) && Next(p, s, e).sessions[t].leasedAt == s.sessions[t].leasedAt
  {
  }

  /** The orphan: every call has ended, and this one's refresh has just been answered by Redis. */
  predicate Orphaned(p: Params, s: State, t: Token) {
    && NoTask(s) && t in s.sessions && s.cell == Held(t, s.now + p.ttl)
    && s.sessions[t].loop == InFlight(true, s.now) && !s.sessions[t].aborted
    && forall u | u in s.sessions && u != t :: s.sessions[u].loop.Stopped?
  }

  lemma {:induction false} OrphanRounds(p: Params, s: State, t: Token, rounds: nat) returns (run: seq<Event>)
    requires p.R() < p.ttl && Orphaned(p, s, t)
    ensures Legal(p, s, run)
    ensures Orphaned(p, After(p, s, run), t) && After(p, s, run).now >= s.now + rounds
    decreases rounds
  {
    if rounds == 0 {
      run := [];
    } else {
      var s1 := Next(p, s, Reply(t));
      var s2 := Next(p, s1, Pass(p.R()));
      var s3 := Next(p, s2, Refresh(t, Answered));
      run := OrphanRounds(p, s3, t, rounds - 1);
      Prepend(p, s2, Refresh(t, Answered), run); run := [Refresh(t, Answered)] + run;
      Prepend(p, s1, Pass(p.R()), run);          run := [Pass(p.R())] + run;
      Prepend(p, s, Reply(t), run);              run := [Reply(t)] + run;
    }
  }

  /** What is left of every other call once its process has died. */
  predicate Alone(s: State, t: Token) {
    forall u | u in s.sessions && u != t :: s.sessions[u].body.Finished? && s.sessions[u].loop.Stopped?
  }

  /** The processes of all other calls die. */
  lemma {:induction false} CrashOthers(p: Params, s: State, t: Token, others: set<Token>) returns (run: seq<Event>)
    requires others <= s.sessions.Keys && t in s.sessions && t !in others
    requires forall u | u in s.sessions && u != t && u !in others ::
               s.sessions[u].body.Finished? && s.sessions[u].loop.Stopped?
    ensures Legal(p, s, run)
    ensures var after := After(p, s, run);
            Alone(after, t) && after.now == s.now && after.cell == s.cell
            && t in after.sessions && after.sessions[t] == s.sessions[t]
    decreases |others|
  {
    if u :| u in others {
      run := CrashOthers(p, Next(p, s, Crash(u)), t, others - {u});
      Prepend(p, s, Crash(u), run);
      run := [Crash(u)] + run;
    } else {
      run := [];
    }
  }

  /** Alone, a call that has ended over a refresh that will re-arm the timer, while its key still has
      more than one refresh period to live, holds the key as long as one likes. */
  lemma EndedOverRefreshHolds(p: Params, s: State, t: Token, time: int)
    requires p.R() < p.ttl && t in s.sessions && Alone(s, t)
    requires s.sessions[t].body.Releasing? && WillRearm(s.sessions[t]) && !s.sessions[t].aborted
    requires s.cell.Held? && s.cell.token == t && s.now + p.R() < s.cell.expiresAt
    ensures CanHoldAfterwards(p, s, t, time)
  {
    var s1 := Next(p, s, Release(t, false));
    var s2 := Next(p, s1, Reply(t));
    var s3 := Next(p, s2, Pass(p.R()));
    var s4 := Next(p, s3, Refresh(t, Answered));
    var run := OrphanRounds(p, s4, t, if time > s4.now then time - s4.now else 0);
    Prepend(p, s3, Refresh(t, Answered), run);  run := [Refresh(t, Answered)] + run;
    Prepend(p, s2, Pass(p.R()), run);           run := [Pass(p.R())] + run;
    Prepend(p, s1, Reply(t), run);              run := [Reply(t)] + run;
    Prepend(p, s, Release(t, false), run);      run := [Release(t, false)] + run;
  }

  lemma Continue(p: Params, s: State, first: seq<Event>, t: Token, time: int)
    requires Legal(p, s, first) && CanHoldAfterwards(p, After(p, s, first), t, time)
    ensures CanHoldAfterwards(p, s, t, time)
  {
    var rest :| Legal(p, After(p, s, first), rest) && HeldWithoutTask(After(p, After(p, s, first), rest), t)
                 && After(p, After(p, s, first), rest).now >= time;
    Join(p, s, first, rest);
  }

  lemma {:induction false} Join(p: Params, s: State, first: seq<Event>, rest: seq<Event>)
    requires Legal(p, s, first) && Legal(p, After(p, s, first), rest)
    ensures Legal(p, s, first + rest) && After(p, s, first + rest) == After(p, After(p, s, first), rest)
    decreases |first|
  {
    if first == [] {
      assert first + rest == rest;
    } else {
      Join(p, Next(p, s, first[0]), first[1..], rest);
      Prepend(p, s, first[0], first[1..] + rest);
      assert [first[0]] + (first[1..] + rest) == first + rest;
    }
  }

  /** Exactly when the end of a task orphans its key: at that moment a refresh is in flight, and its reply will
      find the loop willing to go on. */
  lemma TaskEndOrphansKeyIff(p: Params, s: State, t: Token)
    requires FitsLease(p) && Inv(p, s) && t in s.sessions && Protected(s.sessions[t])
    ensures (forall time :: CanHoldAfterwards(p, Next(p, s, Finish(t)), t, time)) <==> WillRearm(s.sessions[t])
  {
    var s1 := Next(p, s, Finish(t));
    var lease := s.sessions[t].leasedAt + p.ttl;
    if WillRearm(s.sessions[t]) {
      forall time
        ensures CanHoldAfterwards(p, s1, t, time)
      {
        var crashes := CrashOthers(p, s1, t, s1.sessions.Keys - {t});
        EndedOverRefreshHolds(p, After(p, s1, crashes), t, time);
        Continue(p, s1, crashes, t, time);
      }
    } else {
      assert Fading(p, s1, t);
      forall run | Legal(p, s1, run) && HeldWithoutTask(After(p, s1, run), t)
        ensures After(p, s1, run).now < lease
      {
        FadingCallFreesTheKey(p, s1, run, t);
      }
      assert !CanHoldAfterwards(p, s1, t, lease);
    }
  }

  /** Such an end is reachable: from the first start there is, for every time, a run in which no task is left
      and the key is held at that time or later. */
  lemma OrphanedLoopHoldsTheKey(p: Params, time: int)
    requires p.R() < p.ttl
    ensures CanHoldAfterwards(p, Start, 0, time)
  {
    var r := p.R();
    var s1 := Next(p, Start, Acquire(0, Answered));
    var s2 := Next(p, s1, Enter(0));
    var s3 := Next(p, s2, Pass(r));
    var s4 := Next(p, s3, Refresh(0, Answered));
    var s5 := Next(p, s4, Finish(0));
    EndedOverRefreshHolds(p, s5, 0, time);
    var run := [];
    Prepend(p, s4, Finish(0), run);          run := [Finish(0)] + run;
    Prepend(p, s3, Refresh(0, Answered), run); run := [Refresh(0, Answered)] + run;
    Prepend(p, s2, Pass(r), run);            run := [Pass(r)] + run;
    Prepend(p, s1, Enter(0), run);           run := [Enter(0)] + run;
    Prepend(p, Start, Acquire(0, Answered), run); run := [Acquire(0, Answered)] + run;
    Continue(p, Start, run, 0, time);
  }
}
