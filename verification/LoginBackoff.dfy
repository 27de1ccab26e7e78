/** The per-account brake on failed logins: a strike counter and a lock, two expiring Redis keys of one
    email.  Times are whole seconds. */
module LoginBackoff {
  import opened Common

  const LOGIN_LOCK_THRESHOLD := 5
  const LOGIN_BASE_LOCK_SECONDS := 60
  const LOGIN_MAX_LOCK_SECONDS := 30 * 60
  const LOGIN_STRIKE_WINDOW_SECONDS := 60 * 60
  const LOGIN_ALERT_STRIKES := 8

  /** The lock that strike number `strikes` sets. */
  function LockSeconds(strikes: nat): nat
    requires strikes >= LOGIN_LOCK_THRESHOLD
  {
    var doubled := LOGIN_BASE_LOCK_SECONDS * Pow2(strikes - LOGIN_LOCK_THRESHOLD);
    if doubled < LOGIN_MAX_LOCK_SECONDS then doubled else LOGIN_MAX_LOCK_SECONDS
  }

  /** Both keys.  `strikes == 0` means that the counter does not exist; a counter without `strikesUntil`
      has no time to live.  `life` (when each strike of the current counter was recorded) and `alerts`
      (recovery emails sent for it) are book-keeping of the model; no step reads them. */
  datatype Brake = Brake(strikes: nat, strikesUntil: Option<int>, lockUntil: Option<int>, life: seq<int>, alerts: nat)

  const Released := Brake(0, None, None, [], 0)

  predicate Alive(until: Option<int>, now: int) {
    until.None? || now < until.value
  }

  predicate Counting(b: Brake, now: int) {
    b.strikes > 0 && Alive(b.strikesUntil, now)
  }

  predicate Locked(b: Brake, now: int) {
    b.lockUntil.Some? && now < b.lockUntil.value
  }

  /** How far `recordLoginFailure` gets before Redis times out: not at all, past INCR, past EXPIRE, or
      past SET with the reply lost; a timeout is swallowed.  `Up` is the undisturbed run. */
  datatype Redis = Up | FailsAtIncr | FailsAtExpire | FailsAtSet | FailsAfterSet

  function Incremented(b: Brake, now: int): Brake {
    if Counting(b, now) then b.(strikes := b.strikes + 1, life := b.life + [now])
    else b.(strikes := 1, strikesUntil := None, life := [now], alerts := 0)
  }

  function Recorded(b: Brake, now: int, known: bool, redis: Redis): Brake {
    if redis == FailsAtIncr then b
    else
      var counted := Incremented(b, now);
      if redis == FailsAtExpire then counted
      else
        var kept := counted.(strikesUntil := Some(now + LOGIN_STRIKE_WINDOW_SECONDS));
        if kept.strikes < LOGIN_LOCK_THRESHOLD || redis == FailsAtSet then kept
        else
          var locked := kept.(lockUntil := Some(now + LockSeconds(kept.strikes)));
          if redis == Up && kept.strikes == LOGIN_ALERT_STRIKES && known then locked.(alerts := kept.alerts + 1)
          else locked
  }

  /** The two keys in Redis and the emails they trigger. */
  class LoginGuard {
    var strikes: nat
    var strikesUntil: Option<int>
    var lockUntil: Option<int>
    ghost var life: seq<int>
    var alerts: nat

    ghost function View(): Brake
      reads this
    {
      Brake(strikes, strikesUntil, lockUntil, life, alerts)
    }

    constructor ()
      ensures View() == Released
    {
      strikes, strikesUntil, lockUntil, life, alerts := 0, None, None, [], 0;
    }

    /** Fails open: an unreachable Redis reads as "not locked". */
    method AssertNotLockedOut(now: int, reachable: bool) returns (locked: bool)
      ensures locked == (reachable && Locked(View(), now))
    {
      if !reachable {
        return false;
      }
      locked := lockUntil.Some? && now < lockUntil.value;
    }

    method RecordLoginFailure(now: int, known: bool, redis: Redis)
      modifies this
      ensures View() == Recorded(old(View()), now, known, redis)
    {
      if redis == FailsAtIncr {
        return;
      }
      if strikes > 0 && (strikesUntil.None? || now < strikesUntil.value) {
        strikes, life := strikes + 1, life + [now];
      } else {
        strikes, strikesUntil, life, alerts := 1, None, [now], 0;
      }
      if redis == FailsAtExpire {
        return;
      }
      strikesUntil := Some(now + LOGIN_STRIKE_WINDOW_SECONDS);
      if strikes < LOGIN_LOCK_THRESHOLD || redis == FailsAtSet {
        return;
      }
      lockUntil := Some(now + LockSeconds(strikes));
      if redis == Up && strikes == LOGIN_ALERT_STRIKES && known {
        alerts := alerts + 1;
      }
    }

    method ClearLoginFailures(reachable: bool)
      modifies this
      ensures View() == if reachable then Released else old(View())
    {
      if reachable {
        strikes, strikesUntil, lockUntil, life, alerts := 0, None, None, [], 0;
      }
    }
  }

  // ---------------------------------------------------------------- runs of logins

  /** One login or one completed password reset for the email.  A login reads the lock at `checkedAt` and
      knows the password check's result at `at`. */
  datatype Event =
    | Login(checkedAt: int, at: int, known: bool, correct: bool, reachable: bool, redis: Redis)
    | PasswordReset(at: int, reachable: bool)

  predicate Refused(b: Brake, e: Event) {
    e.Login? && e.reachable && Locked(b, e.checkedAt)
  }

  function Step(b: Brake, e: Event): Brake {
    match e
    case Login(_, at, known, correct, reachable, redis) =>
      if Refused(b, e) then b
      else if known && correct then (if reachable then Released else b)
      else Recorded(b, at, known, redis)
    case PasswordReset(_, reachable) => if reachable then Released else b
  }

  function After(run: seq<Event>): Brake {
    if run == [] then Released else Step(After(run[..|run| - 1]), run[|run| - 1])
  }

  function Started(e: Event): int {
    if e.Login? then e.checkedAt else e.at
  }

  /** Handled one after the other, starting from time 0. */
  predicate Serialised(run: seq<Event>) {
    && (forall i | 0 <= i < |run| :: 0 <= Started(run[i]) <= run[i].at)
    && (forall i, j | 0 <= i < j < |run| :: run[i].at <= Started(run[j]))
  }

  predicate RedisUp(run: seq<Event>) {
    forall i | 0 <= i < |run| :: run[i].reachable && (run[i].Login? ==> run[i].redis == Up)
  }

  // ---------------------------------------------------------------- what always holds

  /** Up to time `now`, whatever Redis failures there were: the counter counts its own life, a lock
      lifts within half an hour and before the counter that set it, and the owner has been alerted at
      most once in this life. */
  predicate Sound(b: Brake, now: int) {
    && b.strikes == |b.life|
    && (b.strikesUntil.Some? ==> b.strikesUntil.value <= now + LOGIN_STRIKE_WINDOW_SECONDS)
    && (b.lockUntil.Some? ==>
          && b.strikes > 0
          && b.lockUntil.value <= now + LOGIN_MAX_LOCK_SECONDS
          && (b.strikesUntil.None? || b.lockUntil.value < b.strikesUntil.value))
    && b.alerts <= if b.strikes >= LOGIN_ALERT_STRIKES then 1 else 0
  }

  lemma StepKeepsSound(b: Brake, e: Event, before: int)
    requires Sound(b, before) && before <= Started(e) <= e.at
    ensures Sound(Step(b, e), e.at)
  {
  }

  function LastInstant(run: seq<Event>): int {
    if run == [] then 0 else run[|run| - 1].at
  }

  lemma {:induction false} RunKeepsSound(run: seq<Event>)
    requires Serialised(run)
    ensures Sound(After(run), LastInstant(run))
  {
    if run != [] {
      var init := run[..|run| - 1];
      RunKeepsSound(init);
      StepKeepsSound(After(init), run[|run| - 1], LastInstant(init));
    }
  }

  /** Along every serialised run, even with Redis failing at any command: an active lock implies an active
      strike counter, no lock outlasts the last event by more than 30 minutes, and one counter life
      sends at most one recovery email. */
  lemma {:induction false} LockImpliesCounter(run: seq<Event>, now: int)
    requires Serialised(run) && LastInstant(run) <= now
    ensures Locked(After(run), now) ==> Counting(After(run), now) && now < LastInstant(run) + 1800
    ensures After(run).alerts <= 1
  {
    RunKeepsSound(run);
  }

  /** Did every failure recorded in the present life of the counter lose its EXPIRE? */
  predicate EveryExpireLost(run: seq<Event>) {
    run != []
    && var (init, e) := (run[..|run| - 1], run[|run| - 1]);
       if Refused(After(init), e) then EveryExpireLost(init)
       else if e.PasswordReset? || (e.known && e.correct) then !e.reachable && EveryExpireLost(init)
       else match e.redis
            case FailsAtIncr => EveryExpireLost(init)
            case FailsAtExpire => !Counting(After(init), e.at) || EveryExpireLost(init)
            case _ => false
  }

  lemma {:induction false} LostExpiresShow(run: seq<Event>)
    ensures EveryExpireLost(run) <==> After(run).strikes > 0 && After(run).strikesUntil.None?
  {
    if run != [] {
      LostExpiresShow(run[..|run| - 1]);
    }
  }

  /** The one-hour window: after an hour without events the strikes are forgotten, except exactly when no
      EXPIRE of this life of the counter reached Redis; then they are remembered for ever. */
  lemma {:induction false} HourlyWindowIff(run: seq<Event>, now: int)
    requires Serialised(run) && LastInstant(run) + 3600 <= now
    ensures Counting(After(run), now) <==> EveryExpireLost(run)
  {
    RunKeepsSound(run);
    LostExpiresShow(run);
  }

  /** One first failure whose EXPIRE times out is enough. */
  lemma LostExpireNeverForgets(now: int)
    requires now >= 0
    ensures var run := [Login(0, 0, true, false, true, FailsAtExpire)];
            Serialised(run) && Counting(After(run), now)
  {
    var run := [Login(0, 0, true, false, true, FailsAtExpire)];
    assert run[..0] == [];
  }

  // ---------------------------------------------------------------- the backoff

  /** From the fifth strike on, consecutive strikes are at least one lock apart. */
  predicate Spaced(b: Brake) {
    && b.strikes == |b.life|
    && (forall i | LOGIN_LOCK_THRESHOLD <= i < |b.life| :: b.life[i] >= b.life[i - 1] + LockSeconds(i))
    && (b.strikes >= LOGIN_LOCK_THRESHOLD ==>
          b.lockUntil == Some(b.life[|b.life| - 1] + LockSeconds(b.strikes)))
  }

  lemma {:induction false} RunKeepsSpaced(run: seq<Event>)
    requires Serialised(run) && RedisUp(run)
    ensures Spaced(After(run))
  {
    if run != [] {
      RunKeepsSpaced(run[..|run| - 1]);
    }
  }

  /** The locks set by the strikes `LOGIN_LOCK_THRESHOLD` to `n - 1`, end to end. */
  function LocksBefore(n: nat): nat {
    if n <= LOGIN_LOCK_THRESHOLD then 0 else LocksBefore(n - 1) + LockSeconds(n - 1)
  }

  lemma {:induction false} Pow2Grows(n: nat)
    ensures Pow2(n) >= 1 && (n >= 5 ==> Pow2(n) >= 32)
  {
    if n > 0 {
      Pow2Grows(n - 1);
      if n == 5 {
        assert Pow2(1) == 2 && Pow2(2) == 4 && Pow2(3) == 8 && Pow2(4) == 16;
      }
    }
  }

  lemma {:induction false} LocksAddUp(n: nat)
    requires n >= 10
    ensures LocksBefore(n) == 1860 + 1800 * (n - 10)
  {
    if n == 10 {
      assert Pow2(1) == 2 && Pow2(2) == 4 && Pow2(3) == 8 && Pow2(4) == 16;
      assert LocksBefore(6) == 60 && LocksBefore(7) == 180 && LocksBefore(8) == 420 && LocksBefore(9) == 900;
    } else {
      LocksAddUp(n - 1);
      Pow2Grows(n - 1 - LOGIN_LOCK_THRESHOLD);
    }
  }

  lemma {:induction false} SpacedAddsUp(b: Brake, n: nat)
    requires Spaced(b) && LOGIN_LOCK_THRESHOLD <= n <= |b.life|
    ensures b.life[n - 1] - b.life[LOGIN_LOCK_THRESHOLD - 1] >= LocksBefore(n)
  {
    if n > LOGIN_LOCK_THRESHOLD {
      SpacedAddsUp(b, n - 1);
    }
  }

  /** The brake: over every serialised run with Redis up, the n-th failed password check of one counter
      life (n >= 10) comes at least 1860 + 1800 (n - 10) seconds after the fifth. */
  lemma BackoffBound(run: seq<Event>, n: nat)
    requires Serialised(run) && RedisUp(run) && 10 <= n <= |After(run).life|
    ensures After(run).life[n - 1] - After(run).life[4] >= 1860 + 1800 * (n - 10)
  {
    RunKeepsSpaced(run);
    SpacedAddsUp(After(run), n);
    LocksAddUp(n);
  }

  // ---------------------------------------------------------------- the bound is reached

  /** Five wrong passwords at once, then one at each moment a lock lifts. */
  function Attack(n: nat): seq<Event> {
    if n == 0 then []
    else Attack(n - 1) + [Login(LocksBefore(n), LocksBefore(n), true, false, true, Up)]
  }

  lemma {:induction false} AttackTimes(n: nat)
    ensures |Attack(n)| == n
    ensures forall i | 0 <= i < n ::
              Attack(n)[i] == Login(LocksBefore(i + 1), LocksBefore(i + 1), true, false, true, Up)
  {
    if n > 0 {
      AttackTimes(n - 1);
    }
  }

  lemma {:induction false} LocksBeforeGrows(m: nat, n: nat)
    requires m <= n
    ensures LocksBefore(m) <= LocksBefore(n)
    decreases n - m
  {
    if m < n {
      LocksBeforeGrows(m, n - 1);
    }
  }

  predicate Attacked(b: Brake, n: nat) {
    && b.strikes == n && |b.life| == n
    && (forall i | 0 <= i < n :: b.life[i] == LocksBefore(i + 1))
    && (n > 0 ==> b.strikesUntil == Some(LocksBefore(n) + LOGIN_STRIKE_WINDOW_SECONDS))
    && (b.lockUntil == if n < LOGIN_LOCK_THRESHOLD then None else Some(LocksBefore(n) + LockSeconds(n)))
  }

  lemma AttackOnce(b: Brake, n: nat)
    requires Attacked(b, n)
    ensures Attacked(Step(b, Login(LocksBefore(n + 1), LocksBefore(n + 1), true, false, true, Up)), n + 1)
  {
    var t := LocksBefore(n + 1);
    assert t == LocksBefore(n) + if n < LOGIN_LOCK_THRESHOLD then 0 else LockSeconds(n);
    assert !Locked(b, t);
    assert n > 0 ==> Counting(b, t);
  }

  lemma {:induction false} AttackCounts(n: nat)
    ensures Attacked(After(Attack(n)), n)
  {
    if n > 0 {
      assert Attack(n)[..|Attack(n)| - 1] == Attack(n - 1);
      AttackCounts(n - 1);
      AttackOnce(After(Attack(n - 1)), n - 1);
    }
  }

  /** The bound cannot be improved: a run with Redis up reaches it for every n. */
  lemma BackoffBoundIsReached(n: nat)
    requires n >= 10
    ensures exists run :: Serialised(run) && RedisUp(run) && |After(run).life| == n
                          && After(run).life[n - 1] - After(run).life[4] == 1860 + 1800 * (n - 10)
  {
    var run := Attack(n);
    AttackTimes(n);
    AttackCounts(n);
    LocksAddUp(n);
    forall i, j | 0 <= i < j < |run|
      ensures run[i].at <= Started(run[j])
    {
      LocksBeforeGrows(i + 1, j + 1);
    }
    assert Serialised(run) && RedisUp(run);
  }

  // ---------------------------------------------------------------- the lock and the email of each strike

  /** The locks are 1, 2, 4, 8 and 16 minutes, and half an hour from the tenth strike on. */
  lemma LocksDouble(strikes: nat)
    requires strikes >= 5
    ensures LockSeconds(5) == 60
    ensures strikes < 9 ==> LockSeconds(strikes + 1) == 2 * LockSeconds(strikes)
    ensures strikes >= 10 ==> LockSeconds(strikes) == 1800
  {
    assert Pow2(0) == 1 && Pow2(1) == 2 && Pow2(2) == 4 && Pow2(3) == 8 && Pow2(4) == 16;
    Pow2Grows(strikes - 5);
  }

  /** The event is a failed password check that Redis hears of. */
  predicate Strikes(b: Brake, e: Event) {
    e.Login? && !Refused(b, e) && !(e.known && e.correct) && e.redis != FailsAtIncr
  }

  /** An email goes out exactly when the eighth strike of a known user is recorded without a timeout. */
  lemma AlertIffEighthStrike(b: Brake, e: Event)
    requires Strikes(b, e) && Counting(b, e.at)
    ensures Step(b, e).alerts == b.alerts + if b.strikes == 7 && e.known && e.redis == Up then 1 else 0
    ensures Step(b, e).strikes == b.strikes + 1
  {
  }

  /** With Redis up, a life of the counter of a known user has had its email exactly from the eighth strike on. */
  lemma {:induction false} AlertedFromEighthStrike(run: seq<Event>)
    requires RedisUp(run) && forall i | 0 <= i < |run| :: run[i].Login? ==> run[i].known
    ensures After(run).alerts == if After(run).strikes >= 8 then 1 else 0
  {
    if run != [] {
      AlertedFromEighthStrike(run[..|run| - 1]);
    }
  }

  /** A login while the lock is read as active changes nothing; the right password and a completed reset forget the
      strikes and lift the lock when Redis is reached. */
  lemma OnlyStrikesCount(b: Brake, e: Event)
    ensures e.Login? && e.reachable && b.lockUntil.Some? && e.checkedAt < b.lockUntil.value ==> Step(b, e) == b
    ensures !Strikes(b, e) && !Refused(b, e) && e.reachable && (e.Login? ==> e.redis != FailsAtIncr) ==>
              Step(b, e).strikes == 0 && Step(b, e).lockUntil == None
    ensures !Strikes(b, e) && !e.reachable ==> Step(b, e) == b
  {
  }
}
