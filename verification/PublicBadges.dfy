/** The public badge of one site, cached in Redis.  Renders, changes of the database and invalidations
    interleave between their round trips.  Times are milliseconds. */
module PublicBadges {
  import opened Common

  const CACHE_TTL_OK := 300_000
  const CACHE_TTL_NEUTRAL := 60_000

  /** What the query of a render selects: the flag and the score of the latest completed run. */
  datatype Row = NoSite | Row(enabled: bool, score: Option<int>)

  /** The drawing, up to its text. */
  datatype Badge = Off | Pending | Score(value: int)

  function Uncached(row: Row): Badge {
    if row.NoSite? || !row.enabled then Off
    else if row.score.None? then Pending
    else Score(row.score.value)
  }

  function Ttl(badge: Badge): int {
    if badge.Score? then CACHE_TTL_OK else CACHE_TTL_NEUTRAL
  }

  /** The score is shown exactly for a site whose badge is switched on and that has one; a site that is unknown or
      switched off shows neither its score nor that one is pending.  Scores are kept for five minutes
      and the other badges for one. */
  lemma BadgeShowsScoreIff(row: Row, score: int)
    ensures Uncached(row) == Score(score) <==> row.Row? && row.enabled && row.score == Some(score)
    ensures Uncached(row) == Pending <==> row.Row? && row.enabled && row.score.None?
    ensures Uncached(row) == Off <==> row == NoSite || !row.enabled
    ensures Ttl(Uncached(row)) == if row.Row? && row.enabled && row.score.Some? then 300_000 else 60_000
  {
  }

  /** `readAt`, when the badge was read from the database, is book-keeping; no step reads it. */
  datatype Cell = Cell(badge: Badge, expiresAt: int, readAt: int)

  predicate Live(cell: Option<Cell>, now: int) {
    cell.Some? && now < cell.value.expiresAt
  }

  function Written(badge: Badge, readAt: int, now: int): Option<Cell> {
    Some(Cell(badge, now + Ttl(badge), readAt))
  }

  /** The service of one site, one request after the other. */
  class BadgeCache {
    var cell: Option<Cell>

    constructor ()
      ensures cell == None
    {
      cell := None;
    }

    method RenderSvg(row: Row, now: int, getReached: bool, setReached: bool) returns (badge: Badge)
      modifies this
      ensures getReached && old(Live(cell, now)) ==> badge == old(cell).value.badge && cell == old(cell)
      ensures !(getReached && old(Live(cell, now))) ==>
                badge == Uncached(row) && cell == if setReached then Written(badge, now, now) else old(cell)
    {
      if getReached && cell.Some? && now < cell.value.expiresAt {
        return cell.value.badge;
      }
      var ttl;
      if row.NoSite? || !row.enabled {
        badge, ttl := Off, CACHE_TTL_NEUTRAL;
      } else if row.score.None? {
        badge, ttl := Pending, CACHE_TTL_NEUTRAL;
      } else {
        badge, ttl := Score(row.score.value), CACHE_TTL_OK;
      }
      if setReached {
        cell := Some(Cell(badge, now + ttl, now));
      }
    }

    method Invalidate(reached: bool)
      modifies this
      ensures cell == if reached then None else old(cell)
    {
      if reached {
        cell := None;
      }
    }
  }

  // ---------------------------------------------------------------- interleaved requests

  datatype Stage = Querying | Storing(badge: Badge, readAt: int) | Served(badge: Badge)

  datatype Change = Change(at: int, row: Row)

  type Log = log: seq<Change> | log != [] witness [Change(0, NoSite)]

  /** `log` holds the rows the site has had; the last one is the database. */
  datatype State = State(now: int, log: Log, cell: Option<Cell>, renders: seq<Stage>)

  function Database(s: State): Row {
    s.log[|s.log| - 1].row
  }

  function Init(row: Row): State {
    State(0, [Change(0, row)], None, [])
  }

  /** A render takes three round trips.  `reached` says whether Redis did what it was asked to; the code
      behaves the same either way.  `Evict` is any other loss of the key. */
  datatype Event =
    | Pass(duration: nat)
    | Update(row: Row)
    | Lookup(reached: bool)
    | Query(id: nat)
    | Store(id: nat, reached: bool)
    | Invalidate(reached: bool)
    | Evict

  predicate IsQuerying(s: State, id: nat) {
    id < |s.renders| && s.renders[id].Querying?
  }

  predicate IsStoring(s: State, id: nat) {
    id < |s.renders| && s.renders[id].Storing?
  }

  /** `delay` bounds the time from a render's query to its reply. */
  predicate Enabled(delay: nat, s: State, e: Event) {
    match e
    case Pass(d) => forall id | 0 <= id < |s.renders| && s.renders[id].Storing? ::
      s.now + d <= s.renders[id].readAt + delay
    case Query(id) => IsQuerying(s, id)
    case Store(id, _) => IsStoring(s, id)
    case _ => true
  }

  function Next(delay: nat, s: State, e: Event): State
    requires Enabled(delay, s, e)
  {
    match e
    case Pass(d) => s.(now := s.now + d)
    case Update(row) => s.(log := s.log + [Change(s.now, row)])
    case Lookup(reached) =>
      s.(renders := s.renders + [if reached && Live(s.cell, s.now) then Served(s.cell.value.badge) else Querying])
    case Query(id) => s.(renders := s.renders[id := Storing(Uncached(Database(s)), s.now)])
    case Store(id, reached) =>
      var r := s.renders[id];
      s.(renders := s.renders[id := Served(r.badge)],
         cell := if reached then Written(r.badge, r.readAt, s.now) else s.cell)
    case Invalidate(reached) => if reached then s.(cell := None) else s
    case Evict => s.(cell := None)
  }

  predicate Legal(delay: nat, s: State, run: seq<Event>)
    decreases |run|
  {
    run == [] || (Enabled(delay, s, run[0]) && Legal(delay, Next(delay, s, run[0]), run[1..]))
  }

  function After(delay: nat, s: State, run: seq<Event>): State
    requires Legal(delay, s, run)
    decreases |run|
  {
    if run == [] then s else After(delay, Next(delay, s, run[0]), run[1..])
  }

  /** The badge that this event hands to a visitor. */
  function Shows(s: State, e: Event): Option<Badge> {
    match e
    case Lookup(reached) => if reached && Live(s.cell, s.now) then Some(s.cell.value.badge) else None
    case Store(id, _) => if IsStoring(s, id) then Some(s.renders[id].badge) else None
    case _ => None
  }

  // ---------------------------------------------------------------- staleness

  predicate RowCovers(log: Log, i: nat, t: int) {
    i < |log| && log[i].at <= t && (i + 1 < |log| ==> t <= log[i + 1].at)
  }

  /** At time `t` a render without a cache would have shown `badge`. */
  predicate CurrentAt(log: Log, badge: Badge, t: int) {
    exists i | 0 <= i < |log| :: RowCovers(log, i, t) && Uncached(log[i].row) == badge
  }

  predicate CellOk(delay: nat, s: State) {
    s.cell.Some? ==>
      && CurrentAt(s.log, s.cell.value.badge, s.cell.value.readAt) && s.cell.value.readAt <= s.now
      && s.cell.value.expiresAt <= s.cell.value.readAt + delay + Ttl(s.cell.value.badge)
  }

  predicate RenderOk(delay: nat, s: State, r: Stage) {
    r.Storing? ==> CurrentAt(s.log, r.badge, r.readAt) && r.readAt <= s.now <= r.readAt + delay
  }

  predicate Inv(delay: nat, s: State) {
    && s.log[|s.log| - 1].at <= s.now
    && CellOk(delay, s)
    && forall id | 0 <= id < |s.renders| :: RenderOk(delay, s, s.renders[id])
  }

  lemma UpdateKeepsCurrent(log: Log, change: Change, badge: Badge, t: int)
    requires CurrentAt(log, badge, t) && t <= change.at
    ensures CurrentAt(log + [change], badge, t)
  {
    var i :| 0 <= i < |log| && RowCovers(log, i, t) && Uncached(log[i].row) == badge;
    assert RowCovers(log + [change], i, t);
  }

  lemma UpdateKeepsInv(delay: nat, s: State, row: Row)
    requires Inv(delay, s)
    ensures Inv(delay, s.(log := s.log + [Change(s.now, row)]))
  {
    var change := Change(s.now, row);
    var t := s.(log := s.log + [change]);
    if s.cell.Some? {
      UpdateKeepsCurrent(s.log, change, s.cell.value.badge, s.cell.value.readAt);
    }
    forall id | 0 <= id < |t.renders|
      ensures RenderOk(delay, t, t.renders[id])
    {
      assert RenderOk(delay, s, s.renders[id]);
      if s.renders[id].Storing? {
        UpdateKeepsCurrent(s.log, change, s.renders[id].badge, s.renders[id].readAt);
      }
    }
  }

  lemma StepKeepsInv(delay: nat, s: State, e: Event)
    requires Inv(delay, s) && Enabled(delay, s, e)
    ensures Inv(delay, Next(delay, s, e))
  {
    match e {
      case Update(row) => UpdateKeepsInv(delay, s, row);
      case Query(id) =>
        assert RowCovers(s.log, |s.log| - 1, s.now);
        assert CurrentAt(s.log, Uncached(Database(s)), s.now);
      case Store(id, _) => assert RenderOk(delay, s, s.renders[id]);
      case Pass(d) =>
        forall id | 0 <= id < |s.renders|
          ensures RenderOk(delay, Next(delay, s, e), s.renders[id])
        {
          assert RenderOk(delay, s, s.renders[id]);
        }
      case _ =>
    }
  }

  lemma {:induction false} RunKeepsInv(delay: nat, s: State, run: seq<Event>)
    requires Inv(delay, s) && Legal(delay, s, run)
    ensures Inv(delay, After(delay, s, run))
    decreases |run|
  {
    if run != [] {
      StepKeepsInv(delay, s, run[0]);
      RunKeepsInv(delay, Next(delay, s, run[0]), run[1..]);
    }
  }

  /** Whatever interleaves, a badge shown to a visitor was the uncached badge at some instant of the last
      five minutes (one minute for "off" and "pending"), give or take the delay of a render. */
  lemma BoundedStaleness(delay: nat, row: Row, run: seq<Event>, e: Event)
    requires Legal(delay, Init(row), run) && Shows(After(delay, Init(row), run), e).Some?
    ensures var s := After(delay, Init(row), run);
            var badge := Shows(s, e).value;
            exists t :: s.now - delay - Ttl(badge) < t <= s.now && CurrentAt(s.log, badge, t)
  {
    assert CurrentAt(Init(row).log, Uncached(row), 0) by {
      assert RowCovers(Init(row).log, 0, 0);
    }
    RunKeepsInv(delay, Init(row), run);
    var s := After(delay, Init(row), run);
    if e.Store? {
      assert RenderOk(delay, s, s.renders[e.id]);
    }
  }

  lemma Prepend(delay: nat, s: State, e: Event, run: seq<Event>)
    requires Enabled(delay, s, e) && Legal(delay, Next(delay, s, e), run)
    ensures Legal(delay, s, [e] + run)
    ensures After(delay, s, [e] + run) == After(delay, Next(delay, s, e), run)
  {
    assert ([e] + run)[1..] == run;
  }

  /** The bound cannot be improved: the score changes while a render is between its query and its SET,
      and the old score is shown until the last millisecond of the entry. */
  lemma StalenessIsReached(delay: nat, before: int, after: int)
    requires before != after
    ensures exists run | Legal(delay, Init(Row(true, Some(before))), run) ::
              var s := After(delay, Init(Row(true, Some(before))), run);
              Shows(s, Lookup(true)) == Some(Score(before))
              && forall t | s.now - delay - CACHE_TTL_OK + 1 < t <= s.now :: !CurrentAt(s.log, Score(before), t)
  {
    var s0 := Init(Row(true, Some(before)));
    var s1 := Next(delay, s0, Lookup(true));
    var s2 := Next(delay, s1, Query(0));
    var s3 := Next(delay, s2, Update(Row(true, Some(after))));
    var s4 := Next(delay, s3, Pass(delay));
    var s5 := Next(delay, s4, Store(0, true));
    var s6 := Next(delay, s5, Pass(CACHE_TTL_OK - 1));
    var run := [];
    Prepend(delay, s5, Pass(CACHE_TTL_OK - 1), run);            run := [Pass(CACHE_TTL_OK - 1)] + run;
    Prepend(delay, s4, Store(0, true), run);                    run := [Store(0, true)] + run;
    Prepend(delay, s3, Pass(delay), run);                       run := [Pass(delay)] + run;
    Prepend(delay, s2, Update(Row(true, Some(after))), run);     run := [Update(Row(true, Some(after)))] + run;
    Prepend(delay, s1, Query(0), run);                          run := [Query(0)] + run;
    Prepend(delay, s0, Lookup(true), run);                      run := [Lookup(true)] + run;
    assert s6.log == [Change(0, Row(true, Some(before))), Change(0, Row(true, Some(after)))];
    assert After(delay, s0, run) == s6;
  }

  // ---------------------------------------------------------------- invalidation

  /** The uncached badge of one of the rows from the n-th on. */
  predicate ShownSince(log: Log, n: nat, badge: Badge) {
    exists i | n <= i < |log| :: Uncached(log[i].row) == badge
  }

  predicate CacheSince(s: State, n: nat) {
    && (s.cell.Some? ==> ShownSince(s.log, n, s.cell.value.badge))
    && forall id | 0 <= id < |s.renders| && s.renders[id].Storing? :: ShownSince(s.log, n, s.renders[id].badge)
  }

  lemma ShownCarriesOver(log: Log, change: Change, n: nat, badge: Badge)
    requires ShownSince(log, n, badge)
    ensures ShownSince(log + [change], n, badge)
  {
    var i :| n <= i < |log| && Uncached(log[i].row) == badge;
    assert (log + [change])[i] == log[i];
  }

  lemma StepKeepsSince(delay: nat, s: State, n: nat, e: Event)
    requires CacheSince(s, n) && n < |s.log| && Enabled(delay, s, e)
    ensures CacheSince(Next(delay, s, e), n)
  {
    var t := Next(delay, s, e);
    if e.Update? {
      if s.cell.Some? {
        ShownCarriesOver(s.log, Change(s.now, e.row), n, s.cell.value.badge);
      }
      forall id | 0 <= id < |t.renders| && t.renders[id].Storing?
        ensures ShownSince(t.log, n, t.renders[id].badge)
      {
        ShownCarriesOver(s.log, Change(s.now, e.row), n, s.renders[id].badge);
      }
    }
  }

  lemma {:induction false} RunKeepsSince(delay: nat, s: State, n: nat, run: seq<Event>)
    requires CacheSince(s, n) && n < |s.log| && Legal(delay, s, run)
    ensures CacheSince(After(delay, s, run), n)
    decreases |run|
  {
    if run != [] {
      StepKeepsSince(delay, s, n, run[0]);
      RunKeepsSince(delay, Next(delay, s, run[0]), n, run[1..]);
    }
  }

  /** No render is on its way to the cache with a badge that the database no longer gives. */
  predicate NoStaleRender(s: State) {
    forall id | 0 <= id < |s.renders| && s.renders[id].Storing? :: s.renders[id].badge == Uncached(Database(s))
  }

  /** From now on a lookup that hits shows what some row since now gives. */
  ghost predicate HitsAreNew(delay: nat, s: State) {
    forall run | Legal(delay, s, run) && Shows(After(delay, s, run), Lookup(true)).Some? ::
      ShownSince(After(delay, s, run).log, |s.log| - 1, Shows(After(delay, s, run), Lookup(true)).value)
  }

  /** Exactly when an invalidation that reaches Redis puts an end to all older badges. */
  lemma InvalidationHoldsIffNoStaleRender(delay: nat, s: State)
    ensures HitsAreNew(delay, Next(delay, s, Invalidate(true))) <==> NoStaleRender(s)
  {
    var t := Next(delay, s, Invalidate(true));
    if NoStaleRender(s) {
      assert CacheSince(t, |s.log| - 1);
      forall run | Legal(delay, t, run) && Shows(After(delay, t, run), Lookup(true)).Some?
        ensures ShownSince(After(delay, t, run).log, |t.log| - 1, Shows(After(delay, t, run), Lookup(true)).value)
      {
        RunKeepsSince(delay, t, |s.log| - 1, run);
      }
    } else {
      var id :| 0 <= id < |s.renders| && s.renders[id].Storing? && s.renders[id].badge != Uncached(Database(s));
      var run := [Store(id, true)];
      Prepend(delay, t, Store(id, true), []);
      assert [Store(id, true)] + [] == run;
      var u := After(delay, t, run);
      assert Shows(u, Lookup(true)) == Some(s.renders[id].badge);
      assert u.log == s.log;
    }
  }

  /** The promise of the toggle, one request after the other: the first render after an invalidation that
      reached Redis shows the present badge, whatever was cached and whatever Redis does next. */
  method FirstRenderAfterInvalidate(cache: BadgeCache, row: Row, now: int, getReached: bool, setReached: bool)
    returns (badge: Badge)
    modifies cache
    ensures badge == Uncached(row)
  {
    cache.Invalidate(true);
    badge := cache.RenderSvg(row, now, getReached, setReached);
  }
}
