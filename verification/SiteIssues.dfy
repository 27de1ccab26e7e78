/** The issues of one site across audit runs: `reconcileAfterRun`, `setState`, `getIgnoredFingerprints`
    and the ignored-issue filter of the audit worker. */
module SiteIssues {
  import opened Common
  import opened Text

  /** Issue codes are enum literals such as MISSING_TITLE; none contains a colon. */
  type IssueCode = c: string | ':' !in c witness ""

  type RunId = nat
  type UserId = nat
  type Severity = nat
  type Category = nat

  datatype IssueState = OPEN | FIXED | IGNORED

  /** A row of `audit_issues`. */
  datatype IssueRow = IssueRow(issueCode: IssueCode, resourceUrl: Option<string>, severity: Severity,
                               category: Category, message: string)

  /** What the unique index on `site_issues` identifies within a site. */
  datatype Key = Key(issueCode: IssueCode, resourceKey: string)

  function FingerprintResource(resourceUrl: Option<string>): string {
    match resourceUrl
    case None => ""
    case Some(url) => Trim(url)
  }

  function KeyOf(row: IssueRow): Key {
    Key(row.issueCode, FingerprintResource(row.resourceUrl))
  }

  /** Two rows are the same issue exactly when their codes are equal and their URLs are equal up to white space at
      the ends; no URL counts as the empty one. */
  lemma SameKeyIff(a: IssueRow, b: IssueRow)
    ensures KeyOf(a) == KeyOf(b) <==>
            && a.issueCode == b.issueCode
            && Trim(if a.resourceUrl.Some? then a.resourceUrl.value else "")
               == Trim(if b.resourceUrl.Some? then b.resourceUrl.value else "")
  {
  }

  /** The string the code uses as the key of its maps and sets.  It identifies the `Key`, so the maps
      and sets below are keyed by `Key` itself. */
  function Fingerprint(k: Key): string {
    k.issueCode + "::" + k.resourceKey
  }

  lemma FingerprintInjective(k: Key, l: Key)
    ensures Fingerprint(k) == Fingerprint(l) <==> k == l
  {
    if Fingerprint(k) == Fingerprint(l) {
      var f := Fingerprint(k);
      var m, n := |k.issueCode|, |l.issueCode|;
      assert f[m] == ':' && f[n] == ':';
      assert forall i | 0 <= i < m :: f[i] == k.issueCode[i];
      assert forall i | 0 <= i < n :: f[i] == l.issueCode[i];
      assert m == n;
      assert k.issueCode == f[..m] == l.issueCode;
      assert k.resourceKey == f[m + 2..] == l.resourceKey;
    }
  }

  // ---------------------------------------------------------------- grouping a run's rows

  function Occurrences(rows: seq<IssueRow>, k: Key): nat {
    if rows == [] then 0
    else Occurrences(rows[..|rows| - 1], k) + if KeyOf(rows[|rows| - 1]) == k then 1 else 0
  }

  function KeysOf(rows: seq<IssueRow>): set<Key> {
    if rows == [] then {} else KeysOf(rows[..|rows| - 1]) + {KeyOf(rows[|rows| - 1])}
  }

  predicate Occurs(rows: seq<IssueRow>, k: Key) {
    k in KeysOf(rows)
  }

  lemma {:induction false} OccursIffCounted(rows: seq<IssueRow>, k: Key)
    ensures Occurs(rows, k) <==> Occurrences(rows, k) > 0
    ensures Occurs(rows, k) <==> exists i | 0 <= i < |rows| :: KeyOf(rows[i]) == k
  {
    if rows != [] {
      var init := rows[..|rows| - 1];
      OccursIffCounted(init, k);
      if Occurs(init, k) {
        var i :| 0 <= i < |init| && KeyOf(init[i]) == k;
        assert KeyOf(rows[i]) == k;
      }
    }
  }

  function PositionsOf(rows: seq<IssueRow>, k: Key): set<nat> {
    set i: nat | i < |rows| && KeyOf(rows[i]) == k
  }

  lemma {:induction false} OccurrencesExact(rows: seq<IssueRow>, k: Key)
    ensures Occurrences(rows, k) == |PositionsOf(rows, k)|
  {
    if rows == [] {
      assert PositionsOf(rows, k) == {};
    } else {
      var init, n := rows[..|rows| - 1], |rows| - 1;
      OccurrencesExact(init, k);
      assert PositionsOf(rows, k) == PositionsOf(init, k) + if KeyOf(rows[n]) == k then {n} else {};
    }
  }

  /** The first row of the run with this key; its severity, category and message are kept. */
  function FirstRow(rows: seq<IssueRow>, k: Key): IssueRow
    requires Occurs(rows, k)
  {
    var init := rows[..|rows| - 1];
    if Occurs(init, k) then FirstRow(init, k) else rows[|rows| - 1]
  }

  lemma {:induction false} FirstRowExact(rows: seq<IssueRow>, k: Key)
    requires Occurs(rows, k)
    ensures exists i | 0 <= i < |rows| ::
              KeyOf(rows[i]) == k && FirstRow(rows, k) == rows[i] && forall j | 0 <= j < i :: KeyOf(rows[j]) != k
  {
    var n := |rows| - 1;
    var init := rows[..n];
    if Occurs(init, k) {
      FirstRowExact(init, k);
      var i :| 0 <= i < n && KeyOf(init[i]) == k && FirstRow(init, k) == init[i]
               && forall j | 0 <= j < i :: KeyOf(init[j]) != k;
      forall j | 0 <= j < i
        ensures KeyOf(rows[j]) != k
      {
        assert rows[j] == init[j];
      }
      assert KeyOf(rows[i]) == k && FirstRow(rows, k) == rows[i];
    } else {
      forall j | 0 <= j < n
        ensures KeyOf(rows[j]) != k
      {
        OccursIffCounted(init, k);
        assert init[j] == rows[j];
      }
      assert KeyOf(rows[n]) == k && FirstRow(rows, k) == rows[n];
    }
  }

  datatype Accum = Accum(key: Key, severity: Severity, category: Category, message: string, count: nat)

  /** One turn of the grouping loop. */
  function AddRow(byKey: map<Key, Accum>, row: IssueRow): map<Key, Accum> {
    var k := KeyOf(row);
    if k in byKey then byKey[k := byKey[k].(count := byKey[k].count + 1)]
    else byKey[k := Accum(k, row.severity, row.category, row.message, 1)]
  }

  function Grouped(rows: seq<IssueRow>): map<Key, Accum> {
    if rows == [] then map[] else AddRow(Grouped(rows[..|rows| - 1]), rows[|rows| - 1])
  }

  /** The entry of a key carries its number of occurrences and the details of its first row. */
  lemma {:induction false} GroupedExact(rows: seq<IssueRow>, k: Key)
    ensures k in Grouped(rows) <==> Occurs(rows, k)
    ensures Occurs(rows, k) ==>
              var first := FirstRow(rows, k);
              Grouped(rows)[k] == Accum(k, first.severity, first.category, first.message, Occurrences(rows, k))
  {
    if rows != [] {
      GroupedExact(rows[..|rows| - 1], k);
      OccursIffCounted(rows[..|rows| - 1], k);
    }
  }

  /** The insertion order of a JavaScript Map. */
  ghost predicate Orders(order: seq<Key>, byKey: map<Key, Accum>) {
    && (forall k :: k in order <==> k in byKey)
    && Distinct(order)
  }

  method GroupRows(rows: seq<IssueRow>) returns (order: seq<Key>, byKey: map<Key, Accum>)
    ensures byKey == Grouped(rows) && Orders(order, byKey)
  {
    order, byKey := [], map[];
    var i := 0;
    while i < |rows|
      invariant 0 <= i <= |rows|
      invariant byKey == Grouped(rows[..i]) && Orders(order, byKey)
    {
      var row := rows[i];
      var key := KeyOf(row);
      assert rows[..i + 1][..i] == rows[..i];
      if key in byKey {
        byKey := byKey[key := byKey[key].(count := byKey[key].count + 1)];
      } else {
        byKey := byKey[key := Accum(key, row.severity, row.category, row.message, 1)];
        order := order + [key];
      }
      i := i + 1;
    }
    assert rows[..i] == rows;
  }

  // ---------------------------------------------------------------- the site_issues table

  datatype SiteIssue = SiteIssue(
    severity: Severity, category: Category, message: string,
    state: IssueState,
    firstSeenAt: int, lastSeenAt: int,
    firstSeenAuditRunId: Option<RunId>, lastSeenAuditRunId: Option<RunId>,
    resolvedAt: Option<int>, ignoredAt: Option<int>, ignoredByUserId: Option<UserId>,
    occurrenceCount: nat, updatedAt: int)

  type Table = map<Key, SiteIssue>

  function Inserted(e: Accum, run: RunId, now: int): SiteIssue {
    SiteIssue(e.severity, e.category, e.message, OPEN, now, now, Some(run), Some(run), None, None, None, e.count, now)
  }

  /** `onConflictDoUpdate`: reopen what was fixed, leave what is ignored. */
  function Refreshed(row: SiteIssue, e: Accum, run: RunId, now: int): SiteIssue {
    row.(severity := e.severity, category := e.category, message := e.message,
          lastSeenAt := now, lastSeenAuditRunId := Some(run), occurrenceCount := e.count, updatedAt := now,
          state := if row.state == IGNORED then IGNORED else OPEN,
          resolvedAt := if row.state == IGNORED then row.resolvedAt else None)
  }

  /** `state = OPEN AND last_seen_audit_run_id <> run`: SQL's `<>` is not true of a null. */
  predicate ClosedBy(row: SiteIssue, run: RunId) {
    row.state == OPEN && row.lastSeenAuditRunId.Some? && row.lastSeenAuditRunId.value != run
  }

  function Closed(row: SiteIssue, run: RunId, now: int): SiteIssue {
    if ClosedBy(row, run) then row.(state := FIXED, resolvedAt := Some(now), updatedAt := now) else row
  }

  function Upserted(table: Table, e: Accum, k: Key, run: RunId, now: int): SiteIssue {
    if k in table then Refreshed(table[k], e, run, now) else Inserted(e, run, now)
  }

  /** What both phases of `reconcileAfterRun` together make of each row. */
  function Reconciled(table: Table, groups: map<Key, Accum>, run: RunId, now: int): Table {
    map k | k in table.Keys + groups.Keys ::
      if k in groups then Upserted(table, groups[k], k, run, now) else Closed(table[k], run, now)
  }

  function WithState(row: SiteIssue, user: UserId, next: IssueState, now: int): SiteIssue {
    var patched := row.(state := next, updatedAt := now);
    match next
    case IGNORED => patched.(ignoredAt := Some(now), ignoredByUserId := Some(user))
    case OPEN => patched.(ignoredAt := None, ignoredByUserId := None, resolvedAt := None)
    case FIXED => patched
  }

  datatype Result = Ok | NotFound

  /** The table after the first `n` upserts. */
  function UpsertAll(table: Table, entries: seq<Accum>, n: nat, run: RunId, now: int): Table
    requires n <= |entries|
  {
    if n == 0 then table
    else
      var t := UpsertAll(table, entries, n - 1, run, now);
      t[entries[n - 1].key := Upserted(t, entries[n - 1], entries[n - 1].key, run, now)]
  }

  predicate DistinctKeys(entries: seq<Accum>) {
    forall i, j | 0 <= i < j < |entries| :: entries[i].key != entries[j].key
  }

  lemma {:induction false} UpsertAllAt(table: Table, entries: seq<Accum>, n: nat, run: RunId, now: int, k: Key)
    requires n <= |entries| && DistinctKeys(entries)
    ensures var t := UpsertAll(table, entries, n, run, now);
            && (forall j | 0 <= j < n && entries[j].key == k ::
              k in t && t[k] == Upserted(table, entries[j], k, run, now))
            && ((forall j | 0 <= j < n :: entries[j].key != k) ==>
              (k in t <==> k in table) && (k in t ==> t[k] == table[k]))
  {
    if n > 0 {
      UpsertAllAt(table, entries, n - 1, run, now, k);
    }
  }

  /** `entries` are the values of the map, in some order. */
  ghost predicate Lists(entries: seq<Accum>, groups: map<Key, Accum>) {
    && DistinctKeys(entries)
    && (forall i | 0 <= i < |entries| :: entries[i].key in groups && entries[i] == groups[entries[i].key])
    && (forall k | k in groups :: groups[k] in entries && groups[k].key == k)
  }

  lemma TwoPhasesAt(table: Table, entries: seq<Accum>, groups: map<Key, Accum>, run: RunId, now: int, k: Key)
    requires Lists(entries, groups)
    ensures var t, r := UpsertAll(table, entries, |entries|, run, now), Reconciled(table, groups, run, now);
            (k in t <==> k in r) && (k in t ==> Closed(t[k], run, now) == r[k])
  {
    UpsertAllAt(table, entries, |entries|, run, now, k);
  }

  function CloseUnseen(table: Table, run: RunId, now: int): Table {
    map k | k in table :: Closed(table[k], run, now)
  }

  lemma SameTable(t: Table, u: Table)
    requires forall k | k in t :: k in u && t[k] == u[k]
    requires forall k | k in u :: k in t
    ensures t == u
  {
  }

  /** The upserts followed by the bulk close treat every row once, whatever the order of entries. */
  lemma TwoPhasesReconcile(table: Table, entries: seq<Accum>, groups: map<Key, Accum>, run: RunId, now: int)
    requires Lists(entries, groups)
    ensures CloseUnseen(UpsertAll(table, entries, |entries|, run, now), run, now) == Reconciled(table, groups, run, now)
  {
    var t, r := UpsertAll(table, entries, |entries|, run, now), Reconciled(table, groups, run, now);
    forall k
      ensures (k in t <==> k in r) && (k in t ==> Closed(t[k], run, now) == r[k])
    {
      TwoPhasesAt(table, entries, groups, run, now, k);
    }
    SameTable(CloseUnseen(t, run, now), r);
  }

  lemma {:induction false} GroupedKeyed(rows: seq<IssueRow>, k: Key)
    requires k in Grouped(rows)
    ensures Grouped(rows)[k].key == k
  {
    GroupedExact(rows, k);
  }

  /** `byKey.values()` */
  method GroupedEntries(issues: seq<IssueRow>) returns (entries: seq<Accum>)
    ensures Lists(entries, Grouped(issues))
  {
    var order, byKey := GroupRows(issues);
    entries := seq(|order|, i requires 0 <= i < |order| && order[i] in byKey => byKey[order[i]]);
    forall k | k in byKey
      ensures byKey[k].key == k && byKey[k] in entries
    {
      GroupedKeyed(issues, k);
      var i :| 0 <= i < |order| && order[i] == k;
      assert entries[i] == byKey[k];
    }
    assert forall i | 0 <= i < |entries| :: entries[i].key == order[i];
  }

  /** The rows of one site. */
  class SiteIssueTable {
    var rows: Table

    constructor ()
      ensures rows == map[]
    {
      rows := map[];
    }

    method UpsertEntries(entries: seq<Accum>, run: RunId, now: int)
      modifies this
      ensures rows == UpsertAll(old(rows), entries, |entries|, run, now)
    {
      var i := 0;
      while i < |entries|
        invariant 0 <= i <= |entries|
        invariant rows == UpsertAll(old(rows), entries, i, run, now)
      {
        var e := entries[i];
        if e.key in rows {
          rows := rows[e.key := Refreshed(rows[e.key], e, run, now)];
        } else {
          rows := rows[e.key := Inserted(e, run, now)];
        }
        i := i + 1;
      }
    }

    /** The transaction: one upsert per grouped entry, then one bulk update. */
    method ReconcileAfterRun(issues: seq<IssueRow>, run: RunId, now: int)
      modifies this
      ensures rows == Reconciled(old(rows), Grouped(issues), run, now)
    {
      var entries := GroupedEntries(issues);
      UpsertEntries(entries, run, now);
      TwoPhasesReconcile(old(rows), entries, Grouped(issues), run, now);
      rows := CloseUnseen(rows, run, now);
    }

    method SetState(key: Key, user: UserId, next: IssueState, now: int) returns (result: Result)
      modifies this
      ensures result == (if key in old(rows) then Ok else NotFound)
      ensures key in old(rows) ==> key in rows && rows[key].state == next && rows[key].updatedAt == now
      ensures rows == if key in old(rows) then old(rows)[key := WithState(old(rows)[key], user, next, now)]
                else old(rows)
    {
      if key !in rows {
        return NotFound;
      }
      var row := rows[key].(state := next, updatedAt := now);
      if next == IGNORED {
        row := row.(ignoredAt := Some(now), ignoredByUserId := Some(user));
      }
      if next == OPEN {
        row := row.(ignoredAt := None, ignoredByUserId := None, resolvedAt := None);
      }
      rows := rows[key := row];
      result := Ok;
    }
  }

  // ---------------------------------------------------------------- histories

  /** The rows each run stored; they never change. */
  type Runs = map<RunId, seq<IssueRow>>

  function RowsOf(runs: Runs, run: RunId): seq<IssueRow> {
    if run in runs then runs[run] else []
  }

  /** `DeleteRun` is the deletion of an `audit_runs` row; the foreign keys become null.  No code of the
      services does that: runs go only with their site, and the site's issues in the same cascade. */
  datatype Event =
    | Reconcile(run: RunId, now: int)
    | SetState(key: Key, user: UserId, next: IssueState, now: int)
    | DeleteRun(run: RunId)

  function Forget(row: SiteIssue, run: RunId): SiteIssue {
    row.(firstSeenAuditRunId := if row.firstSeenAuditRunId == Some(run) then None else row.firstSeenAuditRunId,
         lastSeenAuditRunId := if row.lastSeenAuditRunId == Some(run) then None else row.lastSeenAuditRunId)
  }

  function Apply(runs: Runs, table: Table, e: Event): Table {
    match e
    case Reconcile(run, now) => Reconciled(table, Grouped(RowsOf(runs, run)), run, now)
    case SetState(key, user, next, now) =>
      if key in table then table[key := WithState(table[key], user, next, now)] else table
    case DeleteRun(run) => map k | k in table :: Forget(table[k], run)
  }

  function ApplyAll(runs: Runs, history: seq<Event>): Table {
    if history == [] then map[] else Apply(runs, ApplyAll(runs, history[..|history| - 1]), history[|history| - 1])
  }

  function StateOf(table: Table, k: Key): Option<IssueState> {
    if k in table then Some(table[k].state) else None
  }

  /** The documented life of one issue, told without any table: seen and not ignored is OPEN, unseen and
      OPEN is FIXED, IGNORED stays, and a user may set any state of a known issue. */
  function Lived(runs: Runs, k: Key, state: Option<IssueState>, e: Event): Option<IssueState> {
    match e
    case Reconcile(run, _) =>
      if Occurs(RowsOf(runs, run), k) then Some(if state == Some(IGNORED) then IGNORED else OPEN)
      else if state == Some(OPEN) then Some(FIXED) else state
    case SetState(key, _, next, _) => if key == k && state.Some? then Some(next) else state
    case DeleteRun(_) => state
  }

  function Life(runs: Runs, k: Key, history: seq<Event>): Option<IssueState> {
    if history == [] then None
    else Lived(runs, k, Life(runs, k, history[..|history| - 1]), history[|history| - 1])
  }

  /** What every row satisfies: `lastSeenAuditRunId` names a run that contains the issue and
      `occurrenceCount` counts it there; open issues are unresolved; ignored ones say when. */
  predicate RowOk(runs: Runs, k: Key, row: SiteIssue) {
    && (row.lastSeenAuditRunId.Some? ==>
          && Occurs(RowsOf(runs, row.lastSeenAuditRunId.value), k)
          && row.occurrenceCount == Occurrences(RowsOf(runs, row.lastSeenAuditRunId.value), k))
    && (row.state == OPEN ==> row.resolvedAt.None?)
    && (row.state == IGNORED ==> row.ignoredAt.Some? && row.ignoredByUserId.Some?)
  }

  predicate TableOk(runs: Runs, table: Table) {
    forall k | k in table :: RowOk(runs, k, table[k])
  }

  /** The open issue that the bulk close cannot see. */
  predicate Invisible(runs: Runs, table: Table, run: RunId, k: Key) {
    k in table && table[k].state == OPEN && table[k].lastSeenAuditRunId.None? && !Occurs(RowsOf(runs, run), k)
  }

  lemma ApplyKeepsRowOk(runs: Runs, table: Table, e: Event, k: Key)
    requires k in table ==> RowOk(runs, k, table[k])
    ensures k in Apply(runs, table, e) ==> RowOk(runs, k, Apply(runs, table, e)[k])
  {
    if e.Reconcile? {
      GroupedExact(RowsOf(runs, e.run), k);
    }
  }

  lemma {:induction false} HistoryKeepsRowOk(runs: Runs, history: seq<Event>, k: Key)
    ensures k in ApplyAll(runs, history) ==> RowOk(runs, k, ApplyAll(runs, history)[k])
  {
    if history != [] {
      HistoryKeepsRowOk(runs, history[..|history| - 1], k);
      ApplyKeepsRowOk(runs, ApplyAll(runs, history[..|history| - 1]), history[|history| - 1], k);
    }
  }

  function FirstSeen(runs: Runs, k: Key, history: seq<Event>): Option<int> {
    if history == [] then None
    else
      var before, e := FirstSeen(runs, k, history[..|history| - 1]), history[|history| - 1];
      if before.None? && e.Reconcile? && Occurs(RowsOf(runs, e.run), k) then Some(e.now) else before
  }

  function LastSeen(runs: Runs, k: Key, history: seq<Event>): Option<int> {
    if history == [] then None
    else
      var e := history[|history| - 1];
      if e.Reconcile? && Occurs(RowsOf(runs, e.run), k) then Some(e.now)
        else LastSeen(runs, k, history[..|history| - 1])
  }

  /** An issue has a row from the first reconcile of a run that contains it on, and its dates are those of
      the first and the last such reconcile, whatever users do and whichever runs are deleted. */
  lemma {:induction false} SeenDatesExact(runs: Runs, history: seq<Event>, k: Key)
    ensures k in ApplyAll(runs, history) <==> FirstSeen(runs, k, history).Some?
    ensures k in ApplyAll(runs, history) ==>
              && FirstSeen(runs, k, history) == Some(ApplyAll(runs, history)[k].firstSeenAt)
              && LastSeen(runs, k, history) == Some(ApplyAll(runs, history)[k].lastSeenAt)
  {
    if history != [] {
      var e := history[|history| - 1];
      SeenDatesExact(runs, history[..|history| - 1], k);
      if e.Reconcile? {
        GroupedExact(RowsOf(runs, e.run), k);
      }
    }
  }

  // ---------------------------------------------------------------- what a row tells

  /** The event reconciles a run in which the issue occurs. */
  predicate Sees(runs: Runs, e: Event, k: Key) {
    e.Reconcile? && Occurs(RowsOf(runs, e.run), k)
  }

  /** The run of event `i` is the last, or the first, reconciled one in which the issue occurs. */
  predicate LastSeeing(runs: Runs, history: seq<Event>, k: Key, i: nat) {
    i < |history| && Sees(runs, history[i], k) && forall j | i < j < |history| :: !Sees(runs, history[j], k)
  }

  predicate FirstSeeing(runs: Runs, history: seq<Event>, k: Key, i: nat) {
    i < |history| && Sees(runs, history[i], k) && forall j | 0 <= j < i :: !Sees(runs, history[j], k)
  }

  predicate DeletedAfter(history: seq<Event>, i: nat, run: RunId) {
    exists j | i < j < |history| :: history[j] == DeleteRun(run)
  }

  lemma DeletedAfterStep(history: seq<Event>, i: nat, run: RunId)
    requires i < |history| - 1
    ensures DeletedAfter(history, i, run) <==>
            DeletedAfter(history[..|history| - 1], i, run) || history[|history| - 1] == DeleteRun(run)
  {
    var n := |history| - 1;
    if DeletedAfter(history[..n], i, run) {
      var j :| i < j < n && history[..n][j] == DeleteRun(run);
      assert history[j] == DeleteRun(run);
    }
  }

  /** The row carries the details of `first`, as the run counted them. */
  predicate Shows(row: SiteIssue, first: IssueRow, count: nat) {
    && row.severity == first.severity && row.category == first.category && row.message == first.message
    && row.occurrenceCount == count
  }

  lemma DetailsStep(runs: Runs, table: Table, e: Event, k: Key)
    ensures Sees(runs, e, k) ==>
              && k in Apply(runs, table, e)
              && Shows(Apply(runs, table, e)[k], FirstRow(RowsOf(runs, e.run), k), Occurrences(RowsOf(runs, e.run), k))
              && Apply(runs, table, e)[k].lastSeenAuditRunId == Some(e.run)
    ensures !Sees(runs, e, k) ==>
              && (k in Apply(runs, table, e) <==> k in table)
              && (k in table ==>
                    var old', new' := table[k], Apply(runs, table, e)[k];
                    && new'.severity == old'.severity && new'.category == old'.category
                    && new'.message == old'.message && new'.occurrenceCount == old'.occurrenceCount
                    && new'.lastSeenAuditRunId ==
                       if e.DeleteRun? && old'.lastSeenAuditRunId == Some(e.run) then None else old'.lastSeenAuditRunId)
  {
    if e.Reconcile? {
      GroupedExact(RowsOf(runs, e.run), k);
    }
  }

  lemma PresentStep(runs: Runs, table: Table, e: Event, k: Key)
    ensures k in Apply(runs, table, e) <==> k in table || Sees(runs, e, k)
  {
    if e.Reconcile? {
      GroupedExact(RowsOf(runs, e.run), k);
    }
  }

  lemma FirstRunStep(runs: Runs, table: Table, e: Event, k: Key)
    ensures k !in table && Sees(runs, e, k) ==>
              k in Apply(runs, table, e) && Apply(runs, table, e)[k].firstSeenAuditRunId == Some(e.run)
    ensures k in table ==>
              && k in Apply(runs, table, e)
              && var old', new' := table[k].firstSeenAuditRunId, Apply(runs, table, e)[k].firstSeenAuditRunId;
                 new' == if e.DeleteRun? && old' == Some(e.run) then None else old'
  {
    if e.Reconcile? {
      GroupedExact(RowsOf(runs, e.run), k);
    }
  }

  /** Over every history a row carries severity, category and message of the first row with its key in the last
      reconciled run in which it occurs, and counts its rows there; `lastSeenAuditRunId` is that run
      until it is deleted. */
  lemma {:induction false} DetailsExact(runs: Runs, history: seq<Event>, k: Key, i: nat)
    requires LastSeeing(runs, history, k, i)
    ensures k in ApplyAll(runs, history)
    ensures var (row, run) := (ApplyAll(runs, history)[k], history[i].run);
            && Shows(row, FirstRow(RowsOf(runs, run), k), Occurrences(RowsOf(runs, run), k))
            && row.lastSeenAuditRunId == if DeletedAfter(history, i, run) then None else Some(run)
  {
    var n := |history| - 1;
    DetailsStep(runs, ApplyAll(runs, history[..n]), history[n], k);
    if i < n {
      DetailsExact(runs, history[..n], k, i);
      DeletedAfterStep(history, i, history[i].run);
    }
  }

  lemma {:induction false} RowIffSeen(runs: Runs, history: seq<Event>, k: Key)
    ensures k in ApplyAll(runs, history) <==> exists i | 0 <= i < |history| :: Sees(runs, history[i], k)
  {
    if history != [] {
      var init, e := history[..|history| - 1], history[|history| - 1];
      RowIffSeen(runs, init, k);
      PresentStep(runs, ApplyAll(runs, init), e, k);
      if i :| 0 <= i < |init| && Sees(runs, init[i], k) {
        assert Sees(runs, history[i], k);
      }
      if i :| 0 <= i < |history| && Sees(runs, history[i], k) {
        assert i < |init| ==> Sees(runs, init[i], k);
      }
    }
  }

  /** `firstSeenAuditRunId` is the first reconciled run in which the issue occurs, until it is deleted. */
  lemma {:induction false} FirstRunExact(runs: Runs, history: seq<Event>, k: Key, i: nat)
    requires FirstSeeing(runs, history, k, i)
    ensures k in ApplyAll(runs, history)
    ensures ApplyAll(runs, history)[k].firstSeenAuditRunId ==
            if DeletedAfter(history, i, history[i].run) then None else Some(history[i].run)
  {
    var n := |history| - 1;
    FirstRunStep(runs, ApplyAll(runs, history[..n]), history[n], k);
    if i < n {
      FirstRunExact(runs, history[..n], k, i);
      DeletedAfterStep(history, i, history[i].run);
    } else {
      RowIffSeen(runs, history[..n], k);
    }
  }

  lemma {:induction false} EarliestSeeing(runs: Runs, history: seq<Event>, k: Key, i: nat) returns (first: nat)
    requires i < |history| && Sees(runs, history[i], k)
    ensures FirstSeeing(runs, history, k, first)
  {
    if j :| 0 <= j < i && Sees(runs, history[j], k) {
      first := EarliestSeeing(runs, history, k, j);
    } else {
      first := i;
    }
  }

  lemma {:induction false} LatestSeeing(runs: Runs, history: seq<Event>, k: Key, i: nat) returns (last: nat)
    requires i < |history| && Sees(runs, history[i], k)
    ensures LastSeeing(runs, history, k, last)
    decreases |history| - i
  {
    if j :| i < j < |history| && Sees(runs, history[j], k) {
      last := LatestSeeing(runs, history, k, j);
    } else {
      last := i;
    }
  }

  /** Every row has such runs. */
  lemma RowWasSeen(runs: Runs, history: seq<Event>, k: Key) returns (first: nat, last: nat)
    requires k in ApplyAll(runs, history)
    ensures FirstSeeing(runs, history, k, first) && LastSeeing(runs, history, k, last)
  {
    RowIffSeen(runs, history, k);
    var i :| 0 <= i < |history| && Sees(runs, history[i], k);
    first := EarliestSeeing(runs, history, k, i);
    last := LatestSeeing(runs, history, k, i);
  }

  // ---------------------------------------------------------------- resolvedAt and updatedAt

  function StateBefore(runs: Runs, history: seq<Event>, k: Key, i: nat): Option<IssueState>
    requires i <= |history|
  {
    StateOf(ApplyAll(runs, history[..i]), k)
  }

  /** Event `i` reconciles a run in which the open issue does not occur. */
  predicate ClosesAt(runs: Runs, history: seq<Event>, k: Key, i: nat)
    requires i < |history|
  {
    && history[i].Reconcile? && !Sees(runs, history[i], k)
    && StateBefore(runs, history, k, i) == Some(OPEN)
    && ApplyAll(runs, history[..i])[k].lastSeenAuditRunId.Some?
  }

  /** Event `i` reconciles a run in which the issue occurs while it is not ignored, or a user opens it. */
  predicate ReopensAt(runs: Runs, history: seq<Event>, k: Key, i: nat)
    requires i < |history|
  {
    || (Sees(runs, history[i], k) && StateBefore(runs, history, k, i) != Some(IGNORED))
    || (history[i].SetState? && history[i].key == k && history[i].next == OPEN)
  }

  predicate LastClose(runs: Runs, history: seq<Event>, k: Key, i: nat) {
    && i < |history| && ClosesAt(runs, history, k, i)
    && forall j | i < j < |history| :: !ClosesAt(runs, history, k, j) && !ReopensAt(runs, history, k, j)
  }

  lemma ResolvedStep(runs: Runs, history: seq<Event>, k: Key)
    requires history != []
    requires k in ApplyAll(runs, history[..|history| - 1]) ==>
               RowOk(runs, k, ApplyAll(runs, history[..|history| - 1])[k])
    ensures var n := |history| - 1;
            && (ClosesAt(runs, history, k, n) ==>
                  k in ApplyAll(runs, history) && ApplyAll(runs, history)[k].resolvedAt == Some(history[n].now))
            && (ReopensAt(runs, history, k, n) && k in ApplyAll(runs, history) ==>
                  ApplyAll(runs, history)[k].resolvedAt == None)
            && (!ClosesAt(runs, history, k, n) && !ReopensAt(runs, history, k, n) ==>
                  && (k in ApplyAll(runs, history) <==> k in ApplyAll(runs, history[..n]))
                  && (k in ApplyAll(runs, history) ==>
                        ApplyAll(runs, history)[k].resolvedAt == ApplyAll(runs, history[..n])[k].resolvedAt))
  {
    var e := history[|history| - 1];
    if e.Reconcile? {
      GroupedExact(RowsOf(runs, e.run), k);
    }
  }

  /** The events of a prefix close and reopen as in the whole history. */
  lemma SamePrefix(runs: Runs, history: seq<Event>, k: Key, n: nat, j: nat)
    requires j < n <= |history|
    ensures ClosesAt(runs, history[..n], k, j) <==> ClosesAt(runs, history, k, j)
    ensures ReopensAt(runs, history[..n], k, j) <==> ReopensAt(runs, history, k, j)
  {
    assert history[..n][..j] == history[..j];
  }

  lemma LastCloseBefore(runs: Runs, history: seq<Event>, k: Key, i: nat)
    requires i < |history| - 1
    ensures var n := |history| - 1;
            LastClose(runs, history, k, i) <==>
            LastClose(runs, history[..n], k, i) && !ClosesAt(runs, history, k, n) && !ReopensAt(runs, history, k, n)
  {
    var n := |history| - 1;
    forall j: nat | j < n
      ensures ClosesAt(runs, history[..n], k, j) <==> ClosesAt(runs, history, k, j)
      ensures ReopensAt(runs, history[..n], k, j) <==> ReopensAt(runs, history, k, j)
    {
      SamePrefix(runs, history, k, n, j);
    }
  }

  lemma {:induction false} LastCloseShows(runs: Runs, history: seq<Event>, k: Key, i: nat)
    requires LastClose(runs, history, k, i)
    ensures k in ApplyAll(runs, history) && ApplyAll(runs, history)[k].resolvedAt == Some(history[i].now)
  {
    var n := |history| - 1;
    HistoryKeepsRowOk(runs, history[..n], k);
    ResolvedStep(runs, history, k);
    if i < n {
      LastCloseBefore(runs, history, k, i);
      LastCloseShows(runs, history[..n], k, i);
    }
  }

  lemma {:induction false} ResolvedWasClosed(runs: Runs, history: seq<Event>, k: Key) returns (i: nat)
    requires k in ApplyAll(runs, history) && ApplyAll(runs, history)[k].resolvedAt.Some?
    ensures LastClose(runs, history, k, i)
  {
    var n := |history| - 1;
    HistoryKeepsRowOk(runs, history[..n], k);
    ResolvedStep(runs, history, k);
    if ClosesAt(runs, history, k, n) {
      i := n;
    } else {
      i := ResolvedWasClosed(runs, history[..n], k);
      LastCloseBefore(runs, history, k, i);
    }
  }

  /** What `resolvedAt` means, over every history: it is there exactly when a reconcile has closed the issue and it
      has not been reopened since, and then it tells the last time.  A user who sets FIXED or
      IGNORED leaves it alone. */
  lemma ResolvedAtExact(runs: Runs, history: seq<Event>, k: Key)
    requires k in ApplyAll(runs, history)
    ensures var row := ApplyAll(runs, history)[k];
            && (row.resolvedAt.None? <==> forall i | 0 <= i < |history| :: !LastClose(runs, history, k, i))
            && (forall i | 0 <= i < |history| && LastClose(runs, history, k, i) ::
                  row.resolvedAt == Some(history[i].now))
  {
    forall i | 0 <= i < |history| && LastClose(runs, history, k, i)
      ensures ApplyAll(runs, history)[k].resolvedAt == Some(history[i].now)
    {
      LastCloseShows(runs, history, k, i);
    }
    if ApplyAll(runs, history)[k].resolvedAt.Some? {
      var i := ResolvedWasClosed(runs, history, k);
    }
  }

  /** Event `i` writes the row: a run in which the issue occurs, the one that closes it, or a user. */
  predicate Writes(runs: Runs, history: seq<Event>, k: Key, i: nat)
    requires i < |history|
  {
    || Sees(runs, history[i], k) || ClosesAt(runs, history, k, i)
    || (history[i].SetState? && history[i].key == k && StateBefore(runs, history, k, i).Some?)
  }

  /** `updatedAt` is the time of the last event that writes the row. */
  lemma {:induction false} UpdatedAtExact(runs: Runs, history: seq<Event>, k: Key, i: nat)
    requires i < |history| && Writes(runs, history, k, i)
    requires forall j | i < j < |history| :: !Writes(runs, history, k, j)
    ensures k in ApplyAll(runs, history) && ApplyAll(runs, history)[k].updatedAt == history[i].now
  {
    var n := |history| - 1;
    HistoryKeepsRowOk(runs, history[..n], k);
    if history[n].Reconcile? {
      GroupedExact(RowsOf(runs, history[n].run), k);
    }
    if i < n {
      forall j: nat | j < n
        ensures Writes(runs, history[..n], k, j) <==> Writes(runs, history, k, j)
      {
        SamePrefix(runs, history, k, n, j);
        assert history[..n][..j] == history[..j];
      }
      UpdatedAtExact(runs, history[..n], k, i);
      assert !Writes(runs, history, k, n);
    }
  }

  // ---------------------------------------------------------------- the life of an issue

  /** One step of the table is one step of the documented life of each issue, except exactly that
      a reconcile does not close an open issue whose last run was deleted. */
  lemma StepMatchesLife(runs: Runs, table: Table, e: Event, k: Key)
    requires k in table ==> RowOk(runs, k, table[k])
    ensures StateOf(Apply(runs, table, e), k) == Lived(runs, k, StateOf(table, k), e)
            <==> !(e.Reconcile? && Invisible(runs, table, e.run, k))
  {
    if e.Reconcile? {
      GroupedExact(RowsOf(runs, e.run), k);
    }
  }

  predicate DeletesNoRun(history: seq<Event>) {
    forall i | 0 <= i < |history| :: !history[i].DeleteRun?
  }

  lemma {:induction false} NeverForgotten(runs: Runs, history: seq<Event>, k: Key)
    requires DeletesNoRun(history)
    ensures k in ApplyAll(runs, history) ==> ApplyAll(runs, history)[k].lastSeenAuditRunId.Some?
  {
    if history != [] {
      NeverForgotten(runs, history[..|history| - 1], k);
    }
  }

  /** The table refines the documented life of every issue over every history of reconciles and
      user changes. */
  lemma {:induction false} TableRefinesLife(runs: Runs, history: seq<Event>, k: Key)
    requires DeletesNoRun(history)
    ensures StateOf(ApplyAll(runs, history), k) == Life(runs, k, history)
  {
    if history != [] {
      var init := history[..|history| - 1];
      TableRefinesLife(runs, init, k);
      HistoryKeepsRowOk(runs, init, k);
      NeverForgotten(runs, init, k);
      StepMatchesLife(runs, ApplyAll(runs, init), history[|history| - 1], k);
    }
  }

  function OpenKeys(table: Table): set<Key> {
    set k | k in table && table[k].state == OPEN
  }

  function IgnoredKeys(table: Table): set<Key> {
    set k | k in table && table[k].state == IGNORED
  }

  /** After a reconcile the open issues are the run's issues minus the ignored ones, exactly when no
      open issue outside the run has lost its last run. */
  lemma OpenIffInRunAndNotIgnored(runs: Runs, table: Table, run: RunId, now: int)
    requires TableOk(runs, table)
    ensures var after := Apply(runs, table, Reconcile(run, now));
            OpenKeys(after) == KeysOf(RowsOf(runs, run)) - IgnoredKeys(table)
            <==> forall k :: !Invisible(runs, table, run, k)
    ensures IgnoredKeys(Apply(runs, table, Reconcile(run, now))) == IgnoredKeys(table)
  {
    var after := Apply(runs, table, Reconcile(run, now));
    forall k
      ensures k in OpenKeys(after) <==>
              (k in KeysOf(RowsOf(runs, run)) - IgnoredKeys(table)) || Invisible(runs, table, run, k)
      ensures k in IgnoredKeys(after) <==> k in IgnoredKeys(table)
    {
      GroupedExact(RowsOf(runs, run), k);
    }
    if k :| Invisible(runs, table, run, k) {
      assert k in OpenKeys(after) && k !in KeysOf(RowsOf(runs, run));
    }
  }

  /** A deleted run leaves a stale issue open: seen in run 0, which is then deleted, and absent from
      run 1, it is still OPEN after run 1. */
  lemma DeletedRunLeavesIssueOpen(row: IssueRow)
    ensures var runs: Runs := map[0 := [row], 1 := []];
            var history := [Reconcile(0, 0), DeleteRun(0), Reconcile(1, 1)];
            && StateOf(ApplyAll(runs, history), KeyOf(row)) == Some(OPEN)
            && Life(runs, KeyOf(row), history) == Some(FIXED)
  {
    var runs: Runs := map[0 := [row], 1 := []];
    var k := KeyOf(row);
    var history := [Reconcile(0, 0), DeleteRun(0), Reconcile(1, 1)];
    var h1, h2 := history[..1], history[..2];
    assert h1[..0] == [] && h2[..1] == h1 && history[..2] == h2;
    assert [row][..0] == [];
    assert Occurs([row], k) && !Occurs([], k);
    GroupedExact([row], k);
    GroupedExact([], k);
    StepMatchesLife(runs, ApplyAll(runs, []), Reconcile(0, 0), k);
    assert ApplyAll(runs, h1)[k] == Inserted(Grouped([row])[k], 0, 0);
    assert Life(runs, k, h1) == Some(OPEN);
    assert ApplyAll(runs, h2)[k].lastSeenAuditRunId.None?;
    assert ApplyAll(runs, history) == Apply(runs, ApplyAll(runs, h2), Reconcile(1, 1));
  }

  // ---------------------------------------------------------------- ignoredAt

  predicate Sets(e: Event, k: Key, next: IssueState) {
    e.SetState? && e.key == k && e.next == next
  }

  /** Event `i` ignores the known issue, and no later one ignores it again or sets it to OPEN. */
  predicate LastIgnore(runs: Runs, k: Key, history: seq<Event>, i: nat) {
    && i < |history| && Sets(history[i], k, IGNORED) && FirstSeen(runs, k, history[..i]).Some?
    && forall j | i < j < |history| :: !Sets(history[j], k, IGNORED) && !Sets(history[j], k, OPEN)
  }

  function IgnoreIndex(runs: Runs, k: Key, history: seq<Event>): (i: Option<nat>)
    ensures i.Some? ==> i.value < |history| && history[i.value].SetState?
  {
    if history == [] then None
    else
      var n := |history| - 1;
      if Sets(history[n], k, OPEN) then None
      else if Sets(history[n], k, IGNORED) && FirstSeen(runs, k, history[..n]).Some? then Some(n)
      else IgnoreIndex(runs, k, history[..n])
  }

  lemma {:induction false} IgnoreIndexExact(runs: Runs, k: Key, history: seq<Event>, i: nat)
    ensures LastIgnore(runs, k, history, i) <==> IgnoreIndex(runs, k, history) == Some(i)
    ensures FirstSeen(runs, k, history).None? ==> IgnoreIndex(runs, k, history).None?
  {
    if history != [] {
      var init := history[..|history| - 1];
      IgnoreIndexExact(runs, k, init, i);
      if i < |init| {
        assert init[..i] == history[..i];
      }
    }
  }

  lemma {:induction false} IgnoreIndexShows(runs: Runs, history: seq<Event>, k: Key)
    requires k in ApplyAll(runs, history)
    ensures var (row, i) := (ApplyAll(runs, history)[k], IgnoreIndex(runs, k, history));
            && row.ignoredAt == (if i.Some? then Some(history[i.value].now) else None)
            && row.ignoredByUserId == (if i.Some? then Some(history[i.value].user) else None)
  {
    var init := history[..|history| - 1];
    SeenDatesExact(runs, init, k);
    IgnoreIndexExact(runs, k, init, 0);
    if k in ApplyAll(runs, init) {
      IgnoreIndexShows(runs, init, k);
    }
  }

  /** What `ignoredAt` means, over every history: it is there exactly when the issue was ignored and has not been
      set to OPEN by a user since, and then it and `ignoredByUserId` tell the last time.  Whether the
      issue is open plays no part. */
  lemma IgnoredAtExact(runs: Runs, history: seq<Event>, k: Key)
    requires k in ApplyAll(runs, history)
    ensures var row := ApplyAll(runs, history)[k];
            && (row.ignoredAt.None? <==> forall i | 0 <= i < |history| :: !LastIgnore(runs, k, history, i))
            && (row.ignoredByUserId.None? <==> row.ignoredAt.None?)
            && (forall i | 0 <= i < |history| && LastIgnore(runs, k, history, i) ::
                  row.ignoredAt == Some(history[i].now) && row.ignoredByUserId == Some(history[i].user))
  {
    IgnoreIndexShows(runs, history, k);
    forall i | 0 <= i < |history|
      ensures LastIgnore(runs, k, history, i) <==> IgnoreIndex(runs, k, history) == Some(i)
    {
      IgnoreIndexExact(runs, k, history, i);
    }
  }

  /** So `ignoredAt` says nothing about an open issue: ignored, set to FIXED and seen again, it is OPEN
      with its old `ignoredAt`. */
  lemma ReopenedIssueKeepsIgnoredAt(row: IssueRow, user: UserId)
    ensures var k := KeyOf(row);
            var table := ApplyAll(map[0 := [row]],
                                  [Reconcile(0, 0), SetState(k, user, IGNORED, 1), SetState(k, user, FIXED, 2),
                                   Reconcile(0, 3)]);
            k in table && table[k].state == OPEN && table[k].ignoredAt == Some(1)
  {
    var runs: Runs := map[0 := [row]];
    var k := KeyOf(row);
    var h := [Reconcile(0, 0), SetState(k, user, IGNORED, 1), SetState(k, user, FIXED, 2), Reconcile(0, 3)];
    assert h[..1][..0] == [] && h[..2][..1] == h[..1] && h[..3][..2] == h[..2];
    assert [row][..0] == [];
    GroupedExact([row], k);
    var t1 := ApplyAll(runs, h[..1]);
    assert k in t1;
    var t2 := ApplyAll(runs, h[..2]);
    assert t2 == Apply(runs, t1, h[1]) && t2[k].ignoredAt == Some(1);
    var t3 := ApplyAll(runs, h[..3]);
    assert t3 == Apply(runs, t2, h[2]) && t3[k].state == FIXED;
    assert ApplyAll(runs, h) == Apply(runs, t3, h[3]);
  }

  // ---------------------------------------------------------------- the worker's filter

  function WithoutKeys(issues: seq<IssueRow>, ignored: set<Key>): seq<IssueRow> {
    if issues == [] then []
    else WithoutKeys(issues[..|issues| - 1], ignored)
         + if KeyOf(issues[|issues| - 1]) in ignored then [] else [issues[|issues| - 1]]
  }

  /** `analysis.issues.filter(...)` of `processQueuedRun`: what the final score is computed from. */
  method FilterIgnored(issues: seq<IssueRow>, ignored: set<Key>) returns (filtered: seq<IssueRow>)
    ensures filtered == WithoutKeys(issues, ignored)
  {
    filtered := [];
    var i := 0;
    while i < |issues|
      invariant 0 <= i <= |issues|
      invariant filtered == WithoutKeys(issues[..i], ignored)
    {
      assert issues[..i + 1][..i] == issues[..i];
      if KeyOf(issues[i]) !in ignored {
        filtered := filtered + [issues[i]];
      }
      i := i + 1;
    }
    assert issues[..i] == issues;
  }

  lemma FilterOne(row: IssueRow, ignored: set<Key>)
    ensures WithoutKeys([row], ignored) == if KeyOf(row) in ignored then [] else [row]
  {
    assert [row][..0] == [];
  }

  /** The filter takes each part of the list by itself, in order. */
  lemma {:induction false} FilterJoins(a: seq<IssueRow>, b: seq<IssueRow>, ignored: set<Key>)
    ensures WithoutKeys(a + b, ignored) == WithoutKeys(a, ignored) + WithoutKeys(b, ignored)
  {
    if b == [] {
      assert a + b == a;
    } else {
      var c, init, last := a + b, b[..|b| - 1], b[|b| - 1];
      assert c[..|c| - 1] == a + init && c[|c| - 1] == last;
      FilterJoins(a, init, ignored);
      var kept := if KeyOf(last) in ignored then [] else [last];
      assert WithoutKeys(c, ignored) == WithoutKeys(a + init, ignored) + kept;
      assert WithoutKeys(b, ignored) == WithoutKeys(init, ignored) + kept;
    }
  }

  lemma {:induction false} FilteredKeys(issues: seq<IssueRow>, ignored: set<Key>)
    ensures KeysOf(WithoutKeys(issues, ignored)) == KeysOf(issues) - ignored
  {
    if issues != [] {
      var init := issues[..|issues| - 1];
      FilteredKeys(init, ignored);
      var kept := WithoutKeys(issues, ignored);
      if KeyOf(issues[|issues| - 1]) !in ignored {
        assert kept[..|kept| - 1] == WithoutKeys(init, ignored);
      } else {
        assert kept == WithoutKeys(init, ignored);
      }
    }
  }

  /** The score and the issue list agree: the issues a run is scored on are exactly the ones that are
      open after its reconcile. */
  lemma ScoredIssuesAreTheOpenOnes(runs: Runs, history: seq<Event>, run: RunId, now: int)
    requires DeletesNoRun(history)
    ensures var table := ApplyAll(runs, history);
            KeysOf(WithoutKeys(RowsOf(runs, run), IgnoredKeys(table))) ==
            OpenKeys(Apply(runs, table, Reconcile(run, now)))
  {
    var table := ApplyAll(runs, history);
    FilteredKeys(RowsOf(runs, run), IgnoredKeys(table));
    forall k
      ensures k in table ==> RowOk(runs, k, table[k])
      ensures !Invisible(runs, table, run, k)
    {
      HistoryKeepsRowOk(runs, history, k);
      NeverForgotten(runs, history, k);
    }
    OpenIffInRunAndNotIgnored(runs, table, run, now);
  }

  /** The ignored issues are read before the run is scored, and the reconcile comes later.  The issues a run is
      scored on are the ones that its reconcile leaves open exactly when, in between, nobody has
      changed which of them are ignored. */
  lemma ScoredIssuesAreOpenIff(runs: Runs, history: seq<Event>, ignored: set<Key>, run: RunId, now: int)
    requires DeletesNoRun(history)
    ensures var table := ApplyAll(runs, history);
            KeysOf(WithoutKeys(RowsOf(runs, run), ignored)) == OpenKeys(Apply(runs, table, Reconcile(run, now)))
            <==> forall k | k in KeysOf(RowsOf(runs, run)) :: k in ignored <==> k in IgnoredKeys(table)
  {
    var table, rows := ApplyAll(runs, history), RowsOf(runs, run);
    ScoredIssuesAreTheOpenOnes(runs, history, run, now);
    FilteredKeys(rows, ignored);
    FilteredKeys(rows, IgnoredKeys(table));
    SameRest(KeysOf(rows), ignored, IgnoredKeys(table));
  }

  lemma SameRest<T>(all: set<T>, a: set<T>, b: set<T>)
    ensures all - a == all - b <==> forall x | x in all :: x in a <==> x in b
  {
    if all - a == all - b {
      forall x | x in all
        ensures x in a <==> x in b
      {
        assert x in all - a <==> x in all - b;
      }
    }
  }
}
