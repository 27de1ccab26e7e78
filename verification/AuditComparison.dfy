/** The diff of two audit runs built by `buildComparisonSnapshot`.  Everything is stated per signature,
    because the `::`-joined signature is not injective on issues. */
module AuditComparison {
  import opened Common

  type Severity = nat
  type Category = nat

  datatype Issue = Issue(issueCode: string, category: Category, severity: Severity, message: string,
                         resourceUrl: Option<string>)

  datatype Run = Run(score: Option<int>, issues: seq<Issue>)

  function Or<T>(o: Option<T>, default: T): T {
    match o case Some(v) => v case None => default
  }

  /** `[issueCode, resourceUrl ?? '', message].join('::')` */
  function Signature(issueCode: string, resourceUrl: Option<string>, message: string): string {
    issueCode + "::" + Or(resourceUrl, "") + "::" + message
  }

  function SignatureOf(i: Issue): string {
    Signature(i.issueCode, i.resourceUrl, i.message)
  }

  /** Severity and category play no part in a signature.  With the code and one of URL and message fixed, the
      other decides; an issue without a URL has the signature of one with the empty URL. */
  lemma SameSignatureIff(i: Issue, j: Issue)
    requires i.issueCode == j.issueCode
    ensures i.resourceUrl == j.resourceUrl ==> (SignatureOf(i) == SignatureOf(j) <==> i.message == j.message)
    ensures i.message == j.message ==>
              (SignatureOf(i) == SignatureOf(j) <==>
                 (if i.resourceUrl.Some? then i.resourceUrl.value else "")
                 == (if j.resourceUrl.Some? then j.resourceUrl.value else ""))
  {
    var head := i.issueCode + "::";
    var u, v := Or(i.resourceUrl, ""), Or(j.resourceUrl, "");
    assert SignatureOf(i) == head + (u + "::" + i.message) && SignatureOf(j) == head + (v + "::" + j.message);
    SamePrefix(head, u + "::" + i.message, v + "::" + j.message);
    if u == v {
      SamePrefix(u + "::", i.message, j.message);
    }
    if i.message == j.message {
      SameSuffix(u, v, "::" + i.message);
      assert u + "::" + i.message == u + ("::" + i.message) && v + "::" + j.message == v + ("::" + j.message);
    }
  }

  lemma SamePrefix(a: string, b: string, c: string)
    ensures a + b == a + c <==> b == c
  {
    assert (a + b)[|a|..] == b && (a + c)[|a|..] == c;
  }

  lemma SameSuffix(a: string, b: string, c: string)
    ensures a + c == b + c <==> a == b
  {
    if a + c == b + c {
      assert |a + c| == |a| + |c| && |b + c| == |b| + |c|;
      assert (a + c)[..|a|] == a && (b + c)[..|b|] == b;
    }
  }

  function Count(issues: seq<Issue>, key: string): nat {
    if issues == [] then 0
    else Count(issues[..|issues| - 1], key) + if SignatureOf(issues[|issues| - 1]) == key then 1 else 0
  }

  function PositionsOf(issues: seq<Issue>, key: string): set<nat> {
    set i: nat | i < |issues| && SignatureOf(issues[i]) == key
  }

  lemma {:induction false} CountExact(issues: seq<Issue>, key: string)
    ensures Count(issues, key) == |PositionsOf(issues, key)|
  {
    if issues == [] {
      assert PositionsOf(issues, key) == {};
    } else {
      var init, n := issues[..|issues| - 1], |issues| - 1;
      CountExact(init, key);
      assert PositionsOf(issues, key) == PositionsOf(init, key) + if SignatureOf(issues[n]) == key then {n} else {};
    }
  }

  // ---------------------------------------------------------------- aggregation

  datatype Entry = Entry(issueCode: string, category: Category, severity: Severity, title: string,
                         resourceUrl: Option<string>, count: nat)

  function NewEntry(i: Issue): Entry {
    Entry(i.issueCode, i.category, i.severity, i.message, i.resourceUrl, 1)
  }

  function EntrySignature(e: Entry): string {
    Signature(e.issueCode, e.resourceUrl, e.title)
  }

  /** A JavaScript Map: its keys in insertion order and its entries. */
  datatype Aggregate = Aggregate(order: seq<string>, entries: map<string, Entry>)

  function AddIssue(a: Aggregate, i: Issue): Aggregate {
    var key := SignatureOf(i);
    if key in a.entries then a.(entries := a.entries[key := a.entries[key].(count := a.entries[key].count + 1)])
    else Aggregate(a.order + [key], a.entries[key := NewEntry(i)])
  }

  function Aggregated(issues: seq<Issue>): Aggregate {
    if issues == [] then Aggregate([], map[])
    else AddIssue(Aggregated(issues[..|issues| - 1]), issues[|issues| - 1])
  }

  ghost predicate WellOrdered(a: Aggregate) {
    Distinct(a.order) && forall key :: key in a.order <==> key in a.entries
  }

  method AggregateIssues(items: seq<Issue>) returns (a: Aggregate)
    ensures a == Aggregated(items)
  {
    var order: seq<string>, entries: map<string, Entry> := [], map[];
    var n := 0;
    while n < |items|
      invariant 0 <= n <= |items|
      invariant Aggregate(order, entries) == Aggregated(items[..n])
    {
      assert items[..n + 1][..n] == items[..n];
      var key := SignatureOf(items[n]);
      if key in entries {
        entries := entries[key := entries[key].(count := entries[key].count + 1)];
      } else {
        order := order + [key];
        entries := entries[key := NewEntry(items[n])];
      }
      n := n + 1;
    }
    assert items[..n] == items;
    a := Aggregate(order, entries);
  }

  lemma {:induction false} AggregatedOrder(issues: seq<Issue>)
    ensures WellOrdered(Aggregated(issues))
  {
    if issues != [] {
      AggregatedOrder(issues[..|issues| - 1]);
    }
  }

  /** The entry of a signature counts its issues and carries fields with that very signature. */
  lemma {:induction false} AggregatedExact(issues: seq<Issue>, key: string)
    ensures key in Aggregated(issues).entries <==> Count(issues, key) > 0
    ensures key in Aggregated(issues).entries ==>
              && Aggregated(issues).entries[key].count == Count(issues, key)
              && EntrySignature(Aggregated(issues).entries[key]) == key
  {
    if issues != [] {
      AggregatedExact(issues[..|issues| - 1], key);
    }
  }

  predicate FirstWith(issues: seq<Issue>, key: string, i: nat) {
    && i < |issues| && SignatureOf(issues[i]) == key
    && forall j | 0 <= j < i :: SignatureOf(issues[j]) != key
  }

  lemma {:induction false} AbsentIsNotCounted(issues: seq<Issue>, key: string)
    requires forall i | 0 <= i < |issues| :: SignatureOf(issues[i]) != key
    ensures Count(issues, key) == 0
  {
    if issues != [] {
      AbsentIsNotCounted(issues[..|issues| - 1], key);
    }
  }

  /** The entry shows the first issue of its signature. */
  lemma {:induction false} FirstIssueIsKept(issues: seq<Issue>, key: string, i: nat)
    requires FirstWith(issues, key, i)
    ensures key in Aggregated(issues).entries
    ensures var e, x := Aggregated(issues).entries[key], issues[i];
            && e.issueCode == x.issueCode && e.category == x.category && e.severity == x.severity
            && e.title == x.message && e.resourceUrl == x.resourceUrl
  {
    var n := |issues| - 1;
    if i < n {
      FirstIssueIsKept(issues[..n], key, i);
    } else {
      AggregatedExact(issues[..n], key);
      AbsentIsNotCounted(issues[..n], key);
    }
  }

  /** The order of a Map is the order of first occurrences. */
  ghost predicate Precedes(issues: seq<Issue>, key: string, later: string) {
    forall i: nat, j: nat | FirstWith(issues, key, i) && FirstWith(issues, later, j) :: i < j
  }

  ghost predicate ByFirstOccurrence(issues: seq<Issue>, keys: seq<string>) {
    forall a, b | 0 <= a < b < |keys| :: Precedes(issues, keys[a], keys[b])
  }

  lemma PrecedesStays(issues: seq<Issue>, key: string, later: string)
    requires issues != [] && Count(issues[..|issues| - 1], key) > 0 && Count(issues[..|issues| - 1], later) > 0
    requires Precedes(issues[..|issues| - 1], key, later)
    ensures Precedes(issues, key, later)
  {
    var init := issues[..|issues| - 1];
    CountedIsPresent(init, key);
    CountedIsPresent(init, later);
    var a :| 0 <= a < |init| && SignatureOf(init[a]) == key;
    var b :| 0 <= b < |init| && SignatureOf(init[b]) == later;
    assert issues[a] == init[a] && issues[b] == init[b];
    forall i: nat, j: nat | FirstWith(issues, key, i) && FirstWith(issues, later, j)
      ensures i < j
    {
      assert i <= a && j <= b;
      assert FirstWith(init, key, i) && FirstWith(init, later, j);
    }
  }

  lemma PrecedesLast(issues: seq<Issue>, key: string)
    requires issues != [] && Count(issues[..|issues| - 1], key) > 0
    requires Count(issues[..|issues| - 1], SignatureOf(issues[|issues| - 1])) == 0
    ensures Precedes(issues, key, SignatureOf(issues[|issues| - 1]))
  {
    var init, last := issues[..|issues| - 1], SignatureOf(issues[|issues| - 1]);
    CountedIsPresent(init, key);
    var a :| 0 <= a < |init| && SignatureOf(init[a]) == key;
    assert issues[a] == init[a];
    forall j: nat | FirstWith(issues, last, j)
      ensures j == |init|
    {
      if j < |init| {
        PresentIsCounted(init, j);
      }
    }
  }

  lemma {:induction false} OrderIsByFirstOccurrence(issues: seq<Issue>)
    ensures ByFirstOccurrence(issues, Aggregated(issues).order)
  {
    if issues != [] {
      var n := |issues| - 1;
      var init, before, order := issues[..n], Aggregated(issues[..n]), Aggregated(issues).order;
      OrderIsByFirstOccurrence(init);
      AggregatedOrder(init);
      forall a, b | 0 <= a < b < |order|
        ensures Precedes(issues, order[a], order[b])
      {
        assert order[a] in before.order;
        AggregatedExact(init, order[a]);
        AggregatedExact(init, order[b]);
        if b < |before.order| {
          assert order[b] in before.order;
          assert Precedes(init, order[a], order[b]);
          PrecedesStays(issues, order[a], order[b]);
        } else {
          PrecedesLast(issues, order[a]);
        }
      }
    }
  }

  // ---------------------------------------------------------------- the diff

  datatype ChangeType = SCORE_DROP | SCORE_IMPROVEMENT | NEW_ISSUE | RESOLVED_ISSUE

  datatype Change = Change(changeType: ChangeType, issueCode: Option<string>, category: Option<Category>,
                           severity: Option<Severity>, title: string, delta: int, resourceUrl: Option<string>)

  function CountIn(a: Aggregate, key: string): nat {
    if key in a.entries then a.entries[key].count else 0
  }

  function IssueChange(e: Entry, delta: int): Change {
    Change(if delta > 0 then NEW_ISSUE else RESOLVED_ISSUE,
           Some(e.issueCode), Some(e.category), Some(e.severity), e.title, delta, e.resourceUrl)
  }

  /** The change pushed for one key of either map, if any: details of the target entry first. */
  function ChangesAt(baseline: Aggregate, target: Aggregate, key: string): seq<Change> {
    var delta := CountIn(target, key) - CountIn(baseline, key);
    if delta == 0 then []
    else if key in target.entries then [IssueChange(target.entries[key], delta)]
    else if key in baseline.entries then [IssueChange(baseline.entries[key], delta)]
    else []
  }

  function ChangesOver(baseline: Aggregate, target: Aggregate, keys: seq<string>): seq<Change> {
    if keys == [] then []
    else ChangesOver(baseline, target, keys[..|keys| - 1]) + ChangesAt(baseline, target, keys[|keys| - 1])
  }

  /** The union of both key lists as a JavaScript Set. */
  function AddNew(keys: seq<string>, more: seq<string>): seq<string> {
    if more == [] then keys
    else
      var rest := AddNew(keys, more[..|more| - 1]);
      if more[|more| - 1] in rest then rest else rest + [more[|more| - 1]]
  }

  function AllKeys(baseline: Aggregate, target: Aggregate): seq<string> {
    AddNew(baseline.order, target.order)
  }

  function ScoreDelta(from: Run, to: Run): int {
    Or(to.score, 0) - Or(from.score, 0)
  }

  function ScoreChanges(delta: int): seq<Change> {
    if delta < 0 then [Change(SCORE_DROP, None, None, None, "Descenso de puntuación SEO", delta, None)]
    else if delta > 0 then [Change(SCORE_IMPROVEMENT, None, None, None, "Mejora de puntuación SEO", delta, None)]
    else []
  }

  function IssueChanges(from: seq<Issue>, to: seq<Issue>): seq<Change> {
    var baseline, target := Aggregated(from), Aggregated(to);
    ChangesOver(baseline, target, AllKeys(baseline, target))
  }

  predicate HasType(changes: seq<Change>, changeType: ChangeType) {
    exists k | 0 <= k < |changes| :: changes[k].changeType == changeType
  }

  predicate IsImprovement(c: Change) {
    c.changeType == SCORE_IMPROVEMENT || c.changeType == RESOLVED_ISSUE
  }

  predicate IsRegression(c: Change) {
    c.changeType == SCORE_DROP || c.changeType == NEW_ISSUE
  }

  function Improvements(changes: seq<Change>): nat {
    if changes == [] then 0
    else Improvements(changes[..|changes| - 1]) + if IsImprovement(changes[|changes| - 1]) then 1 else 0
  }

  function Regressions(changes: seq<Change>): nat {
    if changes == [] then 0
    else Regressions(changes[..|changes| - 1]) + if IsRegression(changes[|changes| - 1]) then 1 else 0
  }

  datatype Snapshot = Snapshot(changes: seq<Change>, issuesDelta: int, scoreDelta: int,
                               improvementsCount: nat, regressionsCount: nat,
                               fromSeverity: map<Severity, nat>, toSeverity: map<Severity, nat>)

  function OfSeverity(issues: seq<Issue>, severity: Severity): nat {
    if issues == [] then 0
    else OfSeverity(issues[..|issues| - 1], severity) + if issues[|issues| - 1].severity == severity then 1 else 0
  }

  /** The number of issues of each severity that occurs. */
  predicate CountsSeverities(counts: map<Severity, nat>, issues: seq<Issue>, severity: Severity) {
    && (severity in counts <==> OfSeverity(issues, severity) > 0)
    && (severity in counts ==> counts[severity] == OfSeverity(issues, severity))
  }

  function SeverityPositions(issues: seq<Issue>, severity: Severity): set<nat> {
    set i: nat | i < |issues| && issues[i].severity == severity
  }

  lemma {:induction false} OfSeverityExact(issues: seq<Issue>, severity: Severity)
    ensures OfSeverity(issues, severity) == |SeverityPositions(issues, severity)|
  {
    if issues == [] {
      assert SeverityPositions(issues, severity) == {};
    } else {
      var init, last := issues[..|issues| - 1], issues[|issues| - 1];
      OfSeverityExact(init, severity);
      assert SeverityPositions(issues, severity) ==
             SeverityPositions(init, severity) + if last.severity == severity then {|issues| - 1} else {};
    }
  }

  method BySeverity(items: seq<Issue>) returns (counts: map<Severity, nat>)
    ensures forall severity :: severity in counts <==> OfSeverity(items, severity) != 0
    ensures forall severity | severity in counts :: counts[severity] == OfSeverity(items, severity)
  {
    counts := map[];
    var i := 0;
    while i < |items|
      invariant 0 <= i <= |items|
      invariant forall severity :: CountsSeverities(counts, items[..i], severity)
    {
      assert items[..i + 1][..i] == items[..i];
      var severity := items[i].severity;
      assert CountsSeverities(counts, items[..i], severity);
      var more := counts[severity := (if severity in counts then counts[severity] else 0) + 1];
      var seen := items[..i + 1];
      forall other
        ensures CountsSeverities(more, seen, other)
      {
        assert CountsSeverities(counts, items[..i], other);
      }
      counts := more;
      i := i + 1;
    }
    assert items[..i] == items;
    forall severity
      ensures severity in counts <==> OfSeverity(items, severity) != 0
      ensures severity in counts ==> counts[severity] == OfSeverity(items, severity)
    {
      assert CountsSeverities(counts, items, severity);
    }
  }

  method UnionOfKeys(left: seq<string>, right: seq<string>) returns (keys: seq<string>)
    ensures keys == AddNew(left, right)
  {
    keys := left;
    var i := 0;
    while i < |right|
      invariant 0 <= i <= |right|
      invariant keys == AddNew(left, right[..i])
    {
      assert right[..i + 1][..i] == right[..i];
      if right[i] !in keys {
        keys := keys + [right[i]];
      }
      i := i + 1;
    }
    assert right[..i] == right;
  }

  method CountChanges(changes: seq<Change>) returns (improvements: nat, regressions: nat)
    ensures improvements == Improvements(changes) && regressions == Regressions(changes)
  {
    improvements, regressions := 0, 0;
    var i := 0;
    while i < |changes|
      invariant 0 <= i <= |changes|
      invariant improvements == Improvements(changes[..i]) && regressions == Regressions(changes[..i])
    {
      assert changes[..i + 1][..i] == changes[..i];
      if IsImprovement(changes[i]) {
        improvements := improvements + 1;
      }
      if IsRegression(changes[i]) {
        regressions := regressions + 1;
      }
      i := i + 1;
    }
    assert changes[..i] == changes;
  }

  lemma ChangesOverStep(baseline: Aggregate, target: Aggregate, keys: seq<string>, i: nat)
    requires i < |keys|
    ensures ChangesOver(baseline, target, keys[..i + 1]) ==
            ChangesOver(baseline, target, keys[..i]) + ChangesAt(baseline, target, keys[i])
  {
    assert keys[..i + 1][..i] == keys[..i];
  }

  /** The loop over all keys. */
  method DiffAggregates(baseline: Aggregate, target: Aggregate) returns (changes: seq<Change>)
    ensures changes == ChangesOver(baseline, target, AllKeys(baseline, target))
  {
    var allKeys := UnionOfKeys(baseline.order, target.order);
    changes := [];
    var i := 0;
    while i < |allKeys|
      invariant 0 <= i <= |allKeys|
      invariant changes == ChangesOver(baseline, target, allKeys[..i])
    {
      ChangesOverStep(baseline, target, allKeys, i);
      var key := allKeys[i];
      var left := if key in baseline.entries then Some(baseline.entries[key]) else None;
      var right := if key in target.entries then Some(target.entries[key]) else None;
      var delta := (if right.Some? then right.value.count else 0) - (if left.Some? then left.value.count else 0);
      if delta != 0 {
        var details := if right.Some? then right.value else left.value;
        changes := changes + [IssueChange(details, delta)];
      }
      i := i + 1;
    }
    assert allKeys[..i] == allKeys;
  }

  method BuildComparisonSnapshot(fromRun: Run, toRun: Run) returns (s: Snapshot)
    ensures s.changes == ScoreChanges(ScoreDelta(fromRun, toRun)) + IssueChanges(fromRun.issues, toRun.issues)
    ensures (if fromRun.score.Some? then fromRun.score.value else 0) + s.scoreDelta
            == if toRun.score.Some? then toRun.score.value else 0
    ensures HasType(s.changes, SCORE_DROP) <==> s.scoreDelta < 0
    ensures HasType(s.changes, SCORE_IMPROVEMENT) <==> s.scoreDelta > 0
    ensures forall k | 0 <= k < |s.changes| && s.changes[k].changeType in {SCORE_DROP, SCORE_IMPROVEMENT} ::
              k == 0 && s.changes[k].delta == s.scoreDelta
    ensures s.issuesDelta == |toRun.issues| - |fromRun.issues|
    ensures s.improvementsCount == Improvements(s.changes) && s.regressionsCount == Regressions(s.changes)
    ensures forall severity :: severity in s.fromSeverity <==> OfSeverity(fromRun.issues, severity) != 0
    ensures forall severity | severity in s.fromSeverity ::
              s.fromSeverity[severity] == OfSeverity(fromRun.issues, severity)
    ensures forall severity :: severity in s.toSeverity <==> OfSeverity(toRun.issues, severity) != 0
    ensures forall severity | severity in s.toSeverity :: s.toSeverity[severity] == OfSeverity(toRun.issues, severity)
  {
    var baseline := AggregateIssues(fromRun.issues);
    var target := AggregateIssues(toRun.issues);
    var scoreDelta := Or(toRun.score, 0) - Or(fromRun.score, 0);
    var issueChanges := DiffAggregates(baseline, target);
    var changes := ScoreChanges(scoreDelta) + issueChanges;
    assert changes == AllChanges(fromRun, toRun);
    var improvements, regressions := CountChanges(changes);
    var fromSeverity := BySeverity(fromRun.issues);
    var toSeverity := BySeverity(toRun.issues);
    ScoreChangesExact(fromRun, toRun);
    s := Snapshot(changes, |toRun.issues| - |fromRun.issues|, scoreDelta, improvements, regressions,
                  fromSeverity, toSeverity);
  }

  // ---------------------------------------------------------------- laws

  function ChangeSignature(c: Change): string {
    Signature(Or(c.issueCode, ""), c.resourceUrl, c.title)
  }

  /** What a list of changes does to the count of one signature. */
  function DeltaOf(changes: seq<Change>, key: string): int {
    if changes == [] then 0
    else DeltaOf(changes[..|changes| - 1], key)
         + if ChangeSignature(changes[|changes| - 1]) == key then changes[|changes| - 1].delta else 0
  }

  function TotalDelta(changes: seq<Change>): int {
    if changes == [] then 0 else TotalDelta(changes[..|changes| - 1]) + changes[|changes| - 1].delta
  }

  lemma {:induction false} AddNewIsUnion(keys: seq<string>, more: seq<string>)
    requires Distinct(keys)
    ensures Distinct(AddNew(keys, more))
    ensures forall k :: k in AddNew(keys, more) <==> k in keys || k in more
  {
    if more != [] {
      AddNewIsUnion(keys, more[..|more| - 1]);
      assert more == more[..|more| - 1] + [more[|more| - 1]];
    }
  }

  lemma ChangesAtExact(from: seq<Issue>, to: seq<Issue>, key: string)
    ensures var cs := ChangesAt(Aggregated(from), Aggregated(to), key);
            var delta := Count(to, key) - Count(from, key);
            if delta == 0 then cs == []
            else |cs| == 1 && cs[0].delta == delta && ChangeSignature(cs[0]) == key
                 && cs[0].changeType == if delta > 0 then NEW_ISSUE else RESOLVED_ISSUE
  {
    AggregatedExact(from, key);
    AggregatedExact(to, key);
  }

  lemma {:induction false} DeltaAppends(xs: seq<Change>, ys: seq<Change>, key: string)
    ensures DeltaOf(xs + ys, key) == DeltaOf(xs, key) + DeltaOf(ys, key)
    ensures TotalDelta(xs + ys) == TotalDelta(xs) + TotalDelta(ys)
  {
    if ys == [] {
      assert xs + ys == xs;
    } else {
      DeltaAppends(xs, ys[..|ys| - 1], key);
      assert (xs + ys)[..|xs + ys| - 1] == xs + ys[..|ys| - 1];
    }
  }

  lemma ChangesAtDelta(from: seq<Issue>, to: seq<Issue>, at: string, key: string)
    ensures var cs := ChangesAt(Aggregated(from), Aggregated(to), at);
            && TotalDelta(cs) == Count(to, at) - Count(from, at)
            && DeltaOf(cs, key) == (if key == at then Count(to, at) - Count(from, at) else 0)
            && Regressions(cs) == (if Count(to, at) > Count(from, at) then 1 else 0)
            && Improvements(cs) == (if Count(from, at) > Count(to, at) then 1 else 0)
  {
    ChangesAtExact(from, to, at);
    var cs := ChangesAt(Aggregated(from), Aggregated(to), at);
    if cs != [] {
      assert cs[..0] == [];
    }
  }

  lemma {:induction false} ChangesOverExact(from: seq<Issue>, to: seq<Issue>, keys: seq<string>, key: string)
    requires Distinct(keys)
    ensures DeltaOf(ChangesOver(Aggregated(from), Aggregated(to), keys), key) ==
            if key in keys then Count(to, key) - Count(from, key) else 0
  {
    if keys != [] {
      var init, last := keys[..|keys| - 1], keys[|keys| - 1];
      LastKey(keys, key);
      ChangesOverExact(from, to, init, key);
      ChangesAtDelta(from, to, last, key);
      DeltaAppends(ChangesOver(Aggregated(from), Aggregated(to), init),
                   ChangesAt(Aggregated(from), Aggregated(to), last), key);
    }
  }

  lemma LastKey(keys: seq<string>, key: string)
    requires keys != [] && Distinct(keys)
    ensures Distinct(keys[..|keys| - 1]) && keys[|keys| - 1] !in keys[..|keys| - 1]
    ensures key in keys <==> key in keys[..|keys| - 1] || key == keys[|keys| - 1]
  {
    assert keys == keys[..|keys| - 1] + [keys[|keys| - 1]];
  }

  lemma KeysCoverBoth(from: seq<Issue>, to: seq<Issue>, key: string)
    ensures Distinct(AllKeys(Aggregated(from), Aggregated(to)))
    ensures key in AllKeys(Aggregated(from), Aggregated(to)) <==> Count(from, key) > 0 || Count(to, key) > 0
  {
    AggregatedOrder(from);
    AggregatedOrder(to);
    AddNewIsUnion(Aggregated(from).order, Aggregated(to).order);
    AggregatedExact(from, key);
    AggregatedExact(to, key);
  }

  /** Patch: the issue changes turn the baseline's count of every signature into the target's. */
  lemma ChangesPatchBaseline(from: seq<Issue>, to: seq<Issue>, key: string)
    ensures Count(from, key) + DeltaOf(IssueChanges(from, to), key) == Count(to, key)
  {
    KeysCoverBoth(from, to, key);
    ChangesOverExact(from, to, AllKeys(Aggregated(from), Aggregated(to)), key);
  }

  /** Composition: comparing a with b and b with c says, signature by signature, what comparing a with c
      says. */
  lemma ChangesCompose(a: seq<Issue>, b: seq<Issue>, c: seq<Issue>, key: string)
    ensures DeltaOf(IssueChanges(a, b), key) + DeltaOf(IssueChanges(b, c), key) == DeltaOf(IssueChanges(a, c), key)
  {
    ChangesPatchBaseline(a, b, key);
    ChangesPatchBaseline(b, c, key);
    ChangesPatchBaseline(a, c, key);
  }

  /** Antisymmetry: swapping the runs negates every delta. */
  lemma ChangesNegate(a: seq<Issue>, b: seq<Issue>, key: string)
    ensures DeltaOf(IssueChanges(a, b), key) == -DeltaOf(IssueChanges(b, a), key)
  {
    ChangesPatchBaseline(a, b, key);
    ChangesPatchBaseline(b, a, key);
  }

  /** Each change has its own signature, a non-zero delta and the type of its sign. */
  predicate Proper(from: seq<Issue>, to: seq<Issue>, changes: seq<Change>) {
    && (forall i, j | 0 <= i < j < |changes| :: ChangeSignature(changes[i]) != ChangeSignature(changes[j]))
    && (forall i | 0 <= i < |changes| ::
          && changes[i].delta == Count(to, ChangeSignature(changes[i])) - Count(from, ChangeSignature(changes[i]))
          && changes[i].delta != 0
          && changes[i].changeType == if changes[i].delta > 0 then NEW_ISSUE else RESOLVED_ISSUE)
  }

  lemma {:induction false} ChangesOverProper(from: seq<Issue>, to: seq<Issue>, keys: seq<string>)
    requires Distinct(keys)
    ensures var changes := ChangesOver(Aggregated(from), Aggregated(to), keys);
            Proper(from, to, changes) && forall i | 0 <= i < |changes| :: ChangeSignature(changes[i]) in keys
  {
    if keys != [] {
      ChangesOverProper(from, to, keys[..|keys| - 1]);
      ChangesAtExact(from, to, keys[|keys| - 1]);
      assert keys == keys[..|keys| - 1] + [keys[|keys| - 1]];
    }
  }

  lemma IssueChangesAreProper(from: seq<Issue>, to: seq<Issue>)
    ensures Proper(from, to, IssueChanges(from, to))
  {
    KeysCoverBoth(from, to, "");
    ChangesOverProper(from, to, AllKeys(Aggregated(from), Aggregated(to)));
  }

  /** The change shows this issue. */
  predicate Describes(c: Change, x: Issue) {
    && c.issueCode == Some(x.issueCode) && c.category == Some(x.category) && c.severity == Some(x.severity)
    && c.title == x.message && c.resourceUrl == x.resourceUrl
  }

  /** The change shows the first issue of the signature in the target, or in the baseline if the target has none. */
  predicate ShowsFirst(from: seq<Issue>, to: seq<Issue>, c: Change, key: string) {
    if Count(to, key) > 0 then exists i: nat | i < |to| :: FirstWith(to, key, i) && Describes(c, to[i])
    else exists i: nat | i < |from| :: FirstWith(from, key, i) && Describes(c, from[i])
  }

  lemma {:induction false} FirstExists(issues: seq<Issue>, key: string) returns (i: nat)
    requires Count(issues, key) > 0
    ensures FirstWith(issues, key, i)
  {
    var n := |issues| - 1;
    if Count(issues[..n], key) > 0 {
      i := FirstExists(issues[..n], key);
    } else {
      forall j | 0 <= j < n
        ensures SignatureOf(issues[j]) != key
      {
        PresentIsCounted(issues[..n], j);
      }
      i := n;
    }
  }

  lemma ChangesAtShow(from: seq<Issue>, to: seq<Issue>, key: string)
    ensures forall c | c in ChangesAt(Aggregated(from), Aggregated(to), key) :: ShowsFirst(from, to, c, key)
  {
    AggregatedExact(from, key);
    AggregatedExact(to, key);
    if Count(to, key) > 0 {
      var i := FirstExists(to, key);
      FirstIssueIsKept(to, key, i);
    } else if Count(from, key) > 0 {
      var i := FirstExists(from, key);
      FirstIssueIsKept(from, key, i);
    }
  }

  lemma {:induction false} ChangesOverShow(from: seq<Issue>, to: seq<Issue>, keys: seq<string>)
    ensures forall c | c in ChangesOver(Aggregated(from), Aggregated(to), keys) ::
              ShowsFirst(from, to, c, ChangeSignature(c))
  {
    if keys != [] {
      ChangesOverShow(from, to, keys[..|keys| - 1]);
      ChangesAtShow(from, to, keys[|keys| - 1]);
      ChangesAtExact(from, to, keys[|keys| - 1]);
    }
  }

  /** Code, category, severity, message and URL of every change are those of the first issue of its signature in the
      target, or in the baseline if it has gone. */
  lemma ChangesShowFirstIssues(from: seq<Issue>, to: seq<Issue>)
    ensures forall c | c in IssueChanges(from, to) :: ShowsFirst(from, to, c, ChangeSignature(c))
  {
    ChangesOverShow(from, to, AllKeys(Aggregated(from), Aggregated(to)));
  }

  /** Aggregating one more issue and joining its key come to the same. */
  lemma JoinStep(a: Aggregate, b: Aggregate, all: Aggregate, i: Issue)
    requires WellOrdered(a) && WellOrdered(b) && WellOrdered(all) && AddNew(a.order, b.order) == all.order
    ensures AddNew(a.order, AddIssue(b, i).order) == AddIssue(all, i).order
  {
    var key := SignatureOf(i);
    AddNewIsUnion(a.order, b.order);
    if key !in b.entries {
      var more := b.order + [key];
      assert more[..|more| - 1] == b.order && more[|more| - 1] == key;
      assert key in all.order <==> key in all.entries;
    } else {
      assert key in b.order;
      assert key in all.order;
    }
  }

  lemma {:induction false} KeysOfJoin(from: seq<Issue>, to: seq<Issue>)
    ensures AllKeys(Aggregated(from), Aggregated(to)) == Aggregated(from + to).order
  {
    if to == [] {
      assert from + to == from;
    } else {
      var all, init := from + to, to[..|to| - 1];
      assert all[..|all| - 1] == from + init && all[|all| - 1] == to[|to| - 1];
      KeysOfJoin(from, init);
      AggregatedOrder(from);
      AggregatedOrder(init);
      AggregatedOrder(from + init);
      JoinStep(Aggregated(from), Aggregated(init), Aggregated(from + init), to[|to| - 1]);
    }
  }

  ghost predicate InKeyOrder(changes: seq<Change>, issues: seq<Issue>) {
    forall a, b | 0 <= a < b < |changes| ::
      Precedes(issues, ChangeSignature(changes[a]), ChangeSignature(changes[b]))
  }

  lemma {:induction false} ChangesOverInOrder(from: seq<Issue>, to: seq<Issue>, keys: seq<string>, issues: seq<Issue>)
    requires Distinct(keys) && ByFirstOccurrence(issues, keys)
    ensures InKeyOrder(ChangesOver(Aggregated(from), Aggregated(to), keys), issues)
  {
    if keys != [] {
      var n := |keys| - 1;
      ChangesOverInOrder(from, to, keys[..n], issues);
      ChangesAtExact(from, to, keys[n]);
      var fewer := ChangesOver(Aggregated(from), Aggregated(to), keys[..n]);
      ChangesOverProper(from, to, keys[..n]);
      forall a | 0 <= a < |fewer|
        ensures Precedes(issues, ChangeSignature(fewer[a]), keys[n])
      {
        var i :| 0 <= i < n && keys[i] == ChangeSignature(fewer[a]);
      }
    }
  }

  /** The changes come in the order in which their signatures first occur in the baseline and then the target. */
  lemma ChangesInOrder(from: seq<Issue>, to: seq<Issue>)
    ensures InKeyOrder(IssueChanges(from, to), from + to)
  {
    KeysOfJoin(from, to);
    OrderIsByFirstOccurrence(from + to);
    AggregatedOrder(from + to);
    ChangesOverInOrder(from, to, AllKeys(Aggregated(from), Aggregated(to)), from + to);
  }

  function SumOfCounts(issues: seq<Issue>, keys: seq<string>): nat {
    if keys == [] then 0 else SumOfCounts(issues, keys[..|keys| - 1]) + Count(issues, keys[|keys| - 1])
  }

  lemma {:induction false} SumOfCountsGrows(issues: seq<Issue>, keys: seq<string>)
    requires issues != [] && Distinct(keys)
    ensures SumOfCounts(issues, keys) ==
            SumOfCounts(issues[..|issues| - 1], keys) + if SignatureOf(issues[|issues| - 1]) in keys then 1 else 0
  {
    if keys != [] {
      SumOfCountsGrows(issues, keys[..|keys| - 1]);
      assert keys == keys[..|keys| - 1] + [keys[|keys| - 1]];
    }
  }

  lemma {:induction false} SumOfCountsIsLength(issues: seq<Issue>, keys: seq<string>)
    requires Distinct(keys) && forall i | 0 <= i < |issues| :: SignatureOf(issues[i]) in keys
    ensures SumOfCounts(issues, keys) == |issues|
  {
    if issues == [] {
      NoIssuesNoCounts(keys);
    } else {
      SumOfCountsIsLength(issues[..|issues| - 1], keys);
      SumOfCountsGrows(issues, keys);
    }
  }

  lemma {:induction false} NoIssuesNoCounts(keys: seq<string>)
    ensures SumOfCounts([], keys) == 0
  {
    if keys != [] {
      NoIssuesNoCounts(keys[..|keys| - 1]);
    }
  }

  lemma {:induction false} PresentIsCounted(issues: seq<Issue>, i: nat)
    requires i < |issues|
    ensures Count(issues, SignatureOf(issues[i])) > 0
  {
    if i < |issues| - 1 {
      PresentIsCounted(issues[..|issues| - 1], i);
    }
  }

  lemma {:induction false} TotalOverKeys(from: seq<Issue>, to: seq<Issue>, keys: seq<string>)
    ensures TotalDelta(ChangesOver(Aggregated(from), Aggregated(to), keys)) ==
            SumOfCounts(to, keys) - SumOfCounts(from, keys)
  {
    if keys != [] {
      var init, last := keys[..|keys| - 1], keys[|keys| - 1];
      TotalOverKeys(from, to, init);
      ChangesAtDelta(from, to, last, last);
      DeltaAppends(ChangesOver(Aggregated(from), Aggregated(to), init),
                   ChangesAt(Aggregated(from), Aggregated(to), last), last);
    }
  }

  /** Conservation: the deltas of the issue changes add up to the reported `issuesDelta`. */
  lemma DeltasSumToIssuesDelta(from: seq<Issue>, to: seq<Issue>)
    ensures TotalDelta(IssueChanges(from, to)) == |to| - |from|
  {
    var keys := AllKeys(Aggregated(from), Aggregated(to));
    KeysCoverBoth(from, to, "");
    forall key
      ensures key in keys <==> Count(from, key) > 0 || Count(to, key) > 0
    {
      KeysCoverBoth(from, to, key);
    }
    forall i | 0 <= i < |from|
      ensures SignatureOf(from[i]) in keys
    {
      PresentIsCounted(from, i);
    }
    forall i | 0 <= i < |to|
      ensures SignatureOf(to[i]) in keys
    {
      PresentIsCounted(to, i);
    }
    TotalOverKeys(from, to, keys);
    SumOfCountsIsLength(from, keys);
    SumOfCountsIsLength(to, keys);
  }

  /** The signatures that occur more often in `to`. */
  function Grown(from: seq<Issue>, to: seq<Issue>, keys: seq<string>): set<string> {
    set k | k in keys && Count(to, k) > Count(from, k)
  }

  /** All signatures that occur more often in `to`, whichever way the keys are listed. */
  function GrownSignatures(from: seq<Issue>, to: seq<Issue>): set<string> {
    set i | 0 <= i < |to| && Count(to, SignatureOf(to[i])) > Count(from, SignatureOf(to[i])) :: SignatureOf(to[i])
  }

  lemma {:induction false} CountedIsPresent(issues: seq<Issue>, key: string)
    requires Count(issues, key) > 0
    ensures exists i | 0 <= i < |issues| :: SignatureOf(issues[i]) == key
  {
    if SignatureOf(issues[|issues| - 1]) != key {
      CountedIsPresent(issues[..|issues| - 1], key);
    }
  }

  lemma GrownOverAllKeys(from: seq<Issue>, to: seq<Issue>, keys: seq<string>)
    requires forall key :: key in keys <==> Count(from, key) > 0 || Count(to, key) > 0
    ensures Grown(from, to, keys) == GrownSignatures(from, to)
  {
    forall k | k in Grown(from, to, keys)
      ensures k in GrownSignatures(from, to)
    {
      CountedIsPresent(to, k);
    }
  }

  lemma {:induction false} SummaryAppends(xs: seq<Change>, ys: seq<Change>)
    ensures Improvements(xs + ys) == Improvements(xs) + Improvements(ys)
    ensures Regressions(xs + ys) == Regressions(xs) + Regressions(ys)
  {
    if ys == [] {
      assert xs + ys == xs;
    } else {
      SummaryAppends(xs, ys[..|ys| - 1]);
      assert (xs + ys)[..|xs + ys| - 1] == xs + ys[..|ys| - 1];
    }
  }

  lemma {:induction false} SummaryOverKeys(from: seq<Issue>, to: seq<Issue>, keys: seq<string>)
    requires Distinct(keys)
    ensures var changes := ChangesOver(Aggregated(from), Aggregated(to), keys);
            Regressions(changes) == |Grown(from, to, keys)| && Improvements(changes) == |Grown(to, from, keys)|
  {
    if keys != [] {
      var init, last := keys[..|keys| - 1], keys[|keys| - 1];
      SummaryOverKeys(from, to, init);
      ChangesAtDelta(from, to, last, last);
      SummaryAppends(ChangesOver(Aggregated(from), Aggregated(to), init),
                     ChangesAt(Aggregated(from), Aggregated(to), last));
      assert keys == init + [last];
      GrownByLast(from, to, init, last);
      GrownByLast(to, from, init, last);
    }
  }

  lemma GrownByLast(from: seq<Issue>, to: seq<Issue>, init: seq<string>, last: string)
    requires last !in init
    ensures |Grown(from, to, init + [last])| ==
            |Grown(from, to, init)| + if Count(to, last) > Count(from, last) then 1 else 0
  {
    var one := if Count(to, last) > Count(from, last) then {last} else {};
    assert Grown(from, to, init + [last]) == Grown(from, to, init) + one;
  }

  function AllChanges(from: Run, to: Run): seq<Change> {
    ScoreChanges(ScoreDelta(from, to)) + IssueChanges(from.issues, to.issues)
  }

  /** The score of a run, a missing one counting as 0. */
  function Points(run: Run): int {
    if run.score.Some? then run.score.value else 0
  }

  /** The score change comes first and is the only one of its kind; it says by how much the target's score is
      lower or higher than the baseline's. */
  lemma ScoreChangesExact(from: Run, to: Run)
    ensures var changes := AllChanges(from, to);
            && (HasType(changes, SCORE_DROP) <==> Points(to) < Points(from))
            && (HasType(changes, SCORE_IMPROVEMENT) <==> Points(to) > Points(from))
            && (forall k | 0 <= k < |changes| && changes[k].changeType in {SCORE_DROP, SCORE_IMPROVEMENT} ::
                  && k == 0 && Points(from) + changes[k].delta == Points(to)
                  && changes[k].title == (if changes[k].changeType == SCORE_DROP then "Descenso de puntuación SEO"
                                          else "Mejora de puntuación SEO")
                  && changes[k].issueCode == None && changes[k].category == None && changes[k].severity == None)
  {
    var changes, issueChanges := AllChanges(from, to), IssueChanges(from.issues, to.issues);
    var n := |changes| - |issueChanges|;
    IssueChangesAreProper(from.issues, to.issues);
    forall k | n <= k < |changes|
      ensures changes[k].changeType == NEW_ISSUE || changes[k].changeType == RESOLVED_ISSUE
    {
      assert changes[k] == issueChanges[k - n];
    }
    if n == 1 {
      assert changes[0] == ScoreChanges(ScoreDelta(from, to))[0];
    }
  }

  lemma ScoreSummary(from: Run, to: Run)
    ensures Regressions(ScoreChanges(ScoreDelta(from, to))) == if Points(to) < Points(from) then 1 else 0
    ensures Improvements(ScoreChanges(ScoreDelta(from, to))) == if Points(to) > Points(from) then 1 else 0
  {
    var changes := ScoreChanges(ScoreDelta(from, to));
    if changes != [] {
      assert changes[..|changes| - 1] == [];
    }
  }

  /** The summary counts the signatures that grew or shrank, plus one for the score. */
  lemma SummaryCountsSignatures(from: Run, to: Run)
    ensures Regressions(AllChanges(from, to)) ==
            |GrownSignatures(from.issues, to.issues)| + if Points(to) < Points(from) then 1 else 0
    ensures Improvements(AllChanges(from, to)) ==
            |GrownSignatures(to.issues, from.issues)| + if Points(to) > Points(from) then 1 else 0
  {
    var keys := AllKeys(Aggregated(from.issues), Aggregated(to.issues));
    KeysCoverBoth(from.issues, to.issues, "");
    forall key
      ensures key in keys <==> Count(from.issues, key) > 0 || Count(to.issues, key) > 0
    {
      KeysCoverBoth(from.issues, to.issues, key);
    }
    SummaryOverKeys(from.issues, to.issues, keys);
    GrownOverAllKeys(from.issues, to.issues, keys);
    GrownOverAllKeys(to.issues, from.issues, keys);
    ScoreSummary(from, to);
    SummaryAppends(ScoreChanges(ScoreDelta(from, to)), IssueChanges(from.issues, to.issues));
  }

  /** Swapping the runs swaps improvements with regressions. */
  lemma SwapExchangesSummary(a: Run, b: Run)
    ensures Improvements(AllChanges(a, b)) == Regressions(AllChanges(b, a))
    ensures Regressions(AllChanges(a, b)) == Improvements(AllChanges(b, a))
  {
    SummaryCountsSignatures(a, b);
    SummaryCountsSignatures(b, a);
  }
}
