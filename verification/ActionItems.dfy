/** The action plan of a run: issues grouped by code, scored and sorted. */
module ActionItems {
  import opened Common
  import opened Sorting

  /** A member of the `IssueCode` enumeration. */
  type IssueCode = nat

  datatype Severity = LOW | MEDIUM | HIGH | CRITICAL

  datatype Category = ON_PAGE | TECHNICAL | CRAWLABILITY | MEDIA | PERFORMANCE

  datatype Level = Low | Medium | High

  /** `evidence` is what `summarizeIssueEvidence` makes of the issue, "" for null. */
  datatype Issue = Issue(issueCode: IssueCode, category: Category, severity: Severity, message: string,
                         resourceUrl: Option<string>, evidence: string)

  datatype Definition = Definition(baseDeduction: real, repeatIncrement: real, maxDeduction: real)

  type Definitions = IssueCode -> Definition

  function Rank(s: Severity): nat {
    match s case CRITICAL => 4 case HIGH => 3 case MEDIUM => 2 case LOW => 1
  }

  function SeverityPriority(s: Severity): nat {
    match s case CRITICAL => 100 case HIGH => 70 case MEDIUM => 40 case LOW => 15
  }

  // ---------------------------------------------------------------- grouping

  /** `affectedPages` lists a JavaScript Set in insertion order. */
  datatype Accum = Accum(issueCode: IssueCode, category: Category, severity: Severity, message: string,
                         occurrences: nat, affectedPages: seq<string>, evidenceSamples: seq<string>)

  datatype Grouping = Grouping(order: seq<IssueCode>, entries: map<IssueCode, Accum>)

  function PageOf(i: Issue): string {
    match i.resourceUrl case Some(url) => url case None => ""
  }

  function NewAccum(i: Issue): Accum {
    Accum(i.issueCode, i.category, i.severity, i.message, 1, [PageOf(i)], if i.evidence == "" then [] else [i.evidence])
  }

  function Grown(a: Accum, i: Issue): Accum {
    var worse := Rank(i.severity) > Rank(a.severity);
    a.(occurrences := a.occurrences + 1,
       affectedPages := if PageOf(i) in a.affectedPages then a.affectedPages else a.affectedPages + [PageOf(i)],
       evidenceSamples := if i.evidence != "" && |a.evidenceSamples| < 3 then a.evidenceSamples + [i.evidence]
         else a.evidenceSamples,
       severity := if worse then i.severity else a.severity,
       message := if worse then i.message else a.message)
  }

  function AddIssue(g: Grouping, i: Issue): Grouping {
    if i.issueCode in g.entries then g.(entries := g.entries[i.issueCode := Grown(g.entries[i.issueCode], i)])
    else Grouping(g.order + [i.issueCode], g.entries[i.issueCode := NewAccum(i)])
  }

  function Grouped(issues: seq<Issue>): Grouping {
    if issues == [] then Grouping([], map[]) else AddIssue(Grouped(issues[..|issues| - 1]), issues[|issues| - 1])
  }

  method GroupIssues(issues: seq<Issue>) returns (g: Grouping)
    ensures g == Grouped(issues)
  {
    var order: seq<IssueCode>, entries: map<IssueCode, Accum> := [], map[];
    var n := 0;
    while n < |issues|
      invariant 0 <= n <= |issues|
      invariant Grouping(order, entries) == Grouped(issues[..n])
    {
      assert issues[..n + 1][..n] == issues[..n];
      var issue := issues[n];
      if issue.issueCode in entries {
        entries := entries[issue.issueCode := Grown(entries[issue.issueCode], issue)];
      } else {
        order := order + [issue.issueCode];
        entries := entries[issue.issueCode := NewAccum(issue)];
      }
      n := n + 1;
    }
    assert issues[..n] == issues;
    g := Grouping(order, entries);
  }

  // ---------------------------------------------------------------- what a group is

  function Count(issues: seq<Issue>, code: IssueCode): nat {
    if issues == [] then 0
    else Count(issues[..|issues| - 1], code) + if issues[|issues| - 1].issueCode == code then 1 else 0
  }

  function Pages(issues: seq<Issue>, code: IssueCode): set<string> {
    set i | i in issues && i.issueCode == code :: PageOf(i)
  }

  /** The first of the code's most severe issues. */
  predicate IsFirstWorst(issues: seq<Issue>, code: IssueCode, n: nat) {
    && n < |issues| && issues[n].issueCode == code
    && (forall j | 0 <= j < |issues| && issues[j].issueCode == code ::
      Rank(issues[j].severity) <= Rank(issues[n].severity))
    && (forall j | 0 <= j < n && issues[j].issueCode == code :: Rank(issues[j].severity) < Rank(issues[n].severity))
  }

  predicate IsFirstWorstSeverity(issues: seq<Issue>, code: IssueCode, severity: Severity, message: string) {
    exists n | 0 <= n < |issues| ::
      IsFirstWorst(issues, code, n) && severity == issues[n].severity && message == issues[n].message
  }

  predicate TellsFirstWorst(issues: seq<Issue>, code: IssueCode, a: Accum) {
    IsFirstWorstSeverity(issues, code, a.severity, a.message)
  }

  lemma {:induction false} GroupedOrder(issues: seq<Issue>)
    ensures Distinct(Grouped(issues).order)
    ensures forall code :: code in Grouped(issues).order <==> code in Grouped(issues).entries
  {
    if issues != [] {
      GroupedOrder(issues[..|issues| - 1]);
    }
  }

  lemma {:induction false} GroupedCounts(issues: seq<Issue>, code: IssueCode)
    ensures code in Grouped(issues).entries <==> Count(issues, code) > 0
    ensures code in Grouped(issues).entries ==>
              Grouped(issues).entries[code].occurrences == Count(issues, code)
                && Grouped(issues).entries[code].issueCode == code
  {
    if issues != [] {
      GroupedCounts(issues[..|issues| - 1], code);
    }
  }

  lemma PagesGrow(issues: seq<Issue>, code: IssueCode)
    requires issues != []
    ensures var init, last := issues[..|issues| - 1], issues[|issues| - 1];
            Pages(issues, code) == Pages(init, code) + if last.issueCode == code then {PageOf(last)} else {}
  {
    assert issues == issues[..|issues| - 1] + [issues[|issues| - 1]];
  }

  lemma {:induction false} CountedOccurs(issues: seq<Issue>, code: IssueCode)
    ensures Count(issues, code) == 0 <==> forall i | i in issues :: i.issueCode != code
  {
    if issues != [] {
      CountedOccurs(issues[..|issues| - 1], code);
      assert issues == issues[..|issues| - 1] + [issues[|issues| - 1]];
    }
  }

  lemma {:induction false} GroupedPages(issues: seq<Issue>, code: IssueCode)
    requires code in Grouped(issues).entries
    ensures Distinct(Grouped(issues).entries[code].affectedPages)
    ensures forall p :: p in Grouped(issues).entries[code].affectedPages <==> p in Pages(issues, code)
  {
    var init := issues[..|issues| - 1];
    PagesGrow(issues, code);
    if code in Grouped(init).entries {
      GroupedPages(init, code);
    } else {
      GroupedCounts(init, code);
      CountedOccurs(init, code);
    }
  }

  lemma FirstWorstStays(init: seq<Issue>, last: Issue, code: IssueCode, n: nat)
    requires IsFirstWorst(init, code, n)
    requires last.issueCode == code ==> Rank(last.severity) <= Rank(init[n].severity)
    ensures IsFirstWorst(init + [last], code, n)
  {
  }

  lemma FirstWorstMoves(init: seq<Issue>, last: Issue, n: nat)
    requires IsFirstWorst(init, last.issueCode, n) && Rank(last.severity) > Rank(init[n].severity)
    ensures IsFirstWorst(init + [last], last.issueCode, |init|)
  {
  }

  /** One turn of the loop keeps a group telling its first worst issue. */
  lemma GrownTellsFirstWorst(init: seq<Issue>, last: Issue, code: IssueCode, a: Accum)
    requires TellsFirstWorst(init, code, a)
    ensures TellsFirstWorst(init + [last], code, if last.issueCode == code then Grown(a, last) else a)
  {
    var n :| 0 <= n < |init| && IsFirstWorst(init, code, n) && a.severity == init[n].severity
      && a.message == init[n].message;
    if last.issueCode == code && Rank(last.severity) > Rank(a.severity) {
      FirstWorstMoves(init, last, n);
      assert (init + [last])[|init|] == last;
    } else {
      FirstWorstStays(init, last, code, n);
      assert (init + [last])[n] == init[n];
    }
  }

  lemma NewTellsFirstWorst(init: seq<Issue>, last: Issue)
    requires forall i | i in init :: i.issueCode != last.issueCode
    ensures TellsFirstWorst(init + [last], last.issueCode, NewAccum(last))
  {
    assert IsFirstWorst(init + [last], last.issueCode, |init|);
  }

  lemma WorstStep(g: Grouping, issues: seq<Issue>, code: IssueCode)
    requires issues != [] && code in AddIssue(g, issues[|issues| - 1]).entries
    requires var init := issues[..|issues| - 1];
             if code in g.entries then TellsFirstWorst(init, code, g.entries[code])
             else forall i | i in init :: i.issueCode != code
    ensures TellsFirstWorst(issues, code, AddIssue(g, issues[|issues| - 1]).entries[code])
  {
    var init, last := issues[..|issues| - 1], issues[|issues| - 1];
    assert issues == init + [last];
    if code in g.entries {
      GrownTellsFirstWorst(init, last, code, g.entries[code]);
    } else {
      NewTellsFirstWorst(init, last);
    }
  }

  lemma {:induction false} GroupedWorst(issues: seq<Issue>, code: IssueCode)
    requires code in Grouped(issues).entries
    ensures TellsFirstWorst(issues, code, Grouped(issues).entries[code])
  {
    var init := issues[..|issues| - 1];
    if code in Grouped(init).entries {
      GroupedWorst(init, code);
    } else {
      GroupedCounts(init, code);
      CountedOccurs(init, code);
    }
    WorstStep(Grouped(init), issues, code);
  }

  /** The position of the code's first issue, or the end. */
  function FirstOf(issues: seq<Issue>, code: IssueCode): nat {
    if issues == [] then 0
    else
      var n := FirstOf(issues[..|issues| - 1], code);
      if n < |issues| - 1 || issues[|issues| - 1].issueCode == code then n else |issues|
  }

  lemma {:induction false} FirstOfExact(issues: seq<Issue>, code: IssueCode)
    ensures var n := FirstOf(issues, code);
            && n <= |issues| && (n < |issues| ==> issues[n].issueCode == code)
            && forall j | 0 <= j < n :: issues[j].issueCode != code
  {
    if issues != [] {
      FirstOfExact(issues[..|issues| - 1], code);
    }
  }

  lemma {:induction false} GroupedCategory(issues: seq<Issue>, code: IssueCode)
    requires code in Grouped(issues).entries
    ensures FirstOf(issues, code) < |issues|
    ensures Grouped(issues).entries[code].category == issues[FirstOf(issues, code)].category
  {
    var init := issues[..|issues| - 1];
    FirstOfExact(init, code);
    if code in Grouped(init).entries {
      GroupedCategory(init, code);
    } else {
      GroupedCounts(init, code);
      CountedOccurs(init, code);
    }
  }

  lemma FirstOfStays(issues: seq<Issue>, more: seq<Issue>, code: IssueCode)
    requires FirstOf(issues, code) < |issues|
    ensures FirstOf(issues + more, code) == FirstOf(issues, code)
  {
    FirstOfExact(issues, code);
    FirstOfExact(issues + more, code);
    var m, n := FirstOf(issues, code), FirstOf(issues + more, code);
    assert (issues + more)[m] == issues[m];
  }

  /** The position of the code's first issue on this page, or the end. */
  function FirstIndex(issues: seq<Issue>, code: IssueCode, page: string): nat {
    if issues == [] then 0
    else
      var init, last := issues[..|issues| - 1], issues[|issues| - 1];
      var n := FirstIndex(init, code, page);
      if n < |init| || (last.issueCode == code && PageOf(last) == page) then n else |issues|
  }

  lemma {:induction false} FirstIndexExact(issues: seq<Issue>, code: IssueCode, page: string)
    ensures var n := FirstIndex(issues, code, page);
            && n <= |issues|
            && (n < |issues| ==> issues[n].issueCode == code && PageOf(issues[n]) == page)
            && forall j | 0 <= j < n :: issues[j].issueCode != code || PageOf(issues[j]) != page
  {
    if issues != [] {
      FirstIndexExact(issues[..|issues| - 1], code, page);
    }
  }

  /** Pages on which the code occurs, in the order in which it first does. */
  predicate InFirstOrder(issues: seq<Issue>, code: IssueCode, pages: seq<string>) {
    && (forall i | 0 <= i < |pages| :: FirstIndex(issues, code, pages[i]) < |issues|)
    && (forall i, j | 0 <= i < j < |pages| ::
          FirstIndex(issues, code, pages[i]) < FirstIndex(issues, code, pages[j]))
  }

  lemma FirstIndexStays(init: seq<Issue>, last: Issue, code: IssueCode, page: string)
    ensures var n := FirstIndex(init, code, page);
            FirstIndex(init + [last], code, page) ==
            if n < |init| || (last.issueCode == code && PageOf(last) == page) then n else |init| + 1
  {
    assert (init + [last])[..|init|] == init;
  }

  lemma OrderStays(init: seq<Issue>, last: Issue, code: IssueCode, pages: seq<string>)
    requires InFirstOrder(init, code, pages)
    ensures InFirstOrder(init + [last], code, pages)
  {
    forall i | 0 <= i < |pages|
      ensures FirstIndex(init + [last], code, pages[i]) == FirstIndex(init, code, pages[i])
    {
      FirstIndexStays(init, last, code, pages[i]);
    }
  }

  lemma OrderGrows(init: seq<Issue>, last: Issue, pages: seq<string>)
    requires InFirstOrder(init, last.issueCode, pages)
    requires FirstIndex(init, last.issueCode, PageOf(last)) == |init|
    ensures InFirstOrder(init + [last], last.issueCode, pages + [PageOf(last)])
  {
    var code := last.issueCode;
    FirstIndexStays(init, last, code, PageOf(last));
    forall i | 0 <= i < |pages|
      ensures FirstIndex(init + [last], code, pages[i]) == FirstIndex(init, code, pages[i]) < |init|
    {
      FirstIndexStays(init, last, code, pages[i]);
    }
  }

  lemma FoundPageIsListed(issues: seq<Issue>, code: IssueCode, page: string)
    ensures FirstIndex(issues, code, page) < |issues| ==> page in Pages(issues, code)
  {
    FirstIndexExact(issues, code, page);
    var n := FirstIndex(issues, code, page);
    if n < |issues| {
      assert issues[n] in issues;
    }
  }

  lemma OrderStep(g: Grouping, issues: seq<Issue>, code: IssueCode)
    requires issues != [] && code in AddIssue(g, issues[|issues| - 1]).entries
    requires var init := issues[..|issues| - 1];
             if code in g.entries
             then InFirstOrder(init, code, g.entries[code].affectedPages)
                  && forall p :: p in g.entries[code].affectedPages <==> p in Pages(init, code)
             else Pages(init, code) == {}
    ensures InFirstOrder(issues, code, AddIssue(g, issues[|issues| - 1]).entries[code].affectedPages)
  {
    var init, last := issues[..|issues| - 1], issues[|issues| - 1];
    var pages := if code in g.entries then g.entries[code].affectedPages else [];
    assert issues == init + [last];
    if last.issueCode == code && PageOf(last) !in pages {
      FoundPageIsListed(init, code, PageOf(last));
      FirstIndexExact(init, code, PageOf(last));
      OrderGrows(init, last, pages);
    } else {
      OrderStays(init, last, code, pages);
    }
  }

  lemma {:induction false} GroupedPagesInOrder(issues: seq<Issue>, code: IssueCode)
    requires code in Grouped(issues).entries
    ensures InFirstOrder(issues, code, Grouped(issues).entries[code].affectedPages)
  {
    var init := issues[..|issues| - 1];
    if code in Grouped(init).entries {
      GroupedPagesInOrder(init, code);
      GroupedPages(init, code);
    } else {
      GroupedCounts(init, code);
      CountedOccurs(init, code);
    }
    OrderStep(Grouped(init), issues, code);
  }

  function Evidence(issues: seq<Issue>, code: IssueCode): seq<string> {
    if issues == [] then []
    else
      var last := issues[|issues| - 1];
      Evidence(issues[..|issues| - 1], code) + if last.issueCode == code && last.evidence != "" then [last.evidence]
        else []
  }

  function FirstThree(samples: seq<string>): seq<string> {
    if |samples| <= 3 then samples else samples[..3]
  }

  lemma {:induction false} GroupedEvidence(issues: seq<Issue>, code: IssueCode)
    ensures if code in Grouped(issues).entries
            then Grouped(issues).entries[code].evidenceSamples == FirstThree(Evidence(issues, code))
            else Evidence(issues, code) == []
  {
    if issues != [] {
      GroupedEvidence(issues[..|issues| - 1], code);
    }
  }

  // ---------------------------------------------------------------- scoring

  datatype Item = Item(issueCode: IssueCode, category: Category, severity: Severity, message: string,
                       priorityScore: int, impact: Level, effort: Level, scoreImpactPoints: int, occurrences: nat,
                       affectedPagesCount: nat, affectedPages: seq<string>, evidenceSamples: seq<string>)

  function Min(a: real, b: real): real {
    if a <= b then a else b
  }

  /** `Math.round` */
  function Round(x: real): int {
    (x + 0.5).Floor
  }

  function ScoreImpact(d: Definition, occurrences: nat): int {
    var repeats := if occurrences == 0 then 0 else occurrences - 1;
    Round(Min(d.baseDeduction + d.repeatIncrement * repeats as real, d.maxDeduction))
  }

  function Priority(d: Definition, severity: Severity, occurrences: nat, pages: nat): nat {
    var sum := SeverityPriority(severity) + ScoreImpact(d, occurrences) * 3
               + (if occurrences * 2 < 30 then occurrences * 2 else 30) + (if pages * 3 < 20 then pages * 3 else 20);
    if sum < 0 then 0 else sum
  }

  function EstimateImpact(severity: Severity, points: int): Level {
    if severity.CRITICAL? || severity.HIGH? || points >= 10 then High
    else if severity.MEDIUM? || points >= 5 then Medium else Low
  }

  function EstimateEffort(pages: nat, category: Category): Level {
    if pages > 10 || category.PERFORMANCE? then High
    else if pages > 3 || category.CRAWLABILITY? then Medium else Low
  }

  /** `filter(Boolean)` on strings. */
  function NonEmpty(pages: seq<string>): seq<string> {
    if pages == [] then []
    else NonEmpty(pages[..|pages| - 1]) + if pages[|pages| - 1] == "" then [] else [pages[|pages| - 1]]
  }

  function ToActionItem(definitions: Definitions, a: Accum): Item {
    var pages := NonEmpty(a.affectedPages);
    var points := ScoreImpact(definitions(a.issueCode), a.occurrences);
    Item(a.issueCode, a.category, a.severity, a.message,
         Priority(definitions(a.issueCode), a.severity, a.occurrences, |pages|),
         EstimateImpact(a.severity, points), EstimateEffort(|pages|, a.category), points, a.occurrences,
         |pages|, FirstEight(pages), a.evidenceSamples)
  }

  function ItemsOf(definitions: Definitions, order: seq<IssueCode>, entries: map<IssueCode, Accum>): seq<Item>
    requires forall code :: code in order ==> code in entries
  {
    if order == [] then []
    else ItemsOf(definitions, order[..|order| - 1], entries) + [ToActionItem(definitions, entries[order[|order| - 1]])]
  }

  predicate HigherPriority(left: Item, right: Item) {
    right.priorityScore - left.priorityScore < 0
  }

  function Unsorted(definitions: Definitions, issues: seq<Issue>): seq<Item> {
    GroupedOrder(issues);
    ItemsOf(definitions, Grouped(issues).order, Grouped(issues).entries)
  }

  function ActionItems(definitions: Definitions, issues: seq<Issue>): seq<Item> {
    ToSorted(HigherPriority, Unsorted(definitions, issues))
  }

  method MapToItems(definitions: Definitions, g: Grouping) returns (items: seq<Item>)
    requires forall code :: code in g.order ==> code in g.entries
    ensures items == ItemsOf(definitions, g.order, g.entries)
  {
    items := [];
    for n := 0 to |g.order|
      invariant items == ItemsOf(definitions, g.order[..n], g.entries)
    {
      assert g.order[..n + 1][..n] == g.order[..n];
      items := items + [ToActionItem(definitions, g.entries[g.order[n]])];
    }
    assert g.order[..|g.order|] == g.order;
  }

  method BuildAuditActionItems(definitions: Definitions, issues: seq<Issue>) returns (items: seq<Item>)
    ensures items == ActionItems(definitions, issues)
  {
    GroupedOrder(issues);
    var g := GroupIssues(issues);
    items := MapToItems(definitions, g);
    items := ToSorted(HigherPriority, items);
  }

  // ---------------------------------------------------------------- the list

  lemma {:induction false} ItemAt(definitions: Definitions, order: seq<IssueCode>, entries: map<IssueCode, Accum>,
                                  n: nat)
    requires (forall code :: code in order ==> code in entries) && n < |order|
    ensures |ItemsOf(definitions, order, entries)| == |order|
    ensures ItemsOf(definitions, order, entries)[n] == ToActionItem(definitions, entries[order[n]])
  {
    if n < |order| - 1 {
      ItemAt(definitions, order[..|order| - 1], entries, n);
    } else if n > 0 {
      ItemAt(definitions, order[..|order| - 1], entries, n - 1);
    }
  }

  /** The items before sorting: one for each code, in the order in which the codes first occur. */
  lemma UnsortedAt(definitions: Definitions, issues: seq<Issue>, n: nat)
    requires n < |Grouped(issues).order|
    ensures |Unsorted(definitions, issues)| == |Grouped(issues).order|
    ensures Grouped(issues).order[n] in Grouped(issues).entries
    ensures Unsorted(definitions, issues)[n] ==
              ToActionItem(definitions, Grouped(issues).entries[Grouped(issues).order[n]])
  {
    GroupedOrder(issues);
    ItemAt(definitions, Grouped(issues).order, Grouped(issues).entries, n);
  }

  lemma {:induction false} UnsortedLength(definitions: Definitions, order: seq<IssueCode>, entries: map<IssueCode,
                                          Accum>)
    requires forall code :: code in order ==> code in entries
    ensures |ItemsOf(definitions, order, entries)| == |order|
  {
    if order != [] {
      UnsortedLength(definitions, order[..|order| - 1], entries);
    }
  }

  lemma UnsortedCodes(definitions: Definitions, issues: seq<Issue>)
    ensures |Unsorted(definitions, issues)| == |Grouped(issues).order|
    ensures forall n | 0 <= n < |Grouped(issues).order| ::
              Unsorted(definitions, issues)[n].issueCode == Grouped(issues).order[n]
    ensures Distinct(Unsorted(definitions, issues))
  {
    GroupedOrder(issues);
    UnsortedLength(definitions, Grouped(issues).order, Grouped(issues).entries);
    forall n | 0 <= n < |Grouped(issues).order|
      ensures Unsorted(definitions, issues)[n].issueCode == Grouped(issues).order[n]
    {
      UnsortedAt(definitions, issues, n);
      GroupedCounts(issues, Grouped(issues).order[n]);
    }
  }

  function Codes(items: seq<Item>): seq<IssueCode> {
    seq(|items|, n requires 0 <= n < |items| => items[n].issueCode)
  }

  lemma CodesDistinct(definitions: Definitions, issues: seq<Issue>)
    ensures Distinct(Codes(ActionItems(definitions, issues)))
  {
    var items, unsorted := ActionItems(definitions, issues), Unsorted(definitions, issues);
    SortedPermutes(HigherPriority, unsorted);
    UnsortedCodes(definitions, issues);
    GroupedOrder(issues);
    DistinctByMultiset(unsorted, items);
    SameMembers(items, unsorted);
    DistinctCodes(items, unsorted, Grouped(issues).order);
  }

  lemma DistinctCodes(items: seq<Item>, unsorted: seq<Item>, order: seq<IssueCode>)
    requires Distinct(items) && Distinct(order) && |unsorted| == |order|
    requires forall item | item in items :: item in unsorted
    requires forall n | 0 <= n < |order| :: unsorted[n].issueCode == order[n]
    ensures Distinct(Codes(items))
  {
    forall i, j | 0 <= i < j < |items|
      ensures items[i].issueCode != items[j].issueCode
    {
      assert items[i] in unsorted && items[j] in unsorted;
      var k :| 0 <= k < |unsorted| && unsorted[k] == items[i];
      var l :| 0 <= l < |unsorted| && unsorted[l] == items[j];
      assert order[k] != order[l];
    }
  }

  /** The item of a code, wherever the sort puts it. */
  function ItemFor(definitions: Definitions, issues: seq<Issue>, code: IssueCode): Item
    requires code in Grouped(issues).entries
  {
    ToActionItem(definitions, Grouped(issues).entries[code])
  }

  lemma ListedIff(definitions: Definitions, issues: seq<Issue>, item: Item)
    ensures item in ActionItems(definitions, issues) <==>
              item.issueCode in Grouped(issues).entries && item == ItemFor(definitions, issues, item.issueCode)
  {
    var unsorted := Unsorted(definitions, issues);
    SortedPermutes(HigherPriority, unsorted);
    SameMembers(ActionItems(definitions, issues), unsorted);
    UnsortedCodes(definitions, issues);
    GroupedOrder(issues);
    if item in unsorted {
      var n :| 0 <= n < |unsorted| && unsorted[n] == item;
      UnsortedAt(definitions, issues, n);
    }
    if item.issueCode in Grouped(issues).order {
      var n :| 0 <= n < |Grouped(issues).order| && Grouped(issues).order[n] == item.issueCode;
      UnsortedAt(definitions, issues, n);
      assert unsorted[n] in unsorted;
    }
  }

  /** The list has an item for exactly the codes that occur; `CodesDistinct` says that it has only one. */
  lemma ListedCodes(definitions: Definitions, issues: seq<Issue>, code: IssueCode)
    ensures (exists item :: item in ActionItems(definitions, issues) && item.issueCode == code) <==>
              Count(issues, code) > 0
  {
    GroupedCounts(issues, code);
    if code in Grouped(issues).entries {
      ListedIff(definitions, issues, ItemFor(definitions, issues, code));
    }
    forall item | item in ActionItems(definitions, issues) && item.issueCode == code
      ensures code in Grouped(issues).entries
    {
      ListedIff(definitions, issues, item);
    }
  }

  function Affected(issues: seq<Issue>, code: IssueCode): set<string> {
    Pages(issues, code) - {""}
  }

  function Members(pages: seq<string>): set<string> {
    set p | p in pages && p != ""
  }

  lemma MembersGrow(init: seq<string>, last: string)
    ensures Members(init + [last]) == if last == "" then Members(init) else Members(init) + {last}
  {
  }

  lemma {:induction false} NonEmptyCounts(pages: seq<string>)
    requires Distinct(pages)
    ensures |NonEmpty(pages)| == |Members(pages)|
  {
    if pages != [] {
      var init, last := pages[..|pages| - 1], pages[|pages| - 1];
      NonEmptyCounts(init);
      assert pages == init + [last];
      MembersGrow(init, last);
    }
  }

  lemma {:induction false} NonEmptyMembers(pages: seq<string>, p: string)
    ensures p in NonEmpty(pages) <==> p in Members(pages)
  {
    if pages != [] {
      var init, last := pages[..|pages| - 1], pages[|pages| - 1];
      NonEmptyMembers(init, p);
      assert pages == init + [last];
      MembersGrow(init, last);
    }
  }

  function FirstEight(urls: seq<string>): seq<string> {
    if |urls| <= 8 then urls else urls[..8]
  }

  /** All affected URLs, each once, in the order in which the code first occurs on them. */
  ghost predicate ListsAffected(issues: seq<Issue>, code: IssueCode, urls: seq<string>) {
    Distinct(urls) && (forall p :: p in urls <==> p in Affected(issues, code)) && InFirstOrder(issues, code, urls)
  }

  ghost predicate ListsFirstEight(issues: seq<Issue>, code: IssueCode, urls: seq<string>) {
    exists all :: ListsAffected(issues, code, all) && urls == FirstEight(all)
  }

  lemma OrderedIsDistinct(issues: seq<Issue>, code: IssueCode, pages: seq<string>)
    requires InFirstOrder(issues, code, pages)
    ensures Distinct(pages)
  {
  }

  lemma InOrderBeforeLast(issues: seq<Issue>, code: IssueCode, pages: seq<string>, p: string)
    requires pages != [] && InFirstOrder(issues, code, pages) && p in pages[..|pages| - 1]
    ensures FirstIndex(issues, code, p) < FirstIndex(issues, code, pages[|pages| - 1])
  {
    var k :| 0 <= k < |pages| - 1 && pages[k] == p;
  }

  lemma LastInOrder(issues: seq<Issue>, code: IssueCode, kept: seq<string>, last: string)
    requires InFirstOrder(issues, code, kept) && FirstIndex(issues, code, last) < |issues|
    requires forall p | p in kept :: FirstIndex(issues, code, p) < FirstIndex(issues, code, last)
    ensures InFirstOrder(issues, code, kept + [last])
  {
  }

  /** Dropping the empty page keeps the others in order. */
  lemma {:induction false} NonEmptyKeepsOrder(issues: seq<Issue>, code: IssueCode, pages: seq<string>)
    requires InFirstOrder(issues, code, pages)
    ensures InFirstOrder(issues, code, NonEmpty(pages))
  {
    if pages != [] {
      var init, last := pages[..|pages| - 1], pages[|pages| - 1];
      NonEmptyKeepsOrder(issues, code, init);
      forall p | p in NonEmpty(init)
        ensures FirstIndex(issues, code, p) < FirstIndex(issues, code, last)
      {
        NonEmptyMembers(init, p);
        InOrderBeforeLast(issues, code, pages, p);
      }
      LastInOrder(issues, code, NonEmpty(init), last);
    }
  }

  lemma GroupedAffected(issues: seq<Issue>, code: IssueCode)
    requires code in Grouped(issues).entries
    ensures |NonEmpty(Grouped(issues).entries[code].affectedPages)| == |Affected(issues, code)|
    ensures ListsAffected(issues, code, NonEmpty(Grouped(issues).entries[code].affectedPages))
  {
    var pages := Grouped(issues).entries[code].affectedPages;
    GroupedPages(issues, code);
    NonEmptyCounts(pages);
    assert Members(pages) == Affected(issues, code);
    GroupedPagesInOrder(issues, code);
    NonEmptyKeepsOrder(issues, code, pages);
    OrderedIsDistinct(issues, code, NonEmpty(pages));
    forall p
      ensures p in NonEmpty(pages) <==> p in Affected(issues, code)
    {
      NonEmptyMembers(pages, p);
    }
  }

  predicate ScoredBy(d: Definition, item: Item) {
    && item.scoreImpactPoints == ScoreImpact(d, item.occurrences)
    && item.priorityScore == Priority(d, item.severity, item.occurrences, item.affectedPagesCount)
    && item.impact == EstimateImpact(item.severity, item.scoreImpactPoints)
    && item.effort == EstimateEffort(item.affectedPagesCount, item.category)
  }

  /** What the issues with its code make of an item: how many they are, on how many URLs and on which eight
      first, which is the first of them and which the first of the most severe, and their first three
      pieces of evidence. */
  ghost predicate SaysWhatIssuesSay(definitions: Definitions, issues: seq<Issue>, item: Item) {
    && item.occurrences == Count(issues, item.issueCode)
    && item.affectedPagesCount == |Affected(issues, item.issueCode)|
    && ListsFirstEight(issues, item.issueCode, item.affectedPages)
    && FirstOf(issues, item.issueCode) < |issues| && item.category == issues[FirstOf(issues, item.issueCode)].category
    && IsFirstWorstSeverity(issues, item.issueCode, item.severity, item.message)
    && item.evidenceSamples == FirstThree(Evidence(issues, item.issueCode))
    && ScoredBy(definitions(item.issueCode), item)
  }

  lemma ItemForExact(definitions: Definitions, issues: seq<Issue>, code: IssueCode)
    requires code in Grouped(issues).entries
    ensures ItemFor(definitions, issues, code).issueCode == code
    ensures SaysWhatIssuesSay(definitions, issues, ItemFor(definitions, issues, code))
  {
    GroupedCounts(issues, code);
    GroupedWorst(issues, code);
    GroupedCategory(issues, code);
    GroupedEvidence(issues, code);
    GroupedAffected(issues, code);
  }

  lemma ItemsExact(definitions: Definitions, issues: seq<Issue>)
    ensures forall item | item in ActionItems(definitions, issues) :: SaysWhatIssuesSay(definitions, issues, item)
  {
    forall item | item in ActionItems(definitions, issues)
      ensures SaysWhatIssuesSay(definitions, issues, item)
    {
      ListedIff(definitions, issues, item);
      ItemForExact(definitions, issues, item.issueCode);
    }
  }

  /** What a severity is worth. */
  predicate Weighs(severity: Severity, points: int) {
    || (severity.CRITICAL? && points == 100) || (severity.HIGH? && points == 70)
    || (severity.MEDIUM? && points == 40) || (severity.LOW? && points == 15)
  }

  /** `points` is `x` rounded to the nearest integer, halves up. */
  predicate RoundsTo(x: real, points: int) {
    points as real - 0.5 <= x < points as real + 0.5
  }

  function Capped(n: int, most: int): int {
    if n > most then most else n
  }

  /** The deduction for the first occurrence plus one increment for each further one, at most the maximum, rounded. */
  predicate IsImpact(d: Definition, occurrences: nat, points: int) {
    && occurrences >= 1
    && var deduction := d.baseDeduction + d.repeatIncrement * (occurrences - 1) as real;
       if deduction <= d.maxDeduction then RoundsTo(deduction, points) else RoundsTo(d.maxDeduction, points)
  }

  lemma RoundExact(x: real)
    ensures RoundsTo(x, Round(x))
  {
    var y := x + 0.5;
    assert y.Floor as real <= y < y.Floor as real + 1.0;
  }

  lemma ImpactPointsExact(d: Definition, occurrences: nat)
    requires occurrences >= 1
    ensures IsImpact(d, occurrences, ScoreImpact(d, occurrences))
  {
    var repeats := occurrences - 1;
    var deduction := d.baseDeduction + d.repeatIncrement * repeats as real;
    RoundExact(deduction);
    RoundExact(d.maxDeduction);
  }

  /** Weight, points, occurrences and URLs make the priority. */
  predicate IsPriority(weight: int, item: Item) {
    var total := weight + 3 * item.scoreImpactPoints
                 + Capped(2 * item.occurrences, 30) + Capped(3 * item.affectedPagesCount, 20);
    if total >= 0 then item.priorityScore == total else item.priorityScore == 0
  }

  lemma ScoredFacts(d: Definition, item: Item)
    requires ScoredBy(d, item)
    ensures forall weight | Weighs(item.severity, weight) :: IsPriority(weight, item)
    ensures item.impact == High <==> item.severity == CRITICAL || item.severity == HIGH || item.scoreImpactPoints >= 10
    ensures item.impact == Low <==> item.severity == LOW && item.scoreImpactPoints < 5
    ensures item.effort == High <==> item.affectedPagesCount > 10 || item.category == PERFORMANCE
    ensures item.effort == Low <==>
            item.affectedPagesCount <= 3 && item.category != PERFORMANCE && item.category != CRAWLABILITY
  {
  }

  /** The numbers of an item.  Its priority is the severity's weight plus three for each point of score impact, two for
      each occurrence up to 30 and three for each URL up to 20, never negative; impact and effort follow
      their thresholds. */
  lemma ScoresExact(definitions: Definitions, issues: seq<Issue>, item: Item)
    requires item in ActionItems(definitions, issues)
    ensures IsImpact(definitions(item.issueCode), item.occurrences, item.scoreImpactPoints)
    ensures forall weight | Weighs(item.severity, weight) :: IsPriority(weight, item)
    ensures item.impact == High <==> item.severity == CRITICAL || item.severity == HIGH || item.scoreImpactPoints >= 10
    ensures item.impact == Low <==> item.severity == LOW && item.scoreImpactPoints < 5
    ensures item.effort == High <==> item.affectedPagesCount > 10 || item.category == PERFORMANCE
    ensures item.effort == Low <==>
            item.affectedPagesCount <= 3 && item.category != PERFORMANCE && item.category != CRAWLABILITY
  {
    ListedIff(definitions, issues, item);
    GroupedCounts(issues, item.issueCode);
    ItemForExact(definitions, issues, item.issueCode);
    ImpactPointsExact(definitions(item.issueCode), item.occurrences);
    ScoredFacts(definitions(item.issueCode), item);
  }

  function PositionsOf(issues: seq<Issue>, code: IssueCode): set<nat> {
    set i: nat | i < |issues| && issues[i].issueCode == code
  }

  /** How often a code occurs. */
  lemma {:induction false} CountExact(issues: seq<Issue>, code: IssueCode)
    ensures Count(issues, code) == |PositionsOf(issues, code)|
  {
    if issues == [] {
      assert PositionsOf(issues, code) == {};
    } else {
      var init, n := issues[..|issues| - 1], |issues| - 1;
      CountExact(init, code);
      assert PositionsOf(issues, code) ==
             PositionsOf(init, code) + if issues[n].issueCode == code then {n} else {};
    }
  }

  /** The affected URLs are those of the code's issues that have one. */
  lemma AffectedExact(issues: seq<Issue>, code: IssueCode, url: string)
    ensures url in Affected(issues, code) <==>
            url != "" && exists i | i in issues :: i.issueCode == code && i.resourceUrl == Some(url)
  {
  }

  /** The evidence of a code is that of its issues, one after the other, without the empty ones. */
  lemma {:induction false} EvidenceJoins(a: seq<Issue>, b: seq<Issue>, code: IssueCode)
    ensures Evidence(a + b, code) == Evidence(a, code) + Evidence(b, code)
  {
    if b == [] {
      assert a + b == a;
    } else {
      var c, init, last := a + b, b[..|b| - 1], b[|b| - 1];
      assert c[..|c| - 1] == a + init && c[|c| - 1] == last;
      EvidenceJoins(a, init, code);
      var more := if last.issueCode == code && last.evidence != "" then [last.evidence] else [];
      assert Evidence(c, code) == Evidence(a + init, code) + more;
      assert Evidence(b, code) == Evidence(init, code) + more;
    }
  }

  lemma EvidenceOfOne(i: Issue, code: IssueCode)
    ensures Evidence([i], code) == if i.issueCode == code && i.evidence != "" then [i.evidence] else []
  {
    assert [i][..0] == [];
  }

  /** The lists of an item are cut off after three pieces of evidence and eight URLs. */
  lemma ShortLists(xs: seq<string>)
    ensures FirstThree(xs) <= xs && |FirstThree(xs)| == Capped(|xs|, 3)
    ensures FirstEight(xs) <= xs && |FirstEight(xs)| == Capped(|xs|, 8)
  {
  }

  /** Critical is worse than high, high than medium, and medium than low. */
  lemma SeverityOrder()
    ensures Rank(CRITICAL) > Rank(HIGH) > Rank(MEDIUM) > Rank(LOW)
  {
  }

  /** Highest priority first. */
  lemma ItemsSorted(definitions: Definitions, issues: seq<Issue>)
    ensures var items := ActionItems(definitions, issues);
            forall i, j | 0 <= i < j < |items| :: items[i].priorityScore >= items[j].priorityScore
  {
    UnsortedCodes(definitions, issues);
    SortedOrdered(HigherPriority, Unsorted(definitions, issues));
  }

  /** Codes of equal priority stay in the order in which they first occur. */
  lemma TiesKeepFirstOccurrence(definitions: Definitions, issues: seq<Issue>)
    ensures var unsorted := Unsorted(definitions, issues);
            forall i, j | 0 <= i < j < |unsorted| && unsorted[i].priorityScore == unsorted[j].priorityScore ::
              Precedes(ActionItems(definitions, issues), unsorted[i], unsorted[j])
  {
    var unsorted := Unsorted(definitions, issues);
    forall i, j | 0 <= i < j < |unsorted| && unsorted[i].priorityScore == unsorted[j].priorityScore
      ensures Precedes(ActionItems(definitions, issues), unsorted[i], unsorted[j])
    {
      SortedStable(HigherPriority, unsorted, i, j);
    }
  }

  // ---------------------------------------------------------------- conservation

  function Occurrences(items: seq<Item>): nat {
    if items == [] then 0 else Occurrences(items[..|items| - 1]) + items[|items| - 1].occurrences
  }

  function EntryOccurrences(order: seq<IssueCode>, entries: map<IssueCode, Accum>): nat
    requires forall code :: code in order ==> code in entries
  {
    if order == [] then 0
    else EntryOccurrences(order[..|order| - 1], entries) + entries[order[|order| - 1]].occurrences
  }

  lemma {:induction false} EntriesSum(definitions: Definitions, order: seq<IssueCode>, entries: map<IssueCode, Accum>)
    requires forall code :: code in order ==> code in entries
    ensures Occurrences(ItemsOf(definitions, order, entries)) == EntryOccurrences(order, entries)
  {
    if order != [] {
      var init := order[..|order| - 1];
      EntriesSum(definitions, init, entries);
      var item := ToActionItem(definitions, entries[order[|order| - 1]]);
      assert (ItemsOf(definitions, init, entries) + [item])[..|ItemsOf(definitions, init, entries)|] ==
        ItemsOf(definitions, init, entries);
    }
  }

  lemma {:induction false} EntryChanges(order: seq<IssueCode>, entries: map<IssueCode, Accum>, code: IssueCode,
                                        a: Accum)
    requires Distinct(order) && forall c :: c in order ==> c in entries
    ensures EntryOccurrences(order, entries[code := a])
            == EntryOccurrences(order, entries) + if code in order then a.occurrences - entries[code].occurrences else 0
  {
    if order != [] {
      EntryChanges(order[..|order| - 1], entries, code, a);
    }
  }

  lemma {:induction false} GroupsSum(issues: seq<Issue>)
    ensures (forall code :: code in Grouped(issues).order ==> code in Grouped(issues).entries)
            && EntryOccurrences(Grouped(issues).order, Grouped(issues).entries) == |issues|
  {
    GroupedOrder(issues);
    if issues != [] {
      var init, last := issues[..|issues| - 1], issues[|issues| - 1];
      GroupsSum(init);
      GroupedOrder(init);
      var g := Grouped(init);
      if last.issueCode in g.entries {
        EntryChanges(g.order, g.entries, last.issueCode, Grown(g.entries[last.issueCode], last));
      } else {
        EntryChanges(g.order, g.entries, last.issueCode, NewAccum(last));
        assert (g.order + [last.issueCode])[..|g.order|] == g.order;
      }
    }
  }

  lemma {:induction false} InsertSum(sorted: seq<Item>, x: Item)
    ensures Occurrences(Insert(HigherPriority, sorted, x)) == Occurrences(sorted) + x.occurrences
  {
    if sorted != [] && HigherPriority(x, sorted[|sorted| - 1]) {
      var front := Insert(HigherPriority, sorted[..|sorted| - 1], x);
      InsertSum(sorted[..|sorted| - 1], x);
      assert (front + [sorted[|sorted| - 1]])[..|front|] == front;
    } else {
      assert (sorted + [x])[..|sorted|] == sorted;
    }
  }

  lemma {:induction false} SortedSum(items: seq<Item>)
    ensures Occurrences(ToSorted(HigherPriority, items)) == Occurrences(items)
  {
    if items != [] {
      SortedSum(items[..|items| - 1]);
      InsertSum(ToSorted(HigherPriority, items[..|items| - 1]), items[|items| - 1]);
    }
  }

  /** No issue is lost and none is counted twice. */
  lemma OccurrencesSumToIssues(definitions: Definitions, issues: seq<Issue>)
    ensures Occurrences(ActionItems(definitions, issues)) == |issues|
  {
    GroupsSum(issues);
    EntriesSum(definitions, Grouped(issues).order, Grouped(issues).entries);
    SortedSum(Unsorted(definitions, issues));
  }

  // ---------------------------------------------------------------- what the priority depends on

  lemma {:induction false} CountSplit(left: seq<Issue>, right: seq<Issue>, code: IssueCode)
    ensures Count(left + right, code) == Count(left, code) + Count(right, code)
  {
    if right == [] {
      assert left + right == left;
    } else {
      assert (left + right)[..|left + right| - 1] == left + right[..|right| - 1];
      CountSplit(left, right[..|right| - 1], code);
    }
  }

  lemma WithoutOne(issues: seq<Issue>, k: nat)
    requires k < |issues|
    ensures multiset(issues[..k] + issues[k + 1..]) == multiset(issues) - multiset{issues[k]}
    ensures forall code ::
              Count(issues, code) ==
              Count(issues[..k] + issues[k + 1..], code) + if issues[k].issueCode == code then 1 else 0
  {
    var left, right := issues[..k], issues[k + 1..];
    assert issues == left + ([issues[k]] + right);
    forall code
      ensures Count(issues, code) == Count(left + right, code) + if issues[k].issueCode == code then 1 else 0
    {
      CountSplit(left, [issues[k]] + right, code);
      CountSplit([issues[k]], right, code);
      CountSplit(left, right, code);
      assert Count([issues[k]], code) == if issues[k].issueCode == code then 1 else 0 by {
        assert [issues[k]][..0] == [];
      }
    }
  }

  lemma {:induction false} CountPermutes(issues: seq<Issue>, others: seq<Issue>, code: IssueCode)
    requires multiset(issues) == multiset(others)
    ensures Count(issues, code) == Count(others, code)
    decreases |issues|
  {
    SameMembers(issues, others);
    if issues != [] {
      var init, last := issues[..|issues| - 1], issues[|issues| - 1];
      LastApart(issues);
      assert last in others;
      var k :| 0 <= k < |others| && others[k] == last;
      WithoutOne(others, k);
      CountPermutes(init, others[..k] + others[k + 1..], code);
    }
  }

  lemma WorstIsUnique(issues: seq<Issue>, others: seq<Issue>, code: IssueCode, s: Severity, m: string, t: Severity,
                      n: string)
    requires forall i :: i in issues <==> i in others
    requires IsFirstWorstSeverity(issues, code, s, m) && IsFirstWorstSeverity(others, code, t, n)
    ensures s == t
  {
    var i :| 0 <= i < |issues| && IsFirstWorst(issues, code, i) && s == issues[i].severity;
    var j :| 0 <= j < |others| && IsFirstWorst(others, code, j) && t == others[j].severity;
    assert issues[i] in others && others[j] in issues;
    var k :| 0 <= k < |others| && others[k] == issues[i];
    var l :| 0 <= l < |issues| && issues[l] == others[j];
  }

  predicate SameScore(a: Item, b: Item) {
    && a.issueCode == b.issueCode && a.priorityScore == b.priorityScore && a.severity == b.severity
    && a.occurrences == b.occurrences && a.affectedPagesCount == b.affectedPagesCount
    && a.scoreImpactPoints == b.scoreImpactPoints && a.impact == b.impact
  }

  lemma ScorePermutes(definitions: Definitions, issues: seq<Issue>, others: seq<Issue>, code: IssueCode)
    requires multiset(issues) == multiset(others) && code in Grouped(issues).entries
    ensures code in Grouped(others).entries
    ensures SameScore(ItemFor(definitions, issues, code), ItemFor(definitions, others, code))
  {
    SameMembers(issues, others);
    CountPermutes(issues, others, code);
    GroupedCounts(issues, code);
    GroupedCounts(others, code);
    ItemForExact(definitions, issues, code);
    ItemForExact(definitions, others, code);
    assert Affected(issues, code) == Affected(others, code);
    var a, b := ItemFor(definitions, issues, code), ItemFor(definitions, others, code);
    WorstIsUnique(issues, others, code, a.severity, a.message, b.severity, b.message);
  }

  predicate Scored(items: seq<Item>, item: Item) {
    exists other | other in items :: SameScore(item, other)
  }

  /** The order in which the audit reports its issues does not matter to any priority. */
  lemma PriorityPermutes(definitions: Definitions, issues: seq<Issue>, others: seq<Issue>)
    requires multiset(issues) == multiset(others)
    ensures forall item | item in ActionItems(definitions, issues) :: Scored(ActionItems(definitions, others), item)
  {
    forall item | item in ActionItems(definitions, issues)
      ensures Scored(ActionItems(definitions, others), item)
    {
      ListedIff(definitions, issues, item);
      ScorePermutes(definitions, issues, others, item.issueCode);
      ListedIff(definitions, others, ItemFor(definitions, others, item.issueCode));
    }
  }

  lemma MoreImpact(d: Definition, few: nat, many: nat)
    requires d.repeatIncrement >= 0.0 && 0 < few <= many
    ensures ScoreImpact(d, few) <= ScoreImpact(d, many)
  {
    var a, b := (few - 1) as real, (many - 1) as real;
    assert d.repeatIncrement * a <= d.repeatIncrement * b;
    var x := Min(d.baseDeduction + d.repeatIncrement * a, d.maxDeduction);
    var y := Min(d.baseDeduction + d.repeatIncrement * b, d.maxDeduction);
    assert x + 0.5 <= y + 0.5;
  }

  lemma MorePriority(d: Definition, s: Severity, t: Severity, few: nat, many: nat, pages: nat, more: nat)
    requires d.repeatIncrement >= 0.0 && Rank(s) <= Rank(t) && 0 < few <= many && pages <= more
    ensures Priority(d, s, few, pages) <= Priority(d, t, many, more)
  {
    MoreImpact(d, few, many);
  }

  function LevelRank(l: Level): nat {
    match l case Low => 0 case Medium => 1 case High => 2
  }

  /** `b` is at least as urgent as `a`. */
  predicate AtLeast(a: Item, b: Item) {
    && a.issueCode == b.issueCode && a.priorityScore <= b.priorityScore && Rank(a.severity) <= Rank(b.severity)
    && LevelRank(a.impact) <= LevelRank(b.impact) && LevelRank(a.effort) <= LevelRank(b.effort)
  }

  lemma MoreIsAtLeast(d: Definition, a: Item, b: Item)
    requires d.repeatIncrement >= 0.0 && ScoredBy(d, a) && ScoredBy(d, b)
    requires a.issueCode == b.issueCode && a.category == b.category && Rank(a.severity) <= Rank(b.severity)
    requires 0 < a.occurrences <= b.occurrences && a.affectedPagesCount <= b.affectedPagesCount
    ensures AtLeast(a, b)
  {
    MorePriority(d, a.severity, b.severity, a.occurrences, b.occurrences, a.affectedPagesCount, b.affectedPagesCount);
    MoreImpact(d, a.occurrences, b.occurrences);
  }

  lemma ScoreGrows(definitions: Definitions, issues: seq<Issue>, more: seq<Issue>, code: IssueCode)
    requires code in Grouped(issues).entries && definitions(code).repeatIncrement >= 0.0
    ensures code in Grouped(issues + more).entries
    ensures AtLeast(ItemFor(definitions, issues, code), ItemFor(definitions, issues + more, code))
  {
    var all := issues + more;
    CountSplit(issues, more, code);
    GroupedCounts(issues, code);
    GroupedCounts(all, code);
    ItemForExact(definitions, issues, code);
    ItemForExact(definitions, all, code);
    var a, b := ItemFor(definitions, issues, code), ItemFor(definitions, all, code);
    WorstGrows(issues, more, code, a.severity, a.message, b.severity, b.message);
    assert Affected(issues, code) <= Affected(all, code);
    SubsetSize(Affected(issues, code), Affected(all, code));
    FirstOfStays(issues, more, code);
    MoreIsAtLeast(definitions(code), a, b);
  }

  lemma WorstGrows(issues: seq<Issue>, more: seq<Issue>, code: IssueCode, s: Severity, m: string, t: Severity,
                   n: string)
    requires IsFirstWorstSeverity(issues, code, s, m) && IsFirstWorstSeverity(issues + more, code, t, n)
    ensures Rank(s) <= Rank(t)
  {
    var i :| 0 <= i < |issues| && IsFirstWorst(issues, code, i) && s == issues[i].severity;
    assert (issues + more)[i] == issues[i];
  }

  predicate NotBelow(items: seq<Item>, item: Item) {
    exists other | other in items :: AtLeast(item, other)
  }

  /** Further issues never lower a priority, a severity, an impact or an effort, as long as repeating an
      issue is not rewarded. */
  lemma PriorityGrows(definitions: Definitions, issues: seq<Issue>, more: seq<Issue>)
    ensures forall item | item in ActionItems(definitions, issues)
              && definitions(item.issueCode).repeatIncrement >= 0.0 ::
              NotBelow(ActionItems(definitions, issues + more), item)
  {
    forall item | item in ActionItems(definitions, issues) && definitions(item.issueCode).repeatIncrement >= 0.0
      ensures NotBelow(ActionItems(definitions, issues + more), item)
    {
      ListedIff(definitions, issues, item);
      ScoreGrows(definitions, issues, more, item.issueCode);
      ItemForExact(definitions, issues + more, item.issueCode);
      ListedIff(definitions, issues + more, ItemFor(definitions, issues + more, item.issueCode));
    }
  }
}
