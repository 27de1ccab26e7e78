/** The indexability matrix of a run: one row for each URL that was crawled or listed in the sitemap. */
module Indexability {
  import opened Common
  import opened Sorting

  /** Functions of other files and of the platform: `normalizeForComparison`, `isExpectedNoindexUrl`,
      `toLowerCase` and `localeCompare`. */
  datatype Urls = Urls(normalize: string -> string, expectedNoindex: string -> bool, lower: string -> string,
                       compare: (string, string) -> int)

  datatype Source = HOMEPAGE | CRAWL | HEAD | SITEMAP | PROBE

  datatype Status = INDEXABLE | NOINDEX | BLOCKED_BY_ROBOTS | CANONICALIZED | HTTP_ERROR | PRIVATE_EXPECTED | UNKNOWN

  datatype Page = Page(url: string, statusCode: Option<int>, source: Option<Source>, canonicalUrl: Option<string>,
                       robotsDirective: Option<string>, xRobotsTag: Option<string>)

  /** A recorded fact, or none: HTTP status, canonical URL, robots directive and X-Robots-Tag. */
  datatype Facts = Facts(statusCode: Option<int>, canonicalUrl: Option<string>, robotsDirective: Option<string>,
                         xRobotsTag: Option<string>)

  datatype Evidence = Evidence(facts: Facts, source: Option<Source>, sitemapIncluded: bool)

  datatype Inspection = Inspection(url: string, source: Source, status: Status, facts: Facts, sitemapIncluded: bool,
                                   evidence: Evidence)

  // ---------------------------------------------------------------- one page

  predicate Contains(s: string, part: string) {
    exists i | 0 <= i <= |s| :: part <= s[i..]
  }

  function Lowered(u: Urls, s: Option<string>): Option<string> {
    match s case Some(text) => Some(u.lower(text)) case None => None
  }

  function OrEmpty(s: Option<string>): string {
    match s case Some(text) => text case None => ""
  }

  function SourceOf(p: Page): Source {
    match p.source case Some(source) => source case None => CRAWL
  }

  function FactsOf(u: Urls, p: Page): Facts {
    Facts(p.statusCode, p.canonicalUrl, Lowered(u, p.robotsDirective), Lowered(u, p.xRobotsTag))
  }

  predicate SaysNoindex(u: Urls, p: Page) {
    Contains(OrEmpty(Lowered(u, p.robotsDirective)), "noindex")
      || Contains(OrEmpty(Lowered(u, p.xRobotsTag)), "noindex")
  }

  function ResolveStatus(u: Urls, p: Page, robotsBlocksAll: bool): Status {
    if u.expectedNoindex(p.url) then PRIVATE_EXPECTED
    else if robotsBlocksAll then BLOCKED_BY_ROBOTS
    else if p.statusCode.Some? && p.statusCode.value >= 400 then HTTP_ERROR
    else if SaysNoindex(u, p) then NOINDEX
    else if OrEmpty(p.canonicalUrl) != ""
      && u.normalize(OrEmpty(p.canonicalUrl)) != u.normalize(p.url) then CANONICALIZED
    else if p.statusCode.Some? && 0 < p.statusCode.value < 400 then INDEXABLE
    else UNKNOWN
  }

  function InspectPage(u: Urls, p: Page, sitemap: set<string>, robotsBlocksAll: bool): Inspection {
    var included := u.normalize(p.url) in sitemap;
    Inspection(p.url, SourceOf(p), ResolveStatus(u, p, robotsBlocksAll), FactsOf(u, p), included,
               Evidence(FactsOf(u, p), Some(SourceOf(p)), included))
  }

  function SourceRank(s: Source): nat {
    match s case HOMEPAGE => 5 case CRAWL => 4 case HEAD => 3 case SITEMAP => 2 case PROBE => 1
  }

  function Either<T>(first: Option<T>, second: Option<T>): Option<T> {
    if first.Some? then first else second
  }

  function MergeFacts(preferred: Facts, fallback: Facts): Facts {
    Facts(Either(preferred.statusCode, fallback.statusCode), Either(preferred.canonicalUrl, fallback.canonicalUrl),
          Either(preferred.robotsDirective, fallback.robotsDirective),
          Either(preferred.xRobotsTag, fallback.xRobotsTag))
  }

  /** Both evidence objects have all keys, defined or not, so spreading the preferred one over the other
      leaves nothing of the other. */
  function MergeInspection(left: Inspection, right: Inspection): Inspection {
    var preferred := if SourceRank(right.source) > SourceRank(left.source) then right else left;
    var fallback := if SourceRank(right.source) > SourceRank(left.source) then left else right;
    preferred.(facts := MergeFacts(preferred.facts, fallback.facts),
               sitemapIncluded := left.sitemapIncluded || right.sitemapIncluded)
  }

  // ---------------------------------------------------------------- the two loops

  /** `byUrl`: a JavaScript Map with its keys in insertion order. */
  datatype ByUrl = ByUrl(order: seq<string>, rows: map<string, Inspection>)

  function Put(b: ByUrl, key: string, row: Inspection): ByUrl {
    ByUrl(if key in b.rows then b.order else b.order + [key], b.rows[key := row])
  }

  function AddPage(u: Urls, b: ByUrl, p: Page, sitemap: set<string>, blocked: bool): ByUrl {
    var key := u.normalize(p.url);
    var row := InspectPage(u, p, sitemap, blocked);
    Put(b, key, if key in b.rows then MergeInspection(b.rows[key], row) else row)
  }

  function FromPages(u: Urls, pages: seq<Page>, sitemap: set<string>, blocked: bool): ByUrl {
    if pages == [] then ByUrl([], map[])
    else AddPage(u, FromPages(u, pages[..|pages| - 1], sitemap, blocked), pages[|pages| - 1], sitemap, blocked)
  }

  const NO_FACTS := Facts(None, None, None, None)

  function SitemapRow(u: Urls, url: string): Inspection {
    Inspection(url, SITEMAP, if u.expectedNoindex(url) then PRIVATE_EXPECTED else UNKNOWN, NO_FACTS, true,
               Evidence(NO_FACTS, None, true))
  }

  function Included(row: Inspection): Inspection {
    row.(sitemapIncluded := true, evidence := row.evidence.(sitemapIncluded := true))
  }

  function AddSitemapUrl(u: Urls, b: ByUrl, url: string): ByUrl {
    var key := u.normalize(url);
    Put(b, key, if key in b.rows then Included(b.rows[key]) else SitemapRow(u, url))
  }

  function WithSitemap(u: Urls, b: ByUrl, urls: seq<string>): ByUrl {
    if urls == [] then b else AddSitemapUrl(u, WithSitemap(u, b, urls[..|urls| - 1]), urls[|urls| - 1])
  }

  datatype Input = Input(homepageUrl: string, pages: seq<Page>, robotsBlocksAll: bool, sitemapUrls: seq<string>)

  function SitemapSet(u: Urls, urls: seq<string>): set<string> {
    set url | url in urls :: u.normalize(url)
  }

  function Collected(u: Urls, input: Input): ByUrl {
    WithSitemap(u, FromPages(u, input.pages, SitemapSet(u, input.sitemapUrls), input.robotsBlocksAll),
                input.sitemapUrls)
  }

  function Rows(order: seq<string>, rows: map<string, Inspection>): seq<Inspection>
    requires forall key :: key in order ==> key in rows
  {
    seq(|order|, n requires 0 <= n < |order| => rows[order[n]])
  }

  /** `compare(left, right) < 0` of the matrix's comparator. */
  predicate Before(u: Urls, homepageKey: string, left: Inspection, right: Inspection) {
    u.normalize(left.url) == homepageKey
    || (u.normalize(right.url) != homepageKey && u.compare(left.url, right.url) < 0)
  }

  function Comparator(u: Urls, homepageUrl: string): (Inspection, Inspection) -> bool {
    (left, right) => Before(u, u.normalize(homepageUrl), left, right)
  }

  lemma {:induction false} PagesOrder(u: Urls, pages: seq<Page>, sitemap: set<string>, blocked: bool)
    ensures var b := FromPages(u, pages, sitemap, blocked);
            Distinct(b.order) && forall key :: key in b.order <==> key in b.rows
  {
    if pages != [] {
      PagesOrder(u, pages[..|pages| - 1], sitemap, blocked);
    }
  }

  lemma {:induction false} SitemapOrder(u: Urls, b: ByUrl, urls: seq<string>)
    requires Distinct(b.order) && forall key :: key in b.order <==> key in b.rows
    ensures var c := WithSitemap(u, b, urls);
            Distinct(c.order) && forall key :: key in c.order <==> key in c.rows
  {
    if urls != [] {
      SitemapOrder(u, b, urls[..|urls| - 1]);
    }
  }

  lemma CollectedOrder(u: Urls, input: Input)
    ensures Distinct(Collected(u, input).order)
    ensures forall key :: key in Collected(u, input).order <==> key in Collected(u, input).rows
  {
    PagesOrder(u, input.pages, SitemapSet(u, input.sitemapUrls), input.robotsBlocksAll);
    SitemapOrder(u, FromPages(u, input.pages, SitemapSet(u, input.sitemapUrls), input.robotsBlocksAll),
                 input.sitemapUrls);
  }

  function Unsorted(u: Urls, input: Input): seq<Inspection> {
    CollectedOrder(u, input);
    Rows(Collected(u, input).order, Collected(u, input).rows)
  }

  function Matrix(u: Urls, input: Input): seq<Inspection> {
    ToSorted(Comparator(u, input.homepageUrl), Unsorted(u, input))
  }

  method CollectPages(u: Urls, pages: seq<Page>, sitemap: set<string>, blocked: bool) returns (b: ByUrl)
    ensures b == FromPages(u, pages, sitemap, blocked)
  {
    var order: seq<string>, rows: map<string, Inspection> := [], map[];
    var n := 0;
    while n < |pages|
      invariant 0 <= n <= |pages|
      invariant ByUrl(order, rows) == FromPages(u, pages[..n], sitemap, blocked)
    {
      assert pages[..n + 1][..n] == pages[..n];
      var key := u.normalize(pages[n].url);
      var row := InspectPage(u, pages[n], sitemap, blocked);
      if key in rows {
        rows := rows[key := MergeInspection(rows[key], row)];
      } else {
        order, rows := order + [key], rows[key := row];
      }
      n := n + 1;
    }
    assert pages[..n] == pages;
    b := ByUrl(order, rows);
  }

  method CollectSitemap(u: Urls, start: ByUrl, urls: seq<string>) returns (b: ByUrl)
    ensures b == WithSitemap(u, start, urls)
  {
    b := start;
    var n := 0;
    while n < |urls|
      invariant 0 <= n <= |urls|
      invariant b == WithSitemap(u, start, urls[..n])
    {
      assert urls[..n + 1][..n] == urls[..n];
      var key := u.normalize(urls[n]);
      if key in b.rows {
        var existing := b.rows[key];
        var evidence := existing.evidence.(sitemapIncluded := true);
        b := b.(rows := b.rows[key := existing.(sitemapIncluded := true, evidence := evidence)]);
      } else {
        b := ByUrl(b.order + [key], b.rows[key := SitemapRow(u, urls[n])]);
      }
      n := n + 1;
    }
    assert urls[..n] == urls;
  }

  method BuildIndexabilityMatrix(u: Urls, input: Input) returns (matrix: seq<Inspection>)
    ensures matrix == Matrix(u, input)
  {
    var sitemap := SitemapSet(u, input.sitemapUrls);
    var b := CollectPages(u, input.pages, sitemap, input.robotsBlocksAll);
    b := CollectSitemap(u, b, input.sitemapUrls);
    CollectedOrder(u, input);
    matrix := ToSorted(Comparator(u, input.homepageUrl), Rows(b.order, b.rows));
  }

  // ---------------------------------------------------------------- rows of crawled pages

  predicate HasPage(u: Urls, pages: seq<Page>, key: string) {
    exists p | p in pages :: u.normalize(p.url) == key
  }

  function RankOf(p: Page): nat {
    SourceRank(SourceOf(p))
  }

  /** The first of the key's pages of the highest source rank. */
  predicate IsBest(u: Urls, pages: seq<Page>, key: string, n: nat) {
    && n < |pages| && u.normalize(pages[n].url) == key
    && (forall j | 0 <= j < |pages| && u.normalize(pages[j].url) == key :: RankOf(pages[j]) <= RankOf(pages[n]))
    && (forall j | 0 <= j < n && u.normalize(pages[j].url) == key :: RankOf(pages[j]) < RankOf(pages[n]))
  }

  /** Everything but the merged facts comes from this page. */
  predicate Describes(u: Urls, p: Page, sitemap: set<string>, blocked: bool, row: Inspection) {
    var inspected := InspectPage(u, p, sitemap, blocked);
    row.url == p.url && row.source == inspected.source && row.status == inspected.status
    && row.evidence == inspected.evidence && row.sitemapIncluded == inspected.sitemapIncluded
  }

  predicate DescribesBest(u: Urls, pages: seq<Page>, key: string, sitemap: set<string>, blocked: bool,
                          row: Inspection) {
    exists n | 0 <= n < |pages| :: IsBest(u, pages, key, n) && Describes(u, pages[n], sitemap, blocked, row)
  }

  lemma BestStays(u: Urls, init: seq<Page>, last: Page, key: string, n: nat)
    requires IsBest(u, init, key, n) && (u.normalize(last.url) == key ==> RankOf(last) <= RankOf(init[n]))
    ensures IsBest(u, init + [last], key, n)
  {
  }

  lemma BestMoves(u: Urls, init: seq<Page>, last: Page, n: nat)
    requires IsBest(u, init, u.normalize(last.url), n) && RankOf(last) > RankOf(init[n])
    ensures IsBest(u, init + [last], u.normalize(last.url), |init|)
  {
  }

  lemma MergeDescribesBest(u: Urls, init: seq<Page>, last: Page, sitemap: set<string>, blocked: bool, row: Inspection)
    requires DescribesBest(u, init, u.normalize(last.url), sitemap, blocked, row)
    ensures DescribesBest(u, init + [last], u.normalize(last.url), sitemap, blocked,
                          MergeInspection(row, InspectPage(u, last, sitemap, blocked)))
  {
    var key := u.normalize(last.url);
    var n :| 0 <= n < |init| && IsBest(u, init, key, n) && Describes(u, init[n], sitemap, blocked, row);
    if RankOf(last) > RankOf(init[n]) {
      BestMoves(u, init, last, n);
      assert (init + [last])[|init|] == last;
    } else {
      BestStays(u, init, last, key, n);
      assert (init + [last])[n] == init[n];
    }
  }

  lemma OtherDescribesBest(u: Urls, init: seq<Page>, last: Page, key: string, sitemap: set<string>, blocked: bool,
                           row: Inspection)
    requires DescribesBest(u, init, key, sitemap, blocked, row) && u.normalize(last.url) != key
    ensures DescribesBest(u, init + [last], key, sitemap, blocked, row)
  {
    var n :| 0 <= n < |init| && IsBest(u, init, key, n) && Describes(u, init[n], sitemap, blocked, row);
    BestStays(u, init, last, key, n);
    assert (init + [last])[n] == init[n];
  }

  lemma NewDescribesBest(u: Urls, init: seq<Page>, last: Page, sitemap: set<string>, blocked: bool)
    requires !HasPage(u, init, u.normalize(last.url))
    ensures DescribesBest(u, init + [last], u.normalize(last.url), sitemap, blocked,
                          InspectPage(u, last, sitemap, blocked))
  {
    forall j | 0 <= j < |init|
      ensures u.normalize(init[j].url) != u.normalize(last.url)
    {
      assert init[j] in init;
    }
    assert IsBest(u, init + [last], u.normalize(last.url), |init|);
  }

  lemma HasPageGrows(u: Urls, init: seq<Page>, last: Page, key: string)
    ensures HasPage(u, init + [last], key) <==> HasPage(u, init, key) || u.normalize(last.url) == key
  {
    if HasPage(u, init, key) {
      var p :| p in init && u.normalize(p.url) == key;
      assert p in init + [last];
    }
    assert last in init + [last];
  }

  lemma {:induction false} PageRows(u: Urls, pages: seq<Page>, sitemap: set<string>, blocked: bool, key: string)
    ensures key in FromPages(u, pages, sitemap, blocked).rows <==> HasPage(u, pages, key)
    ensures HasPage(u, pages, key) ==>
              DescribesBest(u, pages, key, sitemap, blocked, FromPages(u, pages, sitemap, blocked).rows[key])
  {
    if pages != [] {
      var init, last := pages[..|pages| - 1], pages[|pages| - 1];
      assert pages == init + [last];
      PageRows(u, init, sitemap, blocked, key);
      HasPageGrows(u, init, last, key);
      if u.normalize(last.url) != key {
        if HasPage(u, init, key) {
          OtherDescribesBest(u, init, last, key, sitemap, blocked, FromPages(u, init, sitemap, blocked).rows[key]);
        }
      } else if HasPage(u, init, key) {
        MergeDescribesBest(u, init, last, sitemap, blocked, FromPages(u, init, sitemap, blocked).rows[key]);
      } else {
        NewDescribesBest(u, init, last, sitemap, blocked);
      }
    }
  }

  // ---------------------------------------------------------------- merged facts

  datatype Field = STATUS_CODE | CANONICAL | ROBOTS | X_ROBOTS

  datatype Fact = Code(code: int) | Text(text: string)

  function FieldOf(f: Facts, field: Field): Option<Fact> {
    match field
    case STATUS_CODE => (match f.statusCode case Some(code) => Some(Code(code)) case None => None)
    case CANONICAL => (match f.canonicalUrl case Some(text) => Some(Text(text)) case None => None)
    case ROBOTS => (match f.robotsDirective case Some(text) => Some(Text(text)) case None => None)
    case X_ROBOTS => (match f.xRobotsTag case Some(text) => Some(Text(text)) case None => None)
  }

  /** One of the key's pages records this fact. */
  predicate Records(u: Urls, pages: seq<Page>, key: string, field: Field, fact: Fact) {
    exists p | p in pages :: u.normalize(p.url) == key && FieldOf(FactsOf(u, p), field) == Some(fact)
  }

  lemma MergedField(preferred: Facts, fallback: Facts, field: Field)
    ensures FieldOf(MergeFacts(preferred, fallback), field) ==
              Either(FieldOf(preferred, field), FieldOf(fallback, field))
  {
  }

  lemma RecordsGrow(u: Urls, init: seq<Page>, last: Page, key: string, field: Field, fact: Fact)
    ensures Records(u, init + [last], key, field, fact) <==>
              Records(u, init, key, field, fact)
                || (u.normalize(last.url) == key && FieldOf(FactsOf(u, last), field) == Some(fact))
  {
    if Records(u, init, key, field, fact) {
      var p :| p in init && u.normalize(p.url) == key && FieldOf(FactsOf(u, p), field) == Some(fact);
      assert p in init + [last];
    }
    assert last in init + [last];
  }

  function RowField(u: Urls, pages: seq<Page>, sitemap: set<string>, blocked: bool, key: string,
                    field: Field): Option<Fact>
    requires key in FromPages(u, pages, sitemap, blocked).rows
  {
    FieldOf(FromPages(u, pages, sitemap, blocked).rows[key].facts, field)
  }

  lemma FieldStep(u: Urls, init: seq<Page>, last: Page, sitemap: set<string>, blocked: bool, key: string, field: Field)
    requires key in FromPages(u, init + [last], sitemap, blocked).rows
    ensures var now := RowField(u, init + [last], sitemap, blocked, key, field);
            var own := FieldOf(FactsOf(u, last), field);
            if u.normalize(last.url) != key then
              key in FromPages(u, init, sitemap, blocked).rows && now == RowField(u, init, sitemap, blocked, key, field)
            else if key in FromPages(u, init, sitemap, blocked).rows then
              now == Either(RowField(u, init, sitemap, blocked, key, field), own)
              || now == Either(own, RowField(u, init, sitemap, blocked, key, field))
            else now == own
  {
    assert (init + [last])[..|init|] == init;
    var rows := FromPages(u, init, sitemap, blocked).rows;
    var row := InspectPage(u, last, sitemap, blocked);
    if key in rows {
      MergedField(rows[key].facts, row.facts, field);
      MergedField(row.facts, rows[key].facts, field);
    }
  }

  /** A merged fact is one that some page of the key records, */
  lemma {:induction false} MergedFactsAreRecorded(u: Urls, pages: seq<Page>, sitemap: set<string>, blocked: bool,
                                                  key: string, field: Field)
    requires key in FromPages(u, pages, sitemap, blocked).rows
    requires RowField(u, pages, sitemap, blocked, key, field).Some?
    ensures Records(u, pages, key, field, RowField(u, pages, sitemap, blocked, key, field).value)
  {
    var init, last := pages[..|pages| - 1], pages[|pages| - 1];
    assert pages == init + [last];
    var fact := RowField(u, pages, sitemap, blocked, key, field).value;
    RecordsGrow(u, init, last, key, field, fact);
    FieldStep(u, init, last, sitemap, blocked, key, field);
    if key in FromPages(u, init, sitemap, blocked).rows
      && RowField(u, init, sitemap, blocked, key, field) == Some(fact) {
      MergedFactsAreRecorded(u, init, sitemap, blocked, key, field);
    }
  }

  /** and no recorded fact leaves the field empty. */
  lemma {:induction false} RecordedFactsAreMerged(u: Urls, pages: seq<Page>, sitemap: set<string>, blocked: bool,
                                                  key: string,
                                                  field: Field, fact: Fact)
    requires Records(u, pages, key, field, fact)
    ensures key in FromPages(u, pages, sitemap, blocked).rows && RowField(u, pages, sitemap, blocked, key, field).Some?
  {
    var init, last := pages[..|pages| - 1], pages[|pages| - 1];
    assert pages == init + [last];
    RecordsGrow(u, init, last, key, field, fact);
    if Records(u, init, key, field, fact) {
      RecordedFactsAreMerged(u, init, sitemap, blocked, key, field, fact);
    }
    FieldStep(u, init, last, sitemap, blocked, key, field);
  }

  /** The facts of the page that names the row win over those of all others. */
  lemma {:induction false} NamingPageWins(u: Urls, pages: seq<Page>, sitemap: set<string>, blocked: bool, key: string,
                                          field: Field)
    requires key in FromPages(u, pages, sitemap, blocked).rows
    ensures var row := FromPages(u, pages, sitemap, blocked).rows[key];
            FieldOf(row.evidence.facts, field).Some? ==> FieldOf(row.facts, field) == FieldOf(row.evidence.facts, field)
  {
    var init, last := pages[..|pages| - 1], pages[|pages| - 1];
    var rows := FromPages(u, init, sitemap, blocked).rows;
    if key in rows {
      NamingPageWins(u, init, sitemap, blocked, key, field);
      var row := InspectPage(u, last, sitemap, blocked);
      MergedField(rows[key].facts, row.facts, field);
      MergedField(row.facts, rows[key].facts, field);
    }
  }

  /** A row's evidence shows the fact that the row itself shows exactly when the page that names the row
      records it or no page of the key does. */
  lemma EvidenceAgreesIff(u: Urls, pages: seq<Page>, sitemap: set<string>, blocked: bool, key: string, field: Field)
    requires key in FromPages(u, pages, sitemap, blocked).rows
    ensures var row := FromPages(u, pages, sitemap, blocked).rows[key];
            FieldOf(row.facts, field) == FieldOf(row.evidence.facts, field) <==>
              FieldOf(row.evidence.facts, field).Some? || !exists fact :: Records(u, pages, key, field, fact)
  {
    NamingPageWins(u, pages, sitemap, blocked, key, field);
    if RowField(u, pages, sitemap, blocked, key, field).Some? {
      MergedFactsAreRecorded(u, pages, sitemap, blocked, key, field);
    }
    if fact :| Records(u, pages, key, field, fact) {
      RecordedFactsAreMerged(u, pages, sitemap, blocked, key, field, fact);
    }
  }

  lemma MergeStep(u: Urls, init: seq<Page>, last: Page, sitemap: set<string>, blocked: bool)
    requires u.normalize(last.url) in FromPages(u, init, sitemap, blocked).rows
    ensures var key := u.normalize(last.url);
            key in FromPages(u, init + [last], sitemap, blocked).rows
            && FromPages(u, init + [last], sitemap, blocked).rows[key]
               == MergeInspection(FromPages(u, init, sitemap, blocked).rows[key],
                                  InspectPage(u, last, sitemap, blocked))
  {
    assert (init + [last])[..|init|] == init;
  }

  lemma FirstStep(u: Urls, page: Page, sitemap: set<string>, blocked: bool)
    ensures u.normalize(page.url) in FromPages(u, [page], sitemap, blocked).rows
    ensures FromPages(u, [page], sitemap, blocked).rows[u.normalize(page.url)] == InspectPage(u, page, sitemap, blocked)
  {
    assert [page][..0] == [];
  }

  function Homepage(url: string): Page {
    Page(url, None, Some(HOMEPAGE), None, None, None)
  }

  // ---------------------------------------------------------------- does the order of the pages matter?

  function FieldFor(u: Urls, pages: seq<Page>, sitemap: set<string>, blocked: bool, key: string,
                    field: Field): Option<Fact> {
    if key in FromPages(u, pages, sitemap, blocked).rows then RowField(u, pages, sitemap, blocked, key, field) else None
  }

  function FactOf(u: Urls, p: Page, field: Field): Option<Fact> {
    FieldOf(FactsOf(u, p), field)
  }

  /** Every order of the same pages shows the same fact. */
  ghost predicate OrderFree(u: Urls, pages: seq<Page>, sitemap: set<string>, blocked: bool, key: string, field: Field) {
    forall others | multiset(others) == multiset(pages) ::
      FieldFor(u, others, sitemap, blocked, key, field) == FieldFor(u, pages, sitemap, blocked, key, field)
  }

  predicate FactsAgree(u: Urls, pages: seq<Page>, key: string, field: Field) {
    forall p, q | p in pages && q in pages && u.normalize(p.url) == key && u.normalize(q.url) == key ::
      FactOf(u, p, field).Some? && FactOf(u, q, field).Some? ==> FactOf(u, p, field) == FactOf(u, q, field)
  }

  /** One of the key's pages of the highest rank. */
  predicate IsTop(u: Urls, pages: seq<Page>, key: string, p: Page) {
    && p in pages && u.normalize(p.url) == key
    && forall q | q in pages && u.normalize(q.url) == key :: RankOf(q) <= RankOf(p)
  }

  predicate TopsRecord(u: Urls, pages: seq<Page>, key: string, field: Field, fact: Fact) {
    forall p | p in pages && IsTop(u, pages, key, p) :: FactOf(u, p, field) == Some(fact)
  }

  ghost predicate TopsAgree(u: Urls, pages: seq<Page>, key: string, field: Field) {
    exists fact :: TopsRecord(u, pages, key, field, fact)
  }

  lemma SomeTop(u: Urls, pages: seq<Page>, key: string) returns (p: Page)
    requires HasPage(u, pages, key)
    ensures IsTop(u, pages, key, p)
  {
    PageRows(u, pages, {}, false, key);
    var n :| 0 <= n < |pages| && IsBest(u, pages, key, n)
             && Describes(u, pages[n], {}, false, FromPages(u, pages, {}, false).rows[key]);
    p := pages[n];
  }

  lemma TopFactIsShown(u: Urls, pages: seq<Page>, sitemap: set<string>, blocked: bool, key: string, field: Field,
                       fact: Fact)
    requires HasPage(u, pages, key) && TopsRecord(u, pages, key, field, fact)
    ensures FieldFor(u, pages, sitemap, blocked, key, field) == Some(fact)
  {
    PageRows(u, pages, sitemap, blocked, key);
    var n :| 0 <= n < |pages| && IsBest(u, pages, key, n)
             && Describes(u, pages[n], sitemap, blocked, FromPages(u, pages, sitemap, blocked).rows[key]);
    assert IsTop(u, pages, key, pages[n]);
    NamingPageWins(u, pages, sitemap, blocked, key, field);
  }

  lemma AgreedFactIsShown(u: Urls, pages: seq<Page>, sitemap: set<string>, blocked: bool, key: string, field: Field,
                          fact: Fact)
    requires FactsAgree(u, pages, key, field) && Records(u, pages, key, field, fact)
    ensures FieldFor(u, pages, sitemap, blocked, key, field) == Some(fact)
  {
    RecordedFactsAreMerged(u, pages, sitemap, blocked, key, field, fact);
    MergedFactsAreRecorded(u, pages, sitemap, blocked, key, field);
  }

  lemma SamePages(u: Urls, pages: seq<Page>, others: seq<Page>, sitemap: set<string>, blocked: bool, key: string,
                  field: Field)
    requires multiset(others) == multiset(pages)
    requires FactsAgree(u, pages, key, field) || TopsAgree(u, pages, key, field)
    ensures FieldFor(u, others, sitemap, blocked, key, field) == FieldFor(u, pages, sitemap, blocked, key, field)
  {
    SameMembers(others, pages);
    PageRows(u, pages, sitemap, blocked, key);
    PageRows(u, others, sitemap, blocked, key);
    if HasPage(u, pages, key) && TopsAgree(u, pages, key, field) {
      var fact :| TopsRecord(u, pages, key, field, fact);
      TopFactIsShown(u, pages, sitemap, blocked, key, field, fact);
      TopFactIsShown(u, others, sitemap, blocked, key, field, fact);
    } else if HasPage(u, pages, key) {
      SameWhenAgreed(u, pages, others, sitemap, blocked, key, field);
      SameWhenAgreed(u, others, pages, sitemap, blocked, key, field);
    }
  }

  lemma SameWhenAgreed(u: Urls, pages: seq<Page>, others: seq<Page>, sitemap: set<string>, blocked: bool, key: string,
                       field: Field)
    requires (forall p :: p in pages <==> p in others) && FactsAgree(u, pages, key, field)
    requires key in FromPages(u, pages, sitemap, blocked).rows
    ensures FieldFor(u, pages, sitemap, blocked, key, field).Some? ==>
              FieldFor(u, others, sitemap, blocked, key, field) == FieldFor(u, pages, sitemap, blocked, key, field)
  {
    if RowField(u, pages, sitemap, blocked, key, field).Some? {
      MergedFactsAreRecorded(u, pages, sitemap, blocked, key, field);
      AgreedFactIsShown(u, others, sitemap, blocked, key, field,
                        RowField(u, pages, sitemap, blocked, key, field).value);
    }
  }

  /** Once the row has the highest rank and a fact, no later page changes that fact. */
  lemma {:induction false} FrontWins(u: Urls, front: seq<Page>, rest: seq<Page>, sitemap: set<string>, blocked: bool,
                                     key: string, field: Field, fact: Fact)
    requires key in FromPages(u, front, sitemap, blocked).rows
    requires RowField(u, front, sitemap, blocked, key, field) == Some(fact)
    requires forall p | p in rest && u.normalize(p.url) == key ::
               RankOf(p) <= SourceRank(FromPages(u, front, sitemap, blocked).rows[key].source)
    ensures key in FromPages(u, front + rest, sitemap, blocked).rows
    ensures FromPages(u, front + rest, sitemap, blocked).rows[key].source ==
              FromPages(u, front, sitemap, blocked).rows[key].source
    ensures RowField(u, front + rest, sitemap, blocked, key, field) == Some(fact)
  {
    if rest == [] {
      assert front + rest == front;
    } else {
      var init, last := rest[..|rest| - 1], rest[|rest| - 1];
      FrontWins(u, front, init, sitemap, blocked, key, field, fact);
      assert front + rest == (front + init) + [last];
      FromPagesStep(u, front + init, last, sitemap, blocked);
      var row := FromPages(u, front + init, sitemap, blocked).rows[key];
      if u.normalize(last.url) == key {
        MergedField(row.facts, FactsOf(u, last), field);
      }
    }
  }

  lemma FromPagesStep(u: Urls, init: seq<Page>, last: Page, sitemap: set<string>, blocked: bool)
    ensures FromPages(u, init + [last], sitemap, blocked) ==
              AddPage(u, FromPages(u, init, sitemap, blocked), last, sitemap, blocked)
  {
    assert (init + [last])[..|init|] == init;
  }

  lemma FrontTo(pages: seq<Page>, p: Page) returns (rest: seq<Page>)
    requires p in pages
    ensures multiset([p] + rest) == multiset(pages)
  {
    var k :| 0 <= k < |pages| && pages[k] == p;
    rest := pages[..k] + pages[k + 1..];
    assert pages == pages[..k] + [p] + pages[k + 1..];
  }

  /** A page of the highest rank put first shows its own fact. */
  lemma TopFirst(u: Urls, pages: seq<Page>, sitemap: set<string>, blocked: bool, key: string, field: Field, top: Page)
    returns (others: seq<Page>)
    requires IsTop(u, pages, key, top) && FactOf(u, top, field).Some?
    ensures multiset(others) == multiset(pages)
    ensures FieldFor(u, others, sitemap, blocked, key, field) == FactOf(u, top, field)
  {
    var rest := FrontTo(pages, top);
    others := [top] + rest;
    SameMembers(others, pages);
    FirstStep(u, top, sitemap, blocked);
    assert forall p | p in rest :: p in others;
    FrontWins(u, [top], rest, sitemap, blocked, key, field, FactOf(u, top, field).value);
  }

  /** A page of the highest rank that records nothing lets the page after it show its fact. */
  lemma SilentTopFirst(u: Urls, pages: seq<Page>, sitemap: set<string>, blocked: bool, key: string, field: Field,
                       top: Page, p: Page) returns (others: seq<Page>)
    requires IsTop(u, pages, key, top) && FactOf(u, top, field).None?
    requires p in pages && u.normalize(p.url) == key && FactOf(u, p, field).Some?
    ensures multiset(others) == multiset(pages)
    ensures FieldFor(u, others, sitemap, blocked, key, field) == FactOf(u, p, field)
  {
    var rest := FrontTo(pages, top);
    SameMembers([top] + rest, pages);
    assert p in [top] + rest;
    var tail := FrontTo(rest, p);
    others := ([top] + [p]) + tail;
    assert others == [top] + ([p] + tail);
    SameMembers(others, pages);
    FirstStep(u, top, sitemap, blocked);
    MergeStep(u, [top], p, sitemap, blocked);
    MergedField(FactsOf(u, top), FactsOf(u, p), field);
    assert forall q | q in tail :: q in others;
    FrontWins(u, [top] + [p], tail, sitemap, blocked, key, field, FactOf(u, p, field).value);
  }

  /** Otherwise two orders of the pages show two different facts. */
  lemma TwoOrdersDiffer(u: Urls, pages: seq<Page>, sitemap: set<string>, blocked: bool, key: string, field: Field)
    returns (a: seq<Page>, b: seq<Page>)
    requires !FactsAgree(u, pages, key, field) && !TopsAgree(u, pages, key, field)
    ensures multiset(a) == multiset(pages) && multiset(b) == multiset(pages)
    ensures FieldFor(u, a, sitemap, blocked, key, field) != FieldFor(u, b, sitemap, blocked, key, field)
  {
    var p, q :| p in pages && q in pages && u.normalize(p.url) == key && u.normalize(q.url) == key
                && FactOf(u, p, field).Some? && FactOf(u, q, field).Some? && FactOf(u, p, field) != FactOf(u, q, field);
    var top := SomeTop(u, pages, key);
    if FactOf(u, top, field).Some? {
      assert !TopsRecord(u, pages, key, field, FactOf(u, top, field).value);
      var other :| other in pages && IsTop(u, pages, key, other) && FactOf(u, other, field) != FactOf(u, top, field);
      if FactOf(u, other, field).Some? {
        a := TopFirst(u, pages, sitemap, blocked, key, field, top);
        b := TopFirst(u, pages, sitemap, blocked, key, field, other);
        return;
      }
      top := other;
    }
    a := SilentTopFirst(u, pages, sitemap, blocked, key, field, top, p);
    b := SilentTopFirst(u, pages, sitemap, blocked, key, field, top, q);
  }

  /** Exactly when the fact a row shows does not depend on the order of the pages: all facts recorded for it
      agree, or all pages of the highest rank record one and the same fact. */
  lemma OrderFreeIff(u: Urls, pages: seq<Page>, sitemap: set<string>, blocked: bool, key: string, field: Field)
    ensures OrderFree(u, pages, sitemap, blocked, key, field) <==>
              FactsAgree(u, pages, key, field) || TopsAgree(u, pages, key, field)
  {
    if FactsAgree(u, pages, key, field) || TopsAgree(u, pages, key, field) {
      forall others | multiset(others) == multiset(pages)
        ensures FieldFor(u, others, sitemap, blocked, key, field) == FieldFor(u, pages, sitemap, blocked, key, field)
      {
        SamePages(u, pages, others, sitemap, blocked, key, field);
      }
    } else {
      var a, b := TwoOrdersDiffer(u, pages, sitemap, blocked, key, field);
    }
  }

  /** What a homepage without a canonical URL and two further pages of the same URL make of the row. */
  lemma HomeThenTwo(u: Urls, url: string, first: Page, second: Page)
    requires first.url == second.url == url && first.canonicalUrl.Some?
    requires RankOf(first) < 5 && RankOf(second) < 5
    ensures var home := Homepage(url);
            var rows := FromPages(u, [home] + [first] + [second], {}, false).rows;
            u.normalize(url) in rows && rows[u.normalize(url)].facts.canonicalUrl == first.canonicalUrl
  {
    var home := Homepage(url);
    FirstStep(u, home, {}, false);
    MergeStep(u, [home], first, {}, false);
    MergeStep(u, [home] + [first], second, {}, false);
  }

  predicate ShowsCanonical(u: Urls, pages: seq<Page>, key: string, canonical: string) {
    key in FromPages(u, pages, {}, false).rows
      && FromPages(u, pages, {}, false).rows[key].facts.canonicalUrl == Some(canonical)
  }

  function Found(url: string, source: Source, canonical: string): Page {
    Page(url, None, Some(source), Some(canonical), None, None)
  }

  lemma SwapLastTwo(a: Page, b: Page, c: Page)
    ensures multiset([a] + [b] + [c]) == multiset([a] + [c] + [b])
  {
  }

  /** An instance: a homepage without a canonical URL takes the one of whichever page comes next. */
  lemma FactsDependOnOrder(u: Urls, url: string)
    ensures var home, head, crawl := Homepage(url), Found(url, HEAD, "/a"), Found(url, CRAWL, "/b");
            && multiset([home] + [head] + [crawl]) == multiset([home] + [crawl] + [head])
            && ShowsCanonical(u, [home] + [head] + [crawl], u.normalize(url), "/a")
            && ShowsCanonical(u, [home] + [crawl] + [head], u.normalize(url), "/b")
  {
    var home, head, crawl := Homepage(url), Found(url, HEAD, "/a"), Found(url, CRAWL, "/b");
    SwapLastTwo(home, head, crawl);
    HomeThenTwo(u, url, head, crawl);
    HomeThenTwo(u, url, crawl, head);
  }

  // ---------------------------------------------------------------- rows of the sitemap

  lemma SitemapSetGrows(u: Urls, init: seq<string>, last: string)
    ensures SitemapSet(u, init + [last]) == SitemapSet(u, init) + {u.normalize(last)}
  {
    assert last in init + [last];
  }

  /** The second loop changes no row that the first one has built: those already say whether the
      sitemap lists them. */
  lemma {:induction false} SitemapLeavesPageRows(u: Urls, b: ByUrl, urls: seq<string>, key: string)
    requires key in b.rows
    requires key in SitemapSet(u, urls) ==> b.rows[key].sitemapIncluded && b.rows[key].evidence.sitemapIncluded
    ensures key in WithSitemap(u, b, urls).rows && WithSitemap(u, b, urls).rows[key] == b.rows[key]
  {
    if urls != [] {
      var init, last := urls[..|urls| - 1], urls[|urls| - 1];
      assert urls == init + [last];
      SitemapSetGrows(u, init, last);
      SitemapLeavesPageRows(u, b, init, key);
    }
  }

  predicate IsFirstUrl(u: Urls, urls: seq<string>, key: string, n: nat) {
    n < |urls| && u.normalize(urls[n]) == key && forall j | 0 <= j < n :: u.normalize(urls[j]) != key
  }

  predicate ListsFirst(u: Urls, urls: seq<string>, key: string, row: Inspection) {
    exists n | 0 <= n < |urls| :: IsFirstUrl(u, urls, key, n) && row == SitemapRow(u, urls[n])
  }

  lemma {:induction false} SitemapOnlyRows(u: Urls, b: ByUrl, urls: seq<string>, key: string)
    requires key !in b.rows
    ensures key in WithSitemap(u, b, urls).rows <==> key in SitemapSet(u, urls)
    ensures key in SitemapSet(u, urls) ==> ListsFirst(u, urls, key, WithSitemap(u, b, urls).rows[key])
  {
    if urls != [] {
      var init, last := urls[..|urls| - 1], urls[|urls| - 1];
      assert urls == init + [last];
      SitemapSetGrows(u, init, last);
      SitemapOnlyRows(u, b, init, key);
      if key in SitemapSet(u, init) {
        var n :| 0 <= n < |init| && IsFirstUrl(u, init, key, n)
          && WithSitemap(u, b, init).rows[key] == SitemapRow(u, init[n]);
        assert IsFirstUrl(u, urls, key, n) && urls[n] == init[n];
      } else if u.normalize(last) == key {
        assert forall j | 0 <= j < |init| :: init[j] in init;
        assert IsFirstUrl(u, urls, key, |init|);
      }
    }
  }

  // ---------------------------------------------------------------- the matrix

  predicate Listed(u: Urls, input: Input, key: string) {
    key in SitemapSet(u, input.sitemapUrls)
  }

  /** What the row of a key says. */
  predicate RowSays(u: Urls, input: Input, key: string, row: Inspection) {
    && u.normalize(row.url) == key
    && row.sitemapIncluded == Listed(u, input, key)
    && if HasPage(u, input.pages, key)
       then DescribesBest(u, input.pages, key, SitemapSet(u, input.sitemapUrls), input.robotsBlocksAll, row)
       else ListsFirst(u, input.sitemapUrls, key, row)
  }

  lemma CollectedRow(u: Urls, input: Input, key: string)
    ensures key in Collected(u, input).rows <==> HasPage(u, input.pages, key) || Listed(u, input, key)
    ensures key in Collected(u, input).rows ==> RowSays(u, input, key, Collected(u, input).rows[key])
    ensures HasPage(u, input.pages, key) ==>
              key in FromPages(u, input.pages, SitemapSet(u, input.sitemapUrls), input.robotsBlocksAll).rows
              && Collected(u, input).rows[key] ==
                FromPages(u, input.pages, SitemapSet(u, input.sitemapUrls), input.robotsBlocksAll).rows[key]
  {
    var sitemap := SitemapSet(u, input.sitemapUrls);
    var b := FromPages(u, input.pages, sitemap, input.robotsBlocksAll);
    PageRows(u, input.pages, sitemap, input.robotsBlocksAll, key);
    if HasPage(u, input.pages, key) {
      var n :| 0 <= n < |input.pages| && IsBest(u, input.pages, key, n)
               && Describes(u, input.pages[n], sitemap, input.robotsBlocksAll, b.rows[key]);
      SitemapLeavesPageRows(u, b, input.sitemapUrls, key);
    } else {
      SitemapOnlyRows(u, b, input.sitemapUrls, key);
    }
  }

  lemma InMatrixIff(u: Urls, input: Input, row: Inspection)
    ensures row in Matrix(u, input) <==>
              u.normalize(row.url) in Collected(u, input).rows && row == Collected(u, input).rows[u.normalize(row.url)]
  {
    var c := Collected(u, input);
    var unsorted := Unsorted(u, input);
    CollectedOrder(u, input);
    SortedPermutes(Comparator(u, input.homepageUrl), unsorted);
    SameMembers(Matrix(u, input), unsorted);
    if row in unsorted {
      var n :| 0 <= n < |unsorted| && unsorted[n] == row;
      assert row == c.rows[c.order[n]];
      CollectedRow(u, input, c.order[n]);
    }
    var key := u.normalize(row.url);
    if key in c.order {
      var n :| 0 <= n < |c.order| && c.order[n] == key;
      assert unsorted[n] == c.rows[key];
    }
  }

  /** Every row says what the pages and the sitemap say about its URL. */
  lemma RowExact(u: Urls, input: Input, row: Inspection)
    requires row in Matrix(u, input)
    ensures RowSays(u, input, u.normalize(row.url), row)
  {
    InMatrixIff(u, input, row);
    CollectedRow(u, input, u.normalize(row.url));
  }

  /** Nothing but its answer decides whether the page is INDEXABLE. */
  predicate IsClean(u: Urls, p: Page, robotsBlocksAll: bool) {
    && !u.expectedNoindex(p.url) && !robotsBlocksAll && !SaysNoindex(u, p)
    && (p.canonicalUrl.None? || p.canonicalUrl.value == "" || u.normalize(p.canonicalUrl.value) == u.normalize(p.url))
  }

  predicate Answers(p: Page) {
    p.statusCode.Some? && 0 < p.statusCode.value < 400
  }

  /** Which rows of the matrix are INDEXABLE: those whose first page of the highest source rank is clean and has
      answered below 400, whatever the other pages of the URL say. */
  lemma IndexableRowIff(u: Urls, input: Input, row: Inspection)
    requires row in Matrix(u, input)
    ensures row.status == INDEXABLE <==>
              exists n | 0 <= n < |input.pages| :: IsBest(u, input.pages, u.normalize(row.url), n)
                && IsClean(u, input.pages[n], input.robotsBlocksAll) && Answers(input.pages[n])
  {
    var key := u.normalize(row.url);
    RowExact(u, input, row);
    forall n | 0 <= n < |input.pages| && IsBest(u, input.pages, key, n)
      ensures row.status == ResolveStatus(u, input.pages[n], input.robotsBlocksAll)
    {
      assert input.pages[n] in input.pages;
      BestNamesStatus(u, input.pages, key, SitemapSet(u, input.sitemapUrls), input.robotsBlocksAll, row, n);
    }
    if HasPage(u, input.pages, key) {
      var m :| 0 <= m < |input.pages| && IsBest(u, input.pages, key, m);
    }
  }

  lemma BestNamesStatus(u: Urls, pages: seq<Page>, key: string, sitemap: set<string>, blocked: bool, row: Inspection,
                        n: nat)
    requires DescribesBest(u, pages, key, sitemap, blocked, row) && IsBest(u, pages, key, n)
    ensures row.status == ResolveStatus(u, pages[n], blocked)
  {
    var m :| 0 <= m < |pages| && IsBest(u, pages, key, m) && Describes(u, pages[m], sitemap, blocked, row);
    assert m == n;
  }

  /** The text, in lower case, has the word somewhere. */
  predicate Mentions(u: Urls, text: Option<string>, word: string) {
    text.Some? && exists i, j | 0 <= i <= j <= |u.lower(text.value)| :: u.lower(text.value)[i..j] == word
  }

  lemma ContainsIff(s: string, part: string)
    ensures Contains(s, part) <==> exists i, j | 0 <= i <= j <= |s| :: s[i..j] == part
  {
    if i :| 0 <= i <= |s| && part <= s[i..] {
      assert s[i..i + |part|] == part;
    }
    if i, j :| 0 <= i <= j <= |s| && s[i..j] == part {
      assert part == s[i..][..j - i];
    }
  }

  lemma SaysNoindexIff(u: Urls, p: Page)
    ensures SaysNoindex(u, p) <==> Mentions(u, p.robotsDirective, "noindex") || Mentions(u, p.xRobotsTag, "noindex")
  {
    ContainsIff("", "noindex");
    if p.robotsDirective.Some? {
      ContainsIff(u.lower(p.robotsDirective.value), "noindex");
    }
    if p.xRobotsTag.Some? {
      ContainsIff(u.lower(p.xRobotsTag.value), "noindex");
    }
  }

  predicate PointsElsewhere(u: Urls, p: Page) {
    p.canonicalUrl.Some? && p.canonicalUrl.value != "" && u.normalize(p.canonicalUrl.value) != u.normalize(p.url)
  }

  /** Which status the row of a crawled URL has, by its first page of the highest source rank: the first of these
      that applies, in this order. */
  lemma RowStatusIff(u: Urls, input: Input, row: Inspection, n: nat)
    requires row in Matrix(u, input) && IsBest(u, input.pages, u.normalize(row.url), n)
    ensures var p := input.pages[n];
            var private, blocked := u.expectedNoindex(p.url), input.robotsBlocksAll;
            var failed := p.statusCode.Some? && p.statusCode.value >= 400;
            var noindex := Mentions(u, p.robotsDirective, "noindex") || Mentions(u, p.xRobotsTag, "noindex");
            var elsewhere := PointsElsewhere(u, p);
            && (row.status == PRIVATE_EXPECTED <==> private)
            && (row.status == BLOCKED_BY_ROBOTS <==> !private && blocked)
            && (row.status == HTTP_ERROR <==> !private && !blocked && failed)
            && (row.status == NOINDEX <==> !private && !blocked && !failed && noindex)
            && (row.status == CANONICALIZED <==> !private && !blocked && !failed && !noindex && elsewhere)
            && (row.status == UNKNOWN <==>
                  !private && !blocked && !failed && !noindex && !elsewhere
                  && (p.statusCode.None? || p.statusCode.value <= 0))
  {
    var key := u.normalize(row.url);
    RowExact(u, input, row);
    assert input.pages[n] in input.pages;
    BestNamesStatus(u, input.pages, key, SitemapSet(u, input.sitemapUrls), input.robotsBlocksAll, row, n);
    SaysNoindexIff(u, input.pages[n]);
  }

  /** The homepage outranks the crawl, the crawl the HEAD requests, those the sitemap, and the sitemap the probes;
      a page without a source counts as crawled. */
  lemma SourceOrder(p: Page)
    ensures SourceRank(HOMEPAGE) > SourceRank(CRAWL) > SourceRank(HEAD) > SourceRank(SITEMAP) > SourceRank(PROBE)
    ensures p.source.None? ==> RankOf(p) == SourceRank(CRAWL)
    ensures p.source.Some? ==> RankOf(p) == SourceRank(p.source.value)
  {
  }

  /** `text?.toLowerCase()` */
  predicate IsLowered(u: Urls, lowered: Option<string>, text: Option<string>) {
    lowered.Some? == text.Some? && (text.Some? ==> lowered.value == u.lower(text.value))
  }

  /** The evidence of the row of a crawled URL is what that page recorded, and the row has its URL and source. */
  lemma RowEvidenceExact(u: Urls, input: Input, row: Inspection, n: nat)
    requires row in Matrix(u, input) && IsBest(u, input.pages, u.normalize(row.url), n)
    ensures var p, e := input.pages[n], row.evidence;
            && row.url == p.url && row.source == (if p.source.Some? then p.source.value else CRAWL)
            && e.source == Some(row.source)
            && e.facts.statusCode == p.statusCode && e.facts.canonicalUrl == p.canonicalUrl
            && IsLowered(u, e.facts.robotsDirective, p.robotsDirective)
            && IsLowered(u, e.facts.xRobotsTag, p.xRobotsTag)
            && e.sitemapIncluded == row.sitemapIncluded
            && row.sitemapIncluded == exists url | url in input.sitemapUrls :: u.normalize(url) == u.normalize(row.url)
  {
    var key, sitemap := u.normalize(row.url), SitemapSet(u, input.sitemapUrls);
    RowExact(u, input, row);
    assert input.pages[n] in input.pages;
    var m :| 0 <= m < |input.pages| && IsBest(u, input.pages, key, m)
             && Describes(u, input.pages[m], sitemap, input.robotsBlocksAll, row);
    assert m == n;
  }

  /** A URL that only the sitemap knows: no facts, and private or unknown. */
  lemma SitemapOnlyRowExact(u: Urls, input: Input, row: Inspection)
    requires row in Matrix(u, input) && !HasPage(u, input.pages, u.normalize(row.url))
    ensures row.status == if u.expectedNoindex(row.url) then PRIVATE_EXPECTED else UNKNOWN
    ensures row.source == SITEMAP && row.sitemapIncluded && row.evidence.sitemapIncluded && row.evidence.source == None
    ensures row.facts == row.evidence.facts
    ensures row.facts.statusCode == None && row.facts.canonicalUrl == None
    ensures row.facts.robotsDirective == None && row.facts.xRobotsTag == None
    ensures row.url in input.sitemapUrls
  {
    RowExact(u, input, row);
  }

  /** Where the fields of a crawled URL's row come from: each from a page of the URL that records that field. */
  lemma RowFactsByField(u: Urls, input: Input, row: Inspection)
    requires row in Matrix(u, input) && HasPage(u, input.pages, u.normalize(row.url))
    ensures var (key, f) := (u.normalize(row.url), row.facts);
            && (f.statusCode.Some? ==>
                  exists p | p in input.pages :: u.normalize(p.url) == key && p.statusCode == f.statusCode)
            && (f.canonicalUrl.Some? ==>
                  exists p | p in input.pages :: u.normalize(p.url) == key && p.canonicalUrl == f.canonicalUrl)
            && (f.robotsDirective.Some? ==>
                  exists p | p in input.pages ::
                    u.normalize(p.url) == key && IsLowered(u, f.robotsDirective, p.robotsDirective))
            && (f.xRobotsTag.Some? ==>
                  exists p | p in input.pages ::
                    u.normalize(p.url) == key && IsLowered(u, f.xRobotsTag, p.xRobotsTag))
  {
    RowFactsExact(u, input, row, STATUS_CODE);
    RowFactsExact(u, input, row, CANONICAL);
    RowFactsExact(u, input, row, ROBOTS);
    RowFactsExact(u, input, row, X_ROBOTS);
  }

  /** The row of a crawled URL records a fact exactly when one of its pages does, and then one of theirs. */
  lemma RowFactsExact(u: Urls, input: Input, row: Inspection, field: Field)
    requires row in Matrix(u, input) && HasPage(u, input.pages, u.normalize(row.url))
    ensures FieldOf(row.facts, field).Some? <==>
              exists fact :: Records(u, input.pages, u.normalize(row.url), field, fact)
    ensures FieldOf(row.facts, field).Some? ==>
              Records(u, input.pages, u.normalize(row.url), field, FieldOf(row.facts, field).value)
    ensures FieldOf(row.evidence.facts, field).Some? ==> FieldOf(row.facts, field) == FieldOf(row.evidence.facts, field)
  {
    var key := u.normalize(row.url);
    var sitemap := SitemapSet(u, input.sitemapUrls);
    InMatrixIff(u, input, row);
    CollectedRow(u, input, key);
    NamingPageWins(u, input.pages, sitemap, input.robotsBlocksAll, key, field);
    if FieldOf(row.facts, field).Some? {
      MergedFactsAreRecorded(u, input.pages, sitemap, input.robotsBlocksAll, key, field);
    }
    if fact :| Records(u, input.pages, key, field, fact) {
      RecordedFactsAreMerged(u, input.pages, sitemap, input.robotsBlocksAll, key, field, fact);
    }
  }

  function Keys(u: Urls, rows: seq<Inspection>): seq<string> {
    seq(|rows|, n requires 0 <= n < |rows| => u.normalize(rows[n].url))
  }

  /** Exactly one row for each URL of the pages and of the sitemap. */
  lemma OneRowPerUrl(u: Urls, input: Input, key: string)
    ensures Distinct(Keys(u, Matrix(u, input)))
    ensures (exists row | row in Matrix(u, input) :: u.normalize(row.url) == key) <==>
              HasPage(u, input.pages, key) || Listed(u, input, key)
  {
    KeysDistinct(u, input);
    CollectedRow(u, input, key);
    if key in Collected(u, input).rows {
      InMatrixIff(u, input, Collected(u, input).rows[key]);
    }
    forall row | row in Matrix(u, input)
      ensures u.normalize(row.url) in Collected(u, input).rows
    {
      InMatrixIff(u, input, row);
    }
  }

  lemma UnsortedDistinct(u: Urls, input: Input)
    ensures Distinct(Unsorted(u, input))
    ensures forall i, j | 0 <= i < j < |Unsorted(u, input)| ::
              u.normalize(Unsorted(u, input)[i].url) != u.normalize(Unsorted(u, input)[j].url)
  {
    var c, unsorted := Collected(u, input), Unsorted(u, input);
    CollectedOrder(u, input);
    forall i | 0 <= i < |unsorted|
      ensures u.normalize(unsorted[i].url) == c.order[i]
    {
      CollectedRow(u, input, c.order[i]);
    }
  }

  lemma KeysDistinct(u: Urls, input: Input)
    ensures Distinct(Matrix(u, input)) && Distinct(Keys(u, Matrix(u, input)))
  {
    var unsorted, matrix := Unsorted(u, input), Matrix(u, input);
    UnsortedDistinct(u, input);
    SortedPermutes(Comparator(u, input.homepageUrl), unsorted);
    DistinctByMultiset(unsorted, matrix);
    SameMembers(matrix, unsorted);
    forall i, j | 0 <= i < j < |matrix|
      ensures u.normalize(matrix[i].url) != u.normalize(matrix[j].url)
    {
      assert matrix[i] in unsorted && matrix[j] in unsorted;
      var k :| 0 <= k < |unsorted| && unsorted[k] == matrix[i];
      var l :| 0 <= l < |unsorted| && unsorted[l] == matrix[j];
      assert k != l;
    }
  }

  // ---------------------------------------------------------------- its order

  /** `localeCompare` is a consistent comparator. */
  ghost predicate IsCollation(u: Urls) {
    && (forall a, b :: !(u.compare(a, b) < 0 && u.compare(b, a) < 0))
    && (forall a, b, c :: u.compare(b, a) >= 0 && u.compare(c, b) >= 0 ==> u.compare(c, a) >= 0)
  }

  /** The comparator answers -1 for the homepage on either side, which is consistent only because no two
      rows have the same key. */
  lemma ComparatorConsistent(u: Urls, input: Input)
    requires IsCollation(u)
    ensures Consistent(Comparator(u, input.homepageUrl), Unsorted(u, input))
  {
    var unsorted, home := Unsorted(u, input), u.normalize(input.homepageUrl);
    UnsortedDistinct(u, input);
    forall a, b | a in unsorted && b in unsorted && a != b
      ensures u.normalize(a.url) != u.normalize(b.url)
    {
      var k :| 0 <= k < |unsorted| && unsorted[k] == a;
      var l :| 0 <= l < |unsorted| && unsorted[l] == b;
      assert k != l;
    }
  }

  /** The homepage comes first and the other rows follow in the order of their URLs. */
  lemma HomepageFirstRestSorted(u: Urls, input: Input, i: nat, j: nat)
    requires IsCollation(u) && i < j < |Matrix(u, input)|
    ensures var home := u.normalize(input.homepageUrl);
            var left, right := Matrix(u, input)[i].url, Matrix(u, input)[j].url;
            u.normalize(right) != home && (u.normalize(left) == home || u.compare(right, left) >= 0)
  {
    UnsortedDistinct(u, input);
    ComparatorConsistent(u, input);
    SortedOrdered(Comparator(u, input.homepageUrl), Unsorted(u, input));
    var matrix := Matrix(u, input);
    assert !Comparator(u, input.homepageUrl)(matrix[j], matrix[i]);
  }
}
