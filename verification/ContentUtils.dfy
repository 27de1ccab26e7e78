/** Near-duplicate detection: word shingles, Jaccard similarity and the pairwise scan.  Similarity is
    an exact real number; the rounding of JavaScript's division is not modelled. */
module ContentUtils {
  import opened Common
  import opened Text

  // ---------------------------------------------------------------- shingles

  function CountWords(text: string): nat {
    |Words(text)|
  }

  /** `words.slice(i, i + size).join(' ')` */
  function Shingle(words: seq<string>, size: nat, i: nat): string
    requires i + size <= |words|
  {
    Join(words[i..i + size])
  }

  /** The shingles of a sequence of words: every window of `size` words, or all the words when
      there are fewer. */
  function Shingles(words: seq<string>, size: nat): set<string> {
    if |words| < size then
      if words == [] then {} else {Join(words)}
    else
      Windows(words, size, |words| - size + 1)
  }

  function Windows(words: seq<string>, size: nat, n: nat): set<string>
    requires n + size <= |words| + 1
  {
    set i: nat | i < n :: Shingle(words, size, i)
  }

  lemma NextWindow(words: seq<string>, size: nat, n: nat)
    requires n + size <= |words|
    ensures Windows(words, size, n + 1) == Windows(words, size, n) + {Shingle(words, size, n)}
  {
    assert forall x :: x in Windows(words, size, n + 1) ==>
      x in Windows(words, size, n) || x == Shingle(words, size, n);
  }

  method BuildShingles(text: string, size: nat) returns (shingles: set<string>)
    ensures shingles == Shingles(Words(text), size)
  {
    var words := Words(text);
    shingles := {};
    if |words| < size {
      if |words| > 0 {
        shingles := shingles + {Join(words)};
      }
      return;
    }
    var i := 0;
    while i <= |words| - size
      invariant 0 <= i <= |words| - size + 1
      invariant shingles == Windows(words, size, i)
    {
      NextWindow(words, size, i);
      shingles := shingles + {Join(words[i..i + size])};
      i := i + 1;
    }
  }

  /** Two windows are counted as one shingle exactly when they hold the same words. */
  lemma ShingleInjective(v: seq<string>, w: seq<string>, size: nat, i: nat, j: nat)
    requires AllWords(v) && AllWords(w) && i + size <= |v| && j + size <= |w|
    ensures Shingle(v, size, i) == Shingle(w, size, j) <==> v[i..i + size] == w[j..j + size]
  {
    WordsOfJoin(v[i..i + size]);
    WordsOfJoin(w[j..j + size]);
  }

  /** The shingles of a text: the windows of `size` words at every position, first and last included, or the
      whole text if it is shorter, or nothing if it has no words; each holds the words of its window. */
  lemma ShinglesExact(text: string, size: nat, x: string)
    ensures var ws := Words(text);
            x in Shingles(ws, size) <==>
            if |ws| < size then 0 < |ws| && x == Join(ws)
            else exists i: nat | i + size <= |ws| :: x == Shingle(ws, size, i)
    ensures var ws := Words(text);
            forall i: nat | i + size <= |ws| :: Words(Shingle(ws, size, i)) == ws[i..i + size]
  {
    var ws := Words(text);
    forall i: nat | i + size <= |ws|
      ensures Words(Shingle(ws, size, i)) == ws[i..i + size]
    {
      WordsOfJoin(ws[i..i + size]);
    }
  }

  // ---------------------------------------------------------------- Jaccard similarity

  function Similarity<T>(a: set<T>, b: set<T>): real {
    if a == {} && b == {} then 0.0 else |a * b| as real / |a + b| as real
  }

  /** Intersection over union, with two empty sets taken as unlike. */
  lemma SimilarityExact<T>(a: set<T>, b: set<T>)
    ensures Similarity(a, b) * |a + b| as real == |a * b| as real
    ensures |a + b| == 0 ==> Similarity(a, b) == 0.0
  {
    if a + b == {} {
      assert a == {} && b == {} && a * b == {};
    }
  }

  function Distance<T>(a: set<T>, b: set<T>): real {
    1.0 - Similarity(a, b)
  }

  lemma SizesAdd<T>(a: set<T>, b: set<T>)
    ensures |a + b| + |a * b| == |a| + |b|
    ensures |a| == |a * b| + |a - b|
    ensures |a + b| == |b| + |a - b|
  {
    assert a == (a * b) + (a - b);
    assert a + b == b + (a - b);
  }

  method Jaccard(a: set<string>, b: set<string>) returns (similarity: real)
    ensures similarity == Similarity(a, b)
    ensures 0.0 <= similarity <= 1.0
  {
    if |a| == 0 && |b| == 0 {
      return 0.0;
    }
    var intersection := 0;
    var smaller := if |a| <= |b| then a else b;
    var larger := if smaller == a then b else a;
    var rest := smaller;
    while rest != {}
      invariant rest <= smaller
      invariant intersection == |(smaller - rest) * larger|
      decreases rest
    {
      var item :| item in rest;
      CountOne(smaller, rest, larger, item);
      rest := rest - {item};
      if item in larger {
        intersection := intersection + 1;
      }
    }
    assert (smaller - rest) * larger == a * b;
    var union := |a| + |b| - intersection;
    UnionByCount(a, b, intersection);
    similarity := if union == 0 then 0.0 else intersection as real / union as real;
    DistanceAtMostOne(a, b);
  }

  lemma UnionByCount<T>(a: set<T>, b: set<T>, intersection: nat)
    requires intersection == |a * b|
    ensures |a| + |b| - intersection == |a + b|
    ensures a != {} || b != {} ==> Similarity(a, b) == intersection as real / |a + b| as real
  {
    SizesAdd(a, b);
  }

  lemma CountOne<T>(smaller: set<T>, rest: set<T>, larger: set<T>, item: T)
    requires rest <= smaller && item in rest
    ensures |(smaller - (rest - {item})) * larger| == |(smaller - rest) * larger| + if item in larger then 1 else 0
  {
    var before := (smaller - rest) * larger;
    assert (smaller - (rest - {item})) * larger == if item in larger then before + {item} else before;
  }

  /** The symmetric difference. */
  function Differ<T>(a: set<T>, b: set<T>): set<T> {
    (a - b) + (b - a)
  }

  lemma DistanceIsDifference<T>(a: set<T>, b: set<T>)
    requires a + b != {}
    ensures Distance(a, b) == |Differ(a, b)| as real / |a + b| as real
  {
    assert a + b == Differ(a, b) + a * b;
    assert |a + b| == |Differ(a, b)| + |a * b|;
    var d, i, u := |Differ(a, b)| as real, |a * b| as real, |a + b| as real;
    assert u == d + i && u > 0.0;
    assert d / u + i / u == 1.0;
  }

  lemma GrowFraction(n: nat, d: nat, extra: nat)
    requires n <= d && 0 < d
    ensures n as real / d as real <= (n + extra) as real / (d + extra) as real
  {
    var x, y, e := n as real, d as real, extra as real;
    assert x * (y + e) <= (x + e) * y by {
      assert x * e <= y * e;
    }
    assert x / y <= (x + e) / (y + e) by {
      DivideBoth(x, y, x + e, y + e);
    }
  }

  lemma DivideBoth(a: real, b: real, c: real, d: real)
    requires b > 0.0 && d > 0.0 && a * d <= c * b
    ensures a / b <= c / d
  {
    var k := b * d;
    assert k > 0.0;
    assert a / b == (a * d) / k by { assert (a / b) * k == a * d; }
    assert c / d == (c * b) / k by { assert (c / d) * k == c * b; }
  }

  lemma ShrinkFraction(n: nat, d: nat, bigger: nat)
    requires 0 < d <= bigger
    ensures n as real / bigger as real <= n as real / d as real
  {
    DivideBoth(n as real, bigger as real, n as real, d as real);
  }

  lemma {:induction false} DistanceAtMostOne<T>(a: set<T>, b: set<T>)
    ensures 0.0 <= Distance(a, b) <= 1.0
  {
    if a + b != {} {
      SubsetSize(a * b, a + b);
      assert |a + b| != 0;
      ShrinkFraction(|a * b|, |a + b|, |a + b|);
      DivideBoth(|a * b| as real, |a + b| as real, 1.0, 1.0);
    }
  }

  /** Jaccard distance, with the convention that two empty sets have similarity 0, satisfies the
      triangle inequality on all finite sets. */
  lemma TriangleInequality<T>(a: set<T>, b: set<T>, c: set<T>)
    ensures Distance(a, c) <= Distance(a, b) + Distance(b, c)
  {
    DistanceAtMostOne(a, c);
    if a + b == {} || b + c == {} {
      DistanceAtMostOne(a, b);
      DistanceAtMostOne(b, c);
    } else if a + c == {} {
      DistanceIsDifference(a, b);
      assert Differ(a, b) == a + b == b;
      assert Distance(a, b) == 1.0;
      DistanceAtMostOne(b, c);
    } else {
      Triangle(a, b, c);
    }
  }

  /** Over a larger union the differences weigh less. */
  lemma DistanceAtLeast<T>(a: set<T>, b: set<T>, all: set<T>)
    requires a + b != {} && a + b <= all
    ensures all != {} && |Differ(a, b)| as real / |all| as real <= Distance(a, b)
  {
    DistanceIsDifference(a, b);
    SubsetSize(a + b, all);
    NotEmpty(a + b);
    ShrinkFraction(|Differ(a, b)|, |a + b|, |all|);
  }

  /** Adding elements to differences and union alike only enlarges the quotient. */
  lemma DistanceAtMost<T>(a: set<T>, c: set<T>, extra: nat)
    requires a + c != {}
    ensures |a + c| + extra > 0 && Distance(a, c) <= (|Differ(a, c)| + extra) as real / (|a + c| + extra) as real
  {
    DistanceIsDifference(a, c);
    SubsetSize(Differ(a, c), a + c);
    NotEmpty(a + c);
    GrowFraction(|Differ(a, c)|, |a + c|, extra);
  }

  lemma Triangle<T>(a: set<T>, b: set<T>, c: set<T>)
    requires a + b != {} && b + c != {} && a + c != {}
    ensures Distance(a, c) <= Distance(a, b) + Distance(b, c)
  {
    var all, extra := a + b + c, |b - (a + c)|;
    CountDifferences(a, b, c);
    DistanceAtMost(a, c, extra);
    DistanceAtLeast(a, b, all);
    DistanceAtLeast(b, c, all);
    AddFractions(|Differ(a, c)| + extra, |Differ(a, b)|, |Differ(b, c)|, |all|);
  }

  lemma NotEmpty<T>(a: set<T>)
    requires a != {}
    ensures |a| > 0
  {
  }

  lemma CountDifferences<T>(a: set<T>, b: set<T>, c: set<T>)
    ensures |a + b + c| == |a + c| + |b - (a + c)|
    ensures |Differ(a, c)| + |b - (a + c)| <= |Differ(a, b)| + |Differ(b, c)|
  {
    var only := b - (a + c);
    assert a + b + c == (a + c) + only;
    var p, q := Differ(a, b), Differ(b, c);
    SizesAdd(p, q);
    assert Differ(a, c) + only <= p + q;
    SubsetSize(Differ(a, c) + only, p + q);
  }

  lemma AddFractions(n: nat, p: nat, q: nat, d: nat)
    requires n <= p + q && 0 < d
    ensures n as real / d as real <= p as real / d as real + q as real / d as real
  {
    assert p as real / d as real + q as real / d as real == (p + q) as real / d as real;
    DivideBoth(n as real, d as real, (p + q) as real, d as real);
  }

  /** Near-duplication at threshold t is transitive up to 2t - 1. */
  lemma SimilarToSimilar<T>(a: set<T>, b: set<T>, c: set<T>, threshold: real)
    requires Similarity(a, b) >= threshold && Similarity(b, c) >= threshold
    ensures Similarity(a, c) >= 2.0 * threshold - 1.0
  {
    TriangleInequality(a, b, c);
  }

  // ---------------------------------------------------------------- robustness against edits

  /** Where two texts of the same length differ. */
  function Edits(v: seq<string>, w: seq<string>): set<nat>
    requires |v| == |w|
  {
    set i: nat | i < |v| && v[i] != w[i]
  }

  function Interval(lo: int, n: nat): (points: set<int>)
    ensures |points| <= n
    ensures forall i :: i in points <==> lo <= i < lo + n
  {
    if n == 0 then {} else Interval(lo, n - 1) + {lo + n - 1}
  }

  predicate Touches(size: nat, i: int, positions: set<nat>) {
    exists d | d in positions :: i <= d < i + size
  }

  /** The starts of the windows, among the first n, that contain one of the positions. */
  function Touching(size: nat, positions: set<nat>, n: nat): set<int> {
    set i | 0 <= i < n && Touches(size, i, positions)
  }

  /** `k * size`, added up. */
  function Repeated(size: nat, k: nat): nat {
    if k == 0 then 0 else Repeated(size, k - 1) + size
  }

  lemma {:induction false} RepeatedIsProduct(size: nat, k: nat)
    ensures Repeated(size, k) == size * k
  {
    if k > 0 {
      RepeatedIsProduct(size, k - 1);
    }
  }

  lemma TouchedNear(size: nat, positions: set<nat>, n: nat, d: nat)
    ensures Touching(size, positions, n) <= Touching(size, positions - {d}, n) + Interval(d - size + 1, size)
  {
    forall i | i in Touching(size, positions, n)
      ensures i in Touching(size, positions - {d}, n) + Interval(d - size + 1, size)
    {
      var e :| e in positions && i <= e < i + size;
      assert e != d ==> e in positions - {d};
    }
  }

  lemma {:induction false} TouchingSize(size: nat, positions: set<nat>, n: nat)
    ensures |Touching(size, positions, n)| <= Repeated(size, |positions|)
    decreases |positions|
  {
    if positions == {} {
      assert Touching(size, positions, n) == {};
    } else {
      var d :| d in positions;
      TouchingSize(size, positions - {d}, n);
      TouchedNear(size, positions, n, d);
      UnionSize(Touching(size, positions, n), Touching(size, positions - {d}, n), Interval(d - size + 1, size));
    }
  }

  function ShinglesAt(words: seq<string>, size: nat, starts: set<int>): set<string> {
    set i | i in starts && 0 <= i && i + size <= |words| :: Shingle(words, size, i)
  }

  lemma {:induction false} ShinglesAtSize(words: seq<string>, size: nat, starts: set<int>)
    ensures |ShinglesAt(words, size, starts)| <= |starts|
    decreases |starts|
  {
    if i :| i in starts {
      var own := if 0 <= i && i + size <= |words| then {Shingle(words, size, i)} else {};
      ShinglesAtSize(words, size, starts - {i});
      UnionSize(ShinglesAt(words, size, starts), ShinglesAt(words, size, starts - {i}), own);
    } else {
      assert ShinglesAt(words, size, starts) == {};
    }
  }

  lemma UnionSize<T>(a: set<T>, b: set<T>, c: set<T>)
    requires a <= b + c
    ensures |a| <= |b| + |c|
  {
    SubsetSize(a, b + c);
    SizesAdd(b, c);
  }

  /** The most shingles that the edits between two texts can cost either of them. */
  function MaxLost(v: seq<string>, w: seq<string>, size: nat): nat
    requires |v| == |w|
  {
    size * |Edits(v, w)|
  }

  /** x >= (a - k) / (a + k), without the division. */
  predicate AtLeastRatio(x: real, a: nat, k: nat) {
    x * (a as real + k as real) >= a as real - k as real
  }

  lemma LostAtStarts(v: seq<string>, w: seq<string>, size: nat, starts: set<int>)
    requires Shingles(v, size) - Shingles(w, size) <= ShinglesAt(v, size, starts)
    ensures |Shingles(v, size) - Shingles(w, size)| <= |starts|
  {
    SubsetSize(Shingles(v, size) - Shingles(w, size), ShinglesAt(v, size, starts));
    ShinglesAtSize(v, size, starts);
  }

  /** Only windows that contain an edit are lost. */
  lemma LostWindows(v: seq<string>, w: seq<string>, size: nat, starts: set<int>)
    requires |v| == |w| && size <= |v|
    requires forall i: int | 0 <= i <= |v| - size && Touches(size, i, Edits(v, w)) :: i in starts
    ensures |Shingles(v, size) - Shingles(w, size)| <= |starts|
  {
    forall s | s in Shingles(v, size) && s !in Shingles(w, size)
      ensures s in ShinglesAt(v, size, starts)
    {
      var i: nat :| i < |v| - size + 1 && Shingle(v, size, i) == s;
      WindowIsKeptOrTouched(v, w, size, i);
    }
    LostAtStarts(v, w, size, starts);
  }

  lemma LostFromLong(v: seq<string>, w: seq<string>, size: nat)
    requires |v| == |w| && size <= |v|
    ensures |Shingles(v, size) - Shingles(w, size)| <= Repeated(size, |Edits(v, w)|)
  {
    var edits, n := Edits(v, w), |v| - size + 1;
    LostWindows(v, w, size, Touching(size, edits, n));
    TouchingSize(size, edits, n);
  }

  lemma LostFromShort(v: seq<string>, w: seq<string>, size: nat)
    requires |v| == |w| && |v| < size
    ensures |Shingles(v, size) - Shingles(w, size)| <= Repeated(size, |Edits(v, w)|)
  {
    var lost := Shingles(v, size) - Shingles(w, size);
    if v == w {
      assert lost == {};
    } else {
      EditsNotEmpty(v, w);
      SubsetSize(lost, {Join(v)});
    }
  }

  /** Changing k words of a text loses at most `size * k` shingles. */
  lemma LostShingles(v: seq<string>, w: seq<string>, size: nat)
    requires |v| == |w|
    ensures |Shingles(v, size) - Shingles(w, size)| <= MaxLost(v, w, size)
  {
    if size <= |v| {
      LostFromLong(v, w, size);
    } else {
      LostFromShort(v, w, size);
    }
    RepeatedIsProduct(size, |Edits(v, w)|);
  }

  lemma EditsNotEmpty(v: seq<string>, w: seq<string>)
    requires |v| == |w| && v != w
    ensures |Edits(v, w)| > 0
  {
    var i :| 0 <= i < |v| && v[i] != w[i];
    assert i in Edits(v, w);
    NotEmpty(Edits(v, w));
  }

  lemma WindowIsKeptOrTouched(v: seq<string>, w: seq<string>, size: nat, i: nat)
    requires |v| == |w| && i + size <= |v|
    ensures Shingle(v, size, i) in Shingles(w, size) || Touches(size, i, Edits(v, w))
  {
    if v[i..i + size] == w[i..i + size] {
      assert Shingle(w, size, i) in Windows(w, size, |w| - size + 1);
    } else {
      var k :| 0 <= k < size && v[i..i + size][k] != w[i..i + size][k];
      assert i + k in Edits(v, w);
      assert Touches(size, i, Edits(v, w));
    }
  }

  /** Two texts of equal length that differ in k words are at least
      (|A| - size k) / (|A| + size k) similar, where A are the shingles of the first. */
  lemma EditRobustness(v: seq<string>, w: seq<string>, size: nat)
    requires |v| == |w|
    ensures AtLeastRatio(Similarity(Shingles(v, size), Shingles(w, size)), |Shingles(v, size)|, MaxLost(v, w, size))
  {
    LostShingles(v, w, size);
    LostShingles(w, v, size);
    assert MaxLost(v, w, size) == MaxLost(w, v, size) by {
      assert Edits(v, w) == Edits(w, v);
    }
    FewLostMeansSimilar(Shingles(v, size), Shingles(w, size), MaxLost(v, w, size));
  }

  lemma FewLostMeansSimilar<T>(a: set<T>, b: set<T>, k: nat)
    requires |a - b| <= k && |b - a| <= k
    ensures AtLeastRatio(Similarity(a, b), |a|, k)
  {
    if a + b == {} {
      assert |a| == 0;
    } else {
      SizesAdd(a, b);
      SizesAdd(b, a);
      assert a * b == b * a && a + b == b + a;
      NotEmpty(a + b);
      ScaledRatio(|a * b|, |a + b|, |a|, k);
    }
  }

  lemma ScaledRatio(i: nat, u: nat, a: nat, k: nat)
    requires 0 < u <= a + k && i + k >= a
    ensures AtLeastRatio(i as real / u as real, a, k)
  {
    var x := i as real / u as real;
    assert x * u as real == i as real;
    assert x >= 0.0;
    var more := a as real + k as real - u as real;
    assert x * more >= 0.0;
    assert x * (a as real + k as real) == x * u as real + x * more;
  }

  /** Changing one word of a text with at least 50 distinct shingles never escapes detection at the
      threshold 0.85. */
  lemma OneWordEditIsFlagged(v: seq<string>, w: seq<string>)
    requires |v| == |w| && |Edits(v, w)| == 1 && |Shingles(v, 4)| >= 50
    ensures Similarity(Shingles(v, 4), Shingles(w, 4)) >= 0.85
  {
    EditRobustness(v, w, 4);
    assert MaxLost(v, w, 4) == 4;
    AboveThreshold(Similarity(Shingles(v, 4), Shingles(w, 4)), |Shingles(v, 4)|);
  }

  lemma AboveThreshold(x: real, a: nat)
    requires a >= 50 && AtLeastRatio(x, a, 4)
    ensures x >= 0.85
  {
    var b := a as real;
    assert (x - 0.85) * (b + 4.0) >= 0.0;
  }

  // ---------------------------------------------------------------- the scan

  const MIN_WORDS := 50
  const SHINGLE_SIZE := 4

  datatype PageText = PageText(url: string, text: string)

  datatype Document = Document(url: string, shingles: set<string>)

  datatype DuplicatePair = DuplicatePair(urlA: string, urlB: string, similarity: real)

  predicate IsLong(p: PageText) {
    CountWords(p.text) >= MIN_WORDS
  }

  function PageShingles(p: PageText): set<string> {
    Shingles(Words(p.text), SHINGLE_SIZE)
  }

  /** The page indices kept by the word-count filter, among the first `n` pages. */
  function LongPages(pages: seq<PageText>, n: nat): (kept: seq<nat>)
    requires n <= |pages|
    ensures forall k | 0 <= k < |kept| :: kept[k] < n
  {
    if n == 0 then []
    else LongPages(pages, n - 1) + if IsLong(pages[n - 1]) then [n - 1] else []
  }

  predicate Increasing(kept: seq<nat>) {
    forall k, l | 0 <= k < l < |kept| :: kept[k] < kept[l]
  }

  lemma {:induction false} LongPagesExact(pages: seq<PageText>, n: nat)
    requires n <= |pages|
    ensures forall i: nat :: i in LongPages(pages, n) <==> i < n && IsLong(pages[i])
    ensures Increasing(LongPages(pages, n))
  {
    if n > 0 {
      LongPagesExact(pages, n - 1);
    }
  }

  predicate AreDuplicates(pages: seq<PageText>, threshold: real, p: nat, q: nat)
    requires p < |pages| && q < |pages|
  {
    Similarity(PageShingles(pages[p]), PageShingles(pages[q])) >= threshold
  }

  predicate InRange(pages: seq<PageText>, kept: seq<nat>) {
    forall k | 0 <= k < |kept| :: kept[k] < |pages|
  }

  /** The positions of two pages. */
  datatype IndexPair = IndexPair(first: nat, second: nat)

  /** The pairs found for row `i` in the columns before `j`. */
  function RowPairs(pages: seq<PageText>, kept: seq<nat>, threshold: real, i: nat, j: nat): seq<IndexPair>
    requires InRange(pages, kept) && i < j <= |kept|
  {
    if j == i + 1 then []
    else RowPairs(pages, kept, threshold, i, j - 1)
         + if AreDuplicates(pages, threshold, kept[i], kept[j - 1]) then [IndexPair(kept[i], kept[j - 1])] else []
  }

  /** The pairs found in the rows before `i`. */
  function PairsBefore(pages: seq<PageText>, kept: seq<nat>, threshold: real, i: nat): seq<IndexPair>
    requires InRange(pages, kept) && i <= |kept|
  {
    if i == 0 then []
    else PairsBefore(pages, kept, threshold, i - 1) + RowPairs(pages, kept, threshold, i - 1, |kept|)
  }

  function DuplicateIndices(pages: seq<PageText>, threshold: real): seq<IndexPair> {
    var kept := LongPages(pages, |pages|);
    PairsBefore(pages, kept, threshold, |kept|)
  }

  /** The k-th pair carries the URLs and the similarity of the pages at the k-th index pair. */
  predicate Reports(pages: seq<PageText>, found: seq<IndexPair>, pairs: seq<DuplicatePair>) {
    && |pairs| == |found|
    && forall k | 0 <= k < |found| ::
         && found[k].first < |pages| && found[k].second < |pages|
         && pairs[k].urlA == pages[found[k].first].url && pairs[k].urlB == pages[found[k].second].url
         && pairs[k].similarity == Similarity(PageShingles(pages[found[k].first]), PageShingles(pages[found[k].second]))
  }

  predicate Collected(pages: seq<PageText>, kept: seq<nat>, documents: seq<Document>)
    requires InRange(pages, kept)
  {
    && |documents| == |kept|
    && forall k | 0 <= k < |kept| ::
         documents[k].url == pages[kept[k]].url && documents[k].shingles == PageShingles(pages[kept[k]])
  }

  /** The filter and map at the head of `detectDuplicateContent`. */
  method CollectDocuments(pageTexts: seq<PageText>) returns (documents: seq<Document>)
    ensures |documents| == |LongPages(pageTexts, |pageTexts|)|
    ensures forall k | 0 <= k < |documents| ::
              var page := pageTexts[LongPages(pageTexts, |pageTexts|)[k]];
              documents[k].url == page.url && documents[k].shingles == Shingles(Words(page.text), 4)
  {
    documents := [];
    var n := 0;
    while n < |pageTexts|
      invariant 0 <= n <= |pageTexts|
      invariant InRange(pageTexts, LongPages(pageTexts, n))
      invariant Collected(pageTexts, LongPages(pageTexts, n), documents)
    {
      if CountWords(pageTexts[n].text) >= MIN_WORDS {
        var shingles := BuildShingles(pageTexts[n].text, SHINGLE_SIZE);
        documents := documents + [Document(pageTexts[n].url, shingles)];
      }
      n := n + 1;
    }
  }

  /** The inner loop: the pairs of document `i` with every later one. */
  method ScanRow(documents: seq<Document>, i: nat, threshold: real, ghost pages: seq<PageText>, ghost kept: seq<nat>)
    returns (pairs: seq<DuplicatePair>)
    requires InRange(pages, kept) && Collected(pages, kept, documents) && i < |kept|
    ensures Reports(pages, RowPairs(pages, kept, threshold, i, |kept|), pairs)
  {
    pairs := [];
    var j := i + 1;
    while j < |documents|
      invariant i < j <= |documents|
      invariant Reports(pages, RowPairs(pages, kept, threshold, i, j), pairs)
    {
      var similarity := Jaccard(documents[i].shingles, documents[j].shingles);
      if similarity >= threshold {
        pairs := pairs + [DuplicatePair(documents[i].url, documents[j].url, similarity)];
      }
      j := j + 1;
    }
  }

  lemma AppendReports(pages: seq<PageText>, found: seq<IndexPair>, pairs: seq<DuplicatePair>,
                      more: seq<IndexPair>, row: seq<DuplicatePair>)
    requires Reports(pages, found, pairs) && Reports(pages, more, row)
    ensures Reports(pages, found + more, pairs + row)
  {
  }

  predicate Before(a: IndexPair, b: IndexPair) {
    a.first < b.first || (a.first == b.first && a.second < b.second)
  }

  predicate InOrder(pairs: seq<IndexPair>) {
    forall k, l | 0 <= k < l < |pairs| :: Before(pairs[k], pairs[l])
  }

  predicate InRow(pages: seq<PageText>, kept: seq<nat>, threshold: real, i: nat, j: nat, c: IndexPair)
    requires InRange(pages, kept) && i < j <= |kept|
  {
    exists l | i < l < j :: c == IndexPair(kept[i], kept[l]) && AreDuplicates(pages, threshold, kept[i], kept[l])
  }

  predicate InRowsBefore(pages: seq<PageText>, kept: seq<nat>, threshold: real, i: nat, c: IndexPair)
    requires InRange(pages, kept) && i <= |kept|
  {
    exists k: nat | k < i :: InRow(pages, kept, threshold, k, |kept|, c)
  }

  lemma {:induction false} RowPairsExact(pages: seq<PageText>, kept: seq<nat>, threshold: real, i: nat, j: nat)
    requires InRange(pages, kept) && Increasing(kept) && i < j <= |kept|
    ensures forall c :: c in RowPairs(pages, kept, threshold, i, j) <==> InRow(pages, kept, threshold, i, j, c)
    ensures InOrder(RowPairs(pages, kept, threshold, i, j))
  {
    if j > i + 1 {
      RowPairsExact(pages, kept, threshold, i, j - 1);
      forall c | c in RowPairs(pages, kept, threshold, i, j - 1)
        ensures c.first == kept[i] && c.second < kept[j - 1]
      {
        assert InRow(pages, kept, threshold, i, j - 1, c);
      }
    }
  }

  lemma {:induction false} PairsBeforeExact(pages: seq<PageText>, kept: seq<nat>, threshold: real, i: nat)
    requires InRange(pages, kept) && Increasing(kept) && i <= |kept|
    ensures forall c :: c in PairsBefore(pages, kept, threshold, i) <==> InRowsBefore(pages, kept, threshold, i, c)
    ensures InOrder(PairsBefore(pages, kept, threshold, i))
  {
    if i > 0 {
      PairsBeforeExact(pages, kept, threshold, i - 1);
      RowPairsExact(pages, kept, threshold, i - 1, |kept|);
      var above, row := PairsBefore(pages, kept, threshold, i - 1), RowPairs(pages, kept, threshold, i - 1, |kept|);
      forall c
        ensures c in above + row <==> InRowsBefore(pages, kept, threshold, i, c)
      {
        if InRowsBefore(pages, kept, threshold, i, c) {
          var k: nat :| k < i && InRow(pages, kept, threshold, k, |kept|, c);
          assert k < i - 1 ==> InRowsBefore(pages, kept, threshold, i - 1, c);
        }
      }
      forall a, b | a in above && b in row
        ensures Before(a, b)
      {
        assert InRowsBefore(pages, kept, threshold, i - 1, a) && InRow(pages, kept, threshold, i - 1, |kept|, b);
      }
    }
  }

  /** The scan reports exactly the pairs p < q of pages with at least 50 words whose similarity reaches
      the threshold. */
  lemma DuplicatesExact(pages: seq<PageText>, threshold: real, p: nat, q: nat)
    ensures IndexPair(p, q) in DuplicateIndices(pages, threshold) <==>
              && p < q < |pages| && |Words(pages[p].text)| >= 50 && |Words(pages[q].text)| >= 50
              && Similarity(Shingles(Words(pages[p].text), 4), Shingles(Words(pages[q].text), 4)) >= threshold
  {
    var kept := LongPages(pages, |pages|);
    LongPagesExact(pages, |pages|);
    PairsBeforeExact(pages, kept, threshold, |kept|);
    if p < q < |pages| && IsLong(pages[p]) && IsLong(pages[q]) && AreDuplicates(pages, threshold, p, q) {
      assert p in kept && q in kept;
      var k :| 0 <= k < |kept| && kept[k] == p;
      var l :| 0 <= l < |kept| && kept[l] == q;
      assert k < l;
      assert InRow(pages, kept, threshold, k, |kept|, IndexPair(p, q));
    }
  }

  /** Each pair is reported once, in lexicographic order. */
  lemma DuplicatesInOrder(pages: seq<PageText>, threshold: real)
    ensures var found := DuplicateIndices(pages, threshold);
            forall k, l | 0 <= k < l < |found| ::
              found[k].first < found[l].first || (found[k].first == found[l].first && found[k].second < found[l].second)
  {
    var kept := LongPages(pages, |pages|);
    LongPagesExact(pages, |pages|);
    PairsBeforeExact(pages, kept, threshold, |kept|);
  }

  /** Pages i < j of at least 50 words whose sets of four-word shingles are similar enough. */
  predicate NearDuplicates(pages: seq<PageText>, threshold: real, i: nat, j: nat) {
    && i < j < |pages|
    && |Words(pages[i].text)| >= 50 && |Words(pages[j].text)| >= 50
    && Similarity(Shingles(Words(pages[i].text), 4), Shingles(Words(pages[j].text), 4)) >= threshold
  }

  /** A pair with these URLs is in the list. */
  predicate Lists(pairs: seq<DuplicatePair>, x: string, y: string) {
    exists k | 0 <= k < |pairs| :: pairs[k].urlA == x && pairs[k].urlB == y
  }

  /** Near-duplicate pages have these URLs, the earlier page the first one. */
  ghost predicate OnNearDuplicates(pages: seq<PageText>, threshold: real, x: string, y: string) {
    exists i: nat, j: nat :: NearDuplicates(pages, threshold, i, j) && pages[i].url == x && pages[j].url == y
  }

  /** What a result says about a pair of URLs, from its index pairs. */
  lemma ReportedIffNearDuplicates(pages: seq<PageText>, threshold: real, pairs: seq<DuplicatePair>, x: string,
                                  y: string)
    requires Reports(pages, DuplicateIndices(pages, threshold), pairs)
    ensures Lists(pairs, x, y) <==> OnNearDuplicates(pages, threshold, x, y)
  {
    var found := DuplicateIndices(pages, threshold);
    forall k | 0 <= k < |pairs| && pairs[k].urlA == x && pairs[k].urlB == y
      ensures OnNearDuplicates(pages, threshold, x, y)
    {
      assert found[k] in found;
      DuplicatesExact(pages, threshold, found[k].first, found[k].second);
      assert NearDuplicates(pages, threshold, found[k].first, found[k].second);
    }
    forall i: nat, j: nat | NearDuplicates(pages, threshold, i, j) && pages[i].url == x && pages[j].url == y
      ensures Lists(pairs, x, y)
    {
      DuplicatesExact(pages, threshold, i, j);
      var k :| 0 <= k < |found| && found[k] == IndexPair(i, j);
    }
  }

  lemma FoundAreNearDuplicates(pages: seq<PageText>, threshold: real)
    ensures forall k | 0 <= k < |DuplicateIndices(pages, threshold)| ::
              var IndexPair(i, j) := DuplicateIndices(pages, threshold)[k]; NearDuplicates(pages, threshold, i, j)
  {
    var found := DuplicateIndices(pages, threshold);
    forall k | 0 <= k < |found|
      ensures NearDuplicates(pages, threshold, found[k].first, found[k].second)
    {
      assert found[k] in found;
      DuplicatesExact(pages, threshold, found[k].first, found[k].second);
    }
  }

  /** The k-th pair has the URLs and the similarity of the pages at the k-th reported index pair, and two URLs are
      reported exactly when near-duplicates carry them. */
  method DetectDuplicateContent(pageTexts: seq<PageText>, threshold: real) returns (pairs: seq<DuplicatePair>)
    ensures |pairs| == |DuplicateIndices(pageTexts, threshold)|
    ensures forall k | 0 <= k < |pairs| ::
              var IndexPair(i, j) := DuplicateIndices(pageTexts, threshold)[k];
              && NearDuplicates(pageTexts, threshold, i, j)
              && pairs[k].urlA == pageTexts[i].url && pairs[k].urlB == pageTexts[j].url
              && pairs[k].similarity
                 == Similarity(Shingles(Words(pageTexts[i].text), 4), Shingles(Words(pageTexts[j].text), 4))
    ensures forall x, y :: Lists(pairs, x, y) <==> OnNearDuplicates(pageTexts, threshold, x, y)
  {
    var documents := CollectDocuments(pageTexts);
    ghost var kept := LongPages(pageTexts, |pageTexts|);
    assert InRange(pageTexts, kept) && Collected(pageTexts, kept, documents);
    pairs := [];
    var i := 0;
    while i < |documents|
      invariant 0 <= i <= |documents|
      invariant Reports(pageTexts, PairsBefore(pageTexts, kept, threshold, i), pairs)
    {
      var row := ScanRow(documents, i, threshold, pageTexts, kept);
      AppendReports(pageTexts, PairsBefore(pageTexts, kept, threshold, i), pairs,
                    RowPairs(pageTexts, kept, threshold, i, |kept|), row);
      pairs := pairs + row;
      i := i + 1;
    }
    FoundAreNearDuplicates(pageTexts, threshold);
    forall x, y
      ensures Lists(pairs, x, y) <==> OnNearDuplicates(pageTexts, threshold, x, y)
    {
      ReportedIffNearDuplicates(pageTexts, threshold, pairs, x, y);
    }
  }

  lemma {:induction false} WindowsSize(words: seq<string>, size: nat, n: nat)
    requires n + size <= |words| + 1
    ensures |Windows(words, size, n)| <= n
  {
    if n == 0 {
      assert Windows(words, size, 0) == {};
    } else {
      WindowsSize(words, size, n - 1);
      NextWindow(words, size, n - 1);
    }
  }

  /** A text with 50 shingles of 4 words has 53 words. */
  lemma ManyShinglesNeedManyWords(words: seq<string>)
    requires |Shingles(words, 4)| >= 50
    ensures |words| >= 53
  {
    if |words| >= 4 {
      WindowsSize(words, 4, |words| - 3);
    }
  }

  /** The scan reports every pair of pages that differ in one word, if the first one has at least 50 distinct
      shingles. */
  lemma OneWordEditIsReported(pages: seq<PageText>, p: nat, q: nat)
    requires p < q < |pages|
    requires var v, w := Words(pages[p].text), Words(pages[q].text);
             |v| == |w| && |Edits(v, w)| == 1 && |Shingles(v, 4)| >= 50
    ensures IndexPair(p, q) in DuplicateIndices(pages, 0.85)
  {
    var v, w := Words(pages[p].text), Words(pages[q].text);
    OneWordEditIsFlagged(v, w);
    ManyShinglesNeedManyWords(v);
    DuplicatesExact(pages, 0.85, p, q);
  }
}
