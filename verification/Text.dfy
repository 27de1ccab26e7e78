/** The string operations the services share: JavaScript white space, `split(/\s+/).filter(Boolean)`,
    `join(' ')` and `trim()`. */
module Text {

  /** `\s` of ECMAScript regular expressions, which `trim()` strips too. */
  predicate IsSpace(c: char) {
    || c == ' ' || '\U{0009}' <= c <= '\U{000D}' || c == '\U{00A0}' || c == '\U{1680}'
    || '\U{2000}' <= c <= '\U{200A}' || c == '\U{2028}' || c == '\U{2029}' || c == '\U{202F}'
    || c == '\U{205F}' || c == '\U{3000}' || c == '\U{FEFF}'
  }

  /** White space is these 25 characters: tab, line feed, vertical tab, form feed, carriage return, space and the ones
      of Unicode. */
  lemma SpacesExact(c: char)
    ensures IsSpace(c) <==>
            || c in "\t\n\U{000B}\U{000C}\r \U{00A0}\U{1680}\U{2000}\U{2001}\U{2002}\U{2003}\U{2004}"
            || c in "\U{2005}\U{2006}\U{2007}\U{2008}\U{2009}\U{200A}\U{2028}\U{2029}\U{202F}\U{205F}\U{3000}\U{FEFF}"
  {
  }

  predicate AllSpace(s: string) {
    forall i | 0 <= i < |s| :: IsSpace(s[i])
  }

  predicate IsWord(w: string) {
    w != "" && forall i | 0 <= i < |w| :: !IsSpace(w[i])
  }

  predicate AllWords(ws: seq<string>) {
    forall i | 0 <= i < |ws| :: IsWord(ws[i])
  }

  /** The words of `text`, where `pending` is the unfinished word to its left. */
  function WordsFrom(pending: string, text: string): (ws: seq<string>)
    requires forall i | 0 <= i < |pending| :: !IsSpace(pending[i])
    ensures AllWords(ws)
    decreases |text|
  {
    if text == "" then
      if pending == "" then [] else [pending]
    else if IsSpace(text[0]) then
      (if pending == "" then [] else [pending]) + WordsFrom("", text[1..])
    else
      WordsFrom(pending + [text[0]], text[1..])
  }

  /** `text.split(/\s+/).filter(Boolean)` */
  function Words(text: string): (ws: seq<string>)
    ensures AllWords(ws)
  {
    WordsFrom("", text)
  }

  /** `ws.join(' ')` */
  function Join(ws: seq<string>): string {
    if ws == [] then "" else if |ws| == 1 then ws[0] else ws[0] + " " + Join(ws[1..])
  }

  lemma {:induction false} ReadWord(pending: string, w: string, rest: string)
    requires forall i | 0 <= i < |pending| :: !IsSpace(pending[i])
    requires forall i | 0 <= i < |w| :: !IsSpace(w[i])
    ensures forall i | 0 <= i < |pending + w| :: !IsSpace((pending + w)[i])
    ensures WordsFrom(pending, w + rest) == WordsFrom(pending + w, rest)
    decreases |w|
  {
    if w == "" {
      assert w + rest == rest && pending + w == pending;
    } else {
      assert (w + rest)[1..] == w[1..] + rest;
      assert (pending + [w[0]]) + w[1..] == pending + w;
      ReadWord(pending + [w[0]], w[1..], rest);
    }
  }

  /** Splitting undoes joining, so `join(' ')` is injective on sequences of words. */
  lemma {:induction false} WordsOfJoin(ws: seq<string>)
    requires AllWords(ws)
    ensures Words(Join(ws)) == ws
  {
    if ws == [] {
    } else if |ws| == 1 {
      ReadWord("", ws[0], "");
      assert ws[0] + "" == ws[0] && "" + ws[0] == ws[0];
    } else {
      var rest := " " + Join(ws[1..]);
      assert Join(ws) == ws[0] + rest;
      ReadWord("", ws[0], rest);
      assert "" + ws[0] == ws[0];
      assert rest[1..] == Join(ws[1..]);
      WordsOfJoin(ws[1..]);
      assert ws == [ws[0]] + ws[1..];
    }
  }

  /** White space before each word and after the last one. */
  function Spread(gaps: seq<string>, ws: seq<string>): string
    requires |gaps| == |ws| + 1
  {
    if ws == [] then gaps[0] else gaps[0] + (ws[0] + Spread(gaps[1..], ws[1..]))
  }

  /** White space everywhere, and some of it between two words. */
  predicate AreGaps(gaps: seq<string>) {
    && (forall i | 0 <= i < |gaps| :: AllSpace(gaps[i]))
    && (forall i | 0 < i < |gaps| - 1 :: gaps[i] != "")
  }

  lemma {:induction false} SkipSpace(gap: string, rest: string)
    requires AllSpace(gap)
    ensures WordsFrom("", gap + rest) == WordsFrom("", rest)
  {
    if gap == "" {
      assert gap + rest == rest;
    } else {
      assert (gap + rest)[1..] == gap[1..] + rest;
      SkipSpace(gap[1..], rest);
    }
  }

  lemma EndWord(w: string, gap: string, rest: string)
    requires IsWord(w) && AllSpace(gap) && (gap != "" || rest == "")
    ensures WordsFrom(w, gap + rest) == [w] + WordsFrom("", rest)
  {
    if gap != "" {
      assert (gap + rest)[1..] == gap[1..] + rest;
      SkipSpace(gap[1..], rest);
    } else {
      assert gap + rest == "";
    }
  }

  /** The words of a text are what stands between its white space, whatever white space that is. */
  lemma {:induction false} WordsOfSpread(gaps: seq<string>, ws: seq<string>)
    requires |gaps| == |ws| + 1 && AreGaps(gaps) && AllWords(ws)
    ensures Words(Spread(gaps, ws)) == ws
  {
    if ws == [] {
      SkipSpace(gaps[0], "");
      assert gaps[0] + "" == gaps[0];
    } else {
      var tail := Spread(gaps[1..], ws[1..]);
      SkipSpace(gaps[0], ws[0] + tail);
      ReadWord("", ws[0], tail);
      assert "" + ws[0] == ws[0];
      WordsOfSpread(gaps[1..], ws[1..]);
      var next := if |ws| == 1 then "" else ws[1] + Spread(gaps[2..], ws[2..]);
      assert tail == gaps[1] + next by {
        assert gaps[1..][0] == gaps[1] && gaps[1..][1..] == gaps[2..] && |ws| > 1 ==> ws[1..][1..] == ws[2..];
      }
      EndWord(ws[0], gaps[1], next);
      SkipSpace(gaps[1], next);
      assert [ws[0]] + ws[1..] == ws;
    }
  }

  function TrimStart(s: string): (r: string) {
    if s != "" && IsSpace(s[0]) then TrimStart(s[1..]) else s
  }

  function TrimEnd(s: string): (r: string) {
    if s != "" && IsSpace(s[|s| - 1]) then TrimEnd(s[..|s| - 1]) else s
  }

  /** `s.trim()` */
  function Trim(s: string): string {
    TrimEnd(TrimStart(s))
  }

  lemma {:induction false} TrimStartExact(s: string)
    ensures var r := TrimStart(s);
            && |r| <= |s| && s[|s| - |r|..] == r && AllSpace(s[..|s| - |r|])
            && (r != "" ==> !IsSpace(r[0]))
  {
    if s != "" && IsSpace(s[0]) {
      TrimStartExact(s[1..]);
      var n := |TrimStart(s)|;
      assert s[..|s| - n] == [s[0]] + s[1..][..|s| - 1 - n];
    }
  }

  lemma {:induction false} TrimEndExact(s: string)
    ensures var r := TrimEnd(s);
            && |r| <= |s| && s[..|r|] == r && AllSpace(s[|r|..])
            && (r != "" ==> !IsSpace(r[|r| - 1]))
  {
    if s != "" && IsSpace(s[|s| - 1]) {
      var m := |s| - 1;
      TrimEndExact(s[..m]);
      var n := |TrimEnd(s)|;
      assert s[n..] == s[..m][n..] + [s[m]];
    }
  }

  /** Trimming takes white space off both ends and leaves none there. */
  lemma TrimExact(s: string)
    ensures exists before, after :: AllSpace(before) && AllSpace(after) && s == before + Trim(s) + after
    ensures Trim(s) != "" ==> !IsSpace(Trim(s)[0]) && !IsSpace(Trim(s)[|Trim(s)| - 1])
  {
    TrimStartExact(s);
    var r := TrimStart(s);
    TrimEndExact(r);
    var before, after := s[..|s| - |r|], r[|Trim(s)|..];
    assert r == Trim(s) + after;
    assert s == before + Trim(s) + after;
  }
}
