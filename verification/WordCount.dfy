/** The OCR worker's word count: a backtracking regular-expression search, shown to be a
    simple run counter, and what that makes of the text of a PDF. */
module WordCounts {

  const FORM_FEED: char := '\U{0C}'

  /** Unicode's idea of a word character; all that matters is what it excludes. */
  ghost predicate Proper(word: char -> bool) { !word('\'') && !word('-') && !word('\n') && !word(FORM_FEED) }

  predicate InClass(word: char -> bool, c: char) { word(c) || c == '\'' || c == '-' }

  predicate WordAt(word: char -> bool, t: string, p: int) { 0 <= p < |t| && word(t[p]) }

  predicate ClassAt(word: char -> bool, t: string, p: int) { 0 <= p < |t| && InClass(word, t[p]) }

  // ---- the search: leftmost, greedy, backtracking, non-overlapping ----

  /** The anchor of the pattern: exactly one of the two neighbours is a word character. */
  predicate Boundary(word: char -> bool, t: string, p: int) { WordAt(word, t, p - 1) != WordAt(word, t, p) }

  /** How far a repeated class can go from p. */
  function RunEnd(word: char -> bool, t: string, p: nat): (e: nat)
    requires p <= |t|
    ensures p <= e <= |t| && !ClassAt(word, t, e)
    ensures forall k :: p <= k < e ==> ClassAt(word, t, k)
    decreases |t| - p
  {
    if p < |t| && InClass(word, t[p]) then RunEnd(word, t, p + 1) else p
  }

  /** Giving characters back from q on until the closing anchor holds; p if none is left. */
  function Backtrack(word: char -> bool, t: string, p: nat, q: nat): (r: nat)
    requires p <= q
    ensures p <= r <= q && (r > p ==> Boundary(word, t, r))
    ensures forall k :: r < k <= q ==> !Boundary(word, t, k)
    decreases q - p
  {
    if q == p || Boundary(word, t, q) then q else Backtrack(word, t, p, q - 1)
  }

  /** End of the match at p; p itself if there is none. */
  function MatchEnd(word: char -> bool, t: string, p: nat): (r: nat)
    requires p < |t|
    ensures p <= r <= |t|
  {
    if Boundary(word, t, p) then Backtrack(word, t, p, RunEnd(word, t, p)) else p
  }

  function FindAll(word: char -> bool, t: string, p: nat): seq<(nat, nat)>
    requires p <= |t|
    decreases |t| - p
  {
    if p == |t| then []
    else
      var r := MatchEnd(word, t, p);
      if r > p then [(p, r)] + FindAll(word, t, r) else FindAll(word, t, p + 1)
  }

  /** Word count and character count. */
  function Summarize(word: char -> bool, t: string): (int, int) { (|FindAll(word, t, 0)|, |t|) }

  // ---- the simple counter ----

  /** One pass: a run of class characters counts at its first word character. */
  function Words(word: char -> bool, t: string, counted: bool): nat {
    if t == [] then 0
    else if !InClass(word, t[0]) then Words(word, t[1..], false)
    else if word(t[0]) && !counted then 1 + Words(word, t[1..], true)
    else Words(word, t[1..], counted)
  }

  ghost predicate MaximalRun(word: char -> bool, t: string, a: nat, b: nat) {
    a < b <= |t| && !ClassAt(word, t, a - 1) && !ClassAt(word, t, b) && forall k :: a <= k < b ==> ClassAt(word, t, k)
  }

  predicate HasWord(word: char -> bool, t: string, a: nat, b: nat) {
    exists k :: a <= k < b && WordAt(word, t, k)
  }

  /** The maximal runs of class characters, from p on, that hold a word character. */
  ghost function WordRuns(word: char -> bool, t: string, p: nat): set<(nat, nat)> {
    set a: nat, b: nat | p <= a < |t| && b <= |t| && MaximalRun(word, t, a, b) && HasWord(word, t, a, b) :: (a, b)
  }

  // ---- the search finds one match per run ----

  lemma {:induction false} NoMatches(word: char -> bool, t: string, p: nat, q: nat)
    requires p <= q <= |t| && forall k :: p <= k < q ==> MatchEnd(word, t, k) == k
    ensures FindAll(word, t, p) == FindAll(word, t, q)
    decreases q - p
  {
    if p < q {
      NoMatches(word, t, p + 1, q);
    }
  }

  /** In a run without a word character there is no boundary at all. */
  lemma NothingHere(word: char -> bool, t: string, a: nat, b: nat)
    requires a <= b <= |t| && !WordAt(word, t, a - 1) && !WordAt(word, t, b) && !HasWord(word, t, a, b)
    ensures forall k :: a <= k < b ==> MatchEnd(word, t, k) == k
  {
  }

  /** Past the last word character of a run no match can close. */
  lemma NothingAfter(word: char -> bool, t: string, a: nat, b: nat)
    requires a <= b <= |t| && !ClassAt(word, t, b) && !HasWord(word, t, a, b)
    requires forall k :: a <= k < b ==> ClassAt(word, t, k)
    ensures forall k :: a <= k < b ==> MatchEnd(word, t, k) == k
  {
    forall k | a <= k < b ensures MatchEnd(word, t, k) == k {
      var e := RunEnd(word, t, k);
      var r := Backtrack(word, t, k, e);
      assert r > k ==> !WordAt(word, t, r - 1) && !WordAt(word, t, r);
    }
  }

  lemma FirstWord(word: char -> bool, t: string, a: nat, b: nat) returns (f: nat)
    requires HasWord(word, t, a, b)
    ensures a <= f < b && WordAt(word, t, f) && !HasWord(word, t, a, f)
  {
    f := a;
    while !WordAt(word, t, f)
      invariant a <= f < b && !HasWord(word, t, a, f) && HasWord(word, t, f, b)
      decreases b - f
    {
      f := f + 1;
    }
  }

  lemma LastWord(word: char -> bool, t: string, a: nat, b: nat) returns (l: nat)
    requires HasWord(word, t, a, b)
    ensures a <= l < b && WordAt(word, t, l) && !HasWord(word, t, l + 1, b)
  {
    l := b - 1;
    while !WordAt(word, t, l)
      invariant a <= l < b && !HasWord(word, t, l + 1, b) && HasWord(word, t, a, l + 1)
      decreases l - a
    {
      l := l - 1;
    }
  }

  /** In a run that holds word characters the search matches once, from the first of them
      to the last. */
  lemma OneMatch(word: char -> bool, t: string, a: nat, b: nat)
    requires MaximalRun(word, t, a, b) && HasWord(word, t, a, b)
    ensures |FindAll(word, t, a)| == 1 + |FindAll(word, t, b)|
  {
    var f := FirstWord(word, t, a, b);
    var l := LastWord(word, t, a, b);
    assert f <= l;
    NoMatches(word, t, a, f) by {
      forall k | a <= k < f ensures MatchEnd(word, t, k) == k {
        assert !Boundary(word, t, k);
      }
    }
    assert RunEnd(word, t, f) == b;
    var r := Backtrack(word, t, f, b);
    assert Boundary(word, t, l + 1);
    assert forall k :: l + 1 < k <= b ==> !Boundary(word, t, k);
    assert r == l + 1;
    NothingAfter(word, t, l + 1, b);
    NoMatches(word, t, l + 1, b);
  }

  /** The runs from p on are the one starting at p, if it counts, and those after it. */
  lemma SkipRun(word: char -> bool, t: string, p: nat, e: nat)
    requires MaximalRun(word, t, p, e)
    ensures (p, e) !in WordRuns(word, t, e)
    ensures WordRuns(word, t, p) == WordRuns(word, t, e) + if HasWord(word, t, p, e) then {(p, e)} else {}
  {
    forall a: nat, b: nat | (a, b) in WordRuns(word, t, p) && (a, b) !in WordRuns(word, t, e) ensures (a, b) == (p, e) {
      assert a < e;
      assert p < a ==> ClassAt(word, t, a - 1);
      assert b < e ==> ClassAt(word, t, b);
      assert e < b ==> ClassAt(word, t, e);
    }
  }

  /** The search finds exactly one match in every maximal run of class characters that
      holds a word character, and none elsewhere. */
  lemma {:induction false} OneMatchPerRun(word: char -> bool, t: string, p: nat)
    requires p <= |t| && !(ClassAt(word, t, p - 1) && ClassAt(word, t, p))
    ensures |FindAll(word, t, p)| == |WordRuns(word, t, p)|
    decreases |t| - p
  {
    if p == |t| {
      assert WordRuns(word, t, p) == {};
    } else if !ClassAt(word, t, p) {
      OneMatchPerRun(word, t, p + 1);
      assert WordRuns(word, t, p) == WordRuns(word, t, p + 1);
      assert MatchEnd(word, t, p) == p;
    } else {
      var e := RunEnd(word, t, p);
      SkipRun(word, t, p, e);
      OneMatchPerRun(word, t, e);
      if HasWord(word, t, p, e) {
        OneMatch(word, t, p, e);
      } else {
        NothingHere(word, t, p, e);
        NoMatches(word, t, p, e);
      }
    }
  }

  // ---- the simple counter counts the same ----

  lemma {:induction false} WordsOverRun(word: char -> bool, t: string, p: nat, e: nat, counted: bool)
    requires p <= e <= |t| && !ClassAt(word, t, e) && forall k :: p <= k < e ==> ClassAt(word, t, k)
    ensures Words(word, t[p..], counted) ==
      Words(word, t[e..], false) + if !counted && HasWord(word, t, p, e) then 1 else 0
    decreases e - p
  {
    if p == e {
      WordsAfterRun(word, t, e, counted);
    } else {
      assert ClassAt(word, t, p) && t[p..][0] == t[p] && t[p..][1..] == t[p + 1..];
      WordsOverRun(word, t, p + 1, e, counted || word(t[p]));
      assert HasWord(word, t, p, e) <==> word(t[p]) || HasWord(word, t, p + 1, e) by {
        if word(t[p]) {
          assert WordAt(word, t, p);
        }
      }
    }
  }

  lemma WordsAfterRun(word: char -> bool, t: string, e: nat, counted: bool)
    requires e <= |t| && !ClassAt(word, t, e)
    ensures Words(word, t[e..], counted) == Words(word, t[e..], false)
  {
    if e < |t| {
      assert t[e..][0] == t[e];
    }
  }

  lemma {:induction false} SearchIsOnePass(word: char -> bool, t: string, p: nat)
    requires p <= |t| && !(ClassAt(word, t, p - 1) && ClassAt(word, t, p))
    ensures |FindAll(word, t, p)| == Words(word, t[p..], false)
    decreases |t| - p
  {
    if p < |t| {
      if !ClassAt(word, t, p) {
        SearchIsOnePass(word, t, p + 1);
        assert MatchEnd(word, t, p) == p;
        assert t[p..][1..] == t[p + 1..] && t[p..][0] == t[p];
      } else {
        var e := RunEnd(word, t, p);
        SearchIsOnePass(word, t, e);
        WordsOverRun(word, t, p, e, false);
        if HasWord(word, t, p, e) {
          OneMatch(word, t, p, e);
        } else {
          NothingHere(word, t, p, e);
          NoMatches(word, t, p, e);
        }
      }
    }
  }

  /** The worker's word count is the number of maximal runs of class characters that hold
      a word character; a single pass computes it. */
  lemma WordCountIsRunCount(word: char -> bool, t: string)
    ensures Summarize(word, t).0 == |WordRuns(word, t, 0)| == Words(word, t, false)
  {
    OneMatchPerRun(word, t, 0);
    SearchIsOnePass(word, t, 0);
    assert t[0..] == t;
  }

  // ---- what joins and what separates words ----

  lemma {:induction false} OneRun(word: char -> bool, t: string, counted: bool)
    requires forall i :: 0 <= i < |t| ==> word(t[i]) || t[i] == '\'' || t[i] == '-'
    ensures Words(word, t, counted) == if !counted && exists i :: 0 <= i < |t| && word(t[i]) then 1 else 0
  {
    if t != [] {
      OneRun(word, t[1..], counted || word(t[0]));
      assert forall i :: 0 <= i < |t[1..]| ==> t[1..][i] == t[i + 1];
      assert (exists i :: 0 <= i < |t| && word(t[i])) ==>
        word(t[0]) || exists i :: 0 <= i < |t[1..]| && word(t[1..][i]) by {
        if exists i :: 0 <= i < |t| && word(t[i]) {
          var i :| 0 <= i < |t| && word(t[i]);
          assert i > 0 ==> word(t[1..][i - 1]);
        }
      }
    }
  }

  /** Two pieces made of word characters count as one word if an apostrophe or a hyphen is
      between them, and as two if any other character is that is no word character itself. */
  lemma HyphenJoins(word: char -> bool, a: string, c: char, b: string)
    requires a != "" && b != "" && !word(c)
    requires (forall i :: 0 <= i < |a| ==> word(a[i])) && (forall i :: 0 <= i < |b| ==> word(b[i]))
    ensures Summarize(word, a + [c] + b).0 == if c == '\'' || c == '-' then 1 else 2
  {
    WordCountIsRunCount(word, a + [c] + b);
    if c == '\'' || c == '-' {
      assert (a + [c] + b)[0] == a[0];
      OneRun(word, a + [c] + b, false);
    } else {
      WordsSplitAt(word, a, c, b, false);
      assert word(a[0]) && word(b[0]);
      OneRun(word, a, false);
      OneRun(word, b, false);
    }
  }

  /** And without a word character there is no word, whatever else there is. */
  lemma NoWordNoCount(word: char -> bool, t: string)
    requires forall i :: 0 <= i < |t| ==> !word(t[i])
    ensures Summarize(word, t).0 == 0
  {
    assert WordRuns(word, t, 0) == {};
    WordCountIsRunCount(word, t);
  }

  // ---- the text of a PDF ----

  const BREAK: string := ['\n', FORM_FEED, '\n']

  function Join(pages: seq<string>): string {
    if pages == [] then ""
    else if |pages| == 1 then pages[0]
    else Join(pages[..|pages| - 1]) + BREAK + pages[|pages| - 1]
  }

  /** Pages are put one after the other with a line break, a form feed and a line break
      between any two. */
  lemma PagesJoin(pages: seq<string>, page: string)
    ensures Join([]) == "" && Join([page]) == page
    ensures pages != [] ==> Join(pages + [page]) == Join(pages) + ['\n', '\U{0C}', '\n'] + page
  {
    assert (pages + [page])[..|pages|] == pages;
  }

  lemma {:induction false} WordsSplitAt(word: char -> bool, a: string, x: char, b: string, counted: bool)
    requires !InClass(word, x)
    ensures Words(word, a + [x] + b, counted) == Words(word, a, counted) + Words(word, b, false)
  {
    if a == [] {
      assert a + [x] + b == [x] + b;
      assert ([x] + b)[1..] == b;
    } else {
      assert (a + [x] + b)[1..] == a[1..] + [x] + b;
      WordsSplitAt(word, a[1..], x, b, if !InClass(word, a[0]) then false else counted || word(a[0]));
    }
  }

  lemma PageBreak(word: char -> bool, a: string, b: string)
    requires Proper(word)
    ensures Words(word, a + BREAK + b, false) == Words(word, a, false) + Words(word, b, false)
  {
    var rest := [FORM_FEED, '\n'] + b;
    assert a + BREAK + b == a + ['\n'] + rest;
    WordsSplitAt(word, a, '\n', rest, false);
    assert rest == [] + [FORM_FEED] + (['\n'] + b);
    WordsSplitAt(word, [], FORM_FEED, ['\n'] + b, false);
    assert ['\n'] + b == [] + ['\n'] + b;
    WordsSplitAt(word, [], '\n', b, false);
  }

  function Total(counts: seq<int>): int {
    if counts == [] then 0 else Total(counts[..|counts| - 1]) + counts[|counts| - 1]
  }

  function PageWords(word: char -> bool, pages: seq<string>): seq<int> {
    seq(|pages|, i requires 0 <= i < |pages| => Summarize(word, pages[i]).0)
  }

  function PageChars(word: char -> bool, pages: seq<string>): seq<int> {
    seq(|pages|, i requires 0 <= i < |pages| => Summarize(word, pages[i]).1)
  }

  /** A PDF's word count is the sum of its pages' counts, and its character count the sum
      plus three per page gap. */
  lemma {:induction false} PdfCountsAddUp(word: char -> bool, pages: seq<string>)
    requires Proper(word)
    ensures Summarize(word, Join(pages)).0 == Total(PageWords(word, pages))
    ensures Summarize(word, Join(pages)).1 ==
      Total(PageChars(word, pages)) + if pages == [] then 0 else 3 * (|pages| - 1)
  {
    WordCountIsRunCount(word, Join(pages));
    if pages != [] {
      var n := |pages| - 1;
      var init := pages[..n];
      PdfCountsAddUp(word, init);
      assert PageWords(word, pages)[..n] == PageWords(word, init);
      assert PageChars(word, pages)[..n] == PageChars(word, init);
      WordCountIsRunCount(word, Join(init));
      WordCountIsRunCount(word, pages[n]);
      if n == 0 {
        assert init == [];
      } else {
        PageBreak(word, Join(init), pages[n]);
      }
    }
  }

  /** The loop over the rendered pages; recognise stands for the OCR of one page. */
  method ExtractPdf<Page>(word: char -> bool, recognise: Page -> string, pages: seq<Page>)
    returns (text: string, wordCount: int, charCount: int)
    requires Proper(word)
    ensures var texts := seq(|pages|, i requires 0 <= i < |pages| => recognise(pages[i]));
      && text == Join(texts)
      && wordCount == Total(PageWords(word, texts))
      && charCount == |text|
  {
    var texts: seq<string> := [];
    for i := 0 to |pages|
      invariant texts == seq(i, k requires 0 <= k < i => recognise(pages[k]))
    {
      texts := texts + [recognise(pages[i])];
    }
    text := Join(texts);
    var counts := Summarize(word, text);
    wordCount, charCount := counts.0, counts.1;
    PdfCountsAddUp(word, texts);
  }
}
