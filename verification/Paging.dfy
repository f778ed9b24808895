/** Reading a long text page by page, in UTF-16 code units. */
module Paging {
  import opened Basics
  import opened CanonicalJson

  datatype Note = PastEnd(offset: nat, total: nat) | Continue(start: nat, end: nat, remaining: nat)

  datatype Page = Page(text: Text, truncated: bool, total: nat, nextOffset: Option<nat>, note: Option<Note>)

  /** Position `i` lies between the two halves of a pair. */
  predicate SplitsPair(text: Text, i: int) {
    0 < i < |text| && High(text[i - 1]) && Low(text[i])
  }

  /** Where the page for an offset inside the text starts, and where it ends. */
  function Start(text: Text, offset: nat): (s: nat)
    requires offset < |text|
    ensures s < |text| && offset - 1 <= s <= offset && !SplitsPair(text, s)
  {
    if SplitsPair(text, offset) then offset - 1 else offset
  }

  function End(text: Text, limit: nat, start: nat): (e: nat)
    requires start < |text| && limit > 0
    ensures start < e <= |text|
  {
    var e := Min(start + limit, |text|);
    if e < |text| && High(text[e - 1]) then (if e - 1 > start then e - 1 else Min(e + 1, |text|)) else e
  }

  /** What a reader is owed: the page from `start` to `end`, and how to go on when text remains. */
  predicate Shows(p: Page, text: Text, start: nat, end: nat)
    requires start <= end <= |text|
  {
    && p.text == text[start..end] && p.total == |text|
    && p.truncated == (end < |text|)
    && (if end < |text| then p.nextOffset == Some(end) && p.note == Some(Continue(start, end, |text| - end))
        else p.nextOffset == None && p.note == None)
  }

  /** boundText; None where the source throws a RangeError. */
  method BoundText(text: Text, limit: int, offset: int) returns (r: Option<Page>)
    ensures r == None <==> limit <= 0 || offset < 0
    ensures limit > 0 && offset >= |text| ==>
              r == Some(Page([], false, |text|, None, if offset > |text| then Some(PastEnd(offset, |text|)) else None))
    ensures limit > 0 && 0 <= offset < |text| ==>
              var s := Start(text, offset); Shows(r.value, text, s, End(text, limit, s))
  {
    if limit <= 0 { return None; }
    if offset < 0 { return None; }
    var total := |text|;
    if offset >= total {
      return Some(Page([], false, total, None, if offset > total then Some(PastEnd(offset, total)) else None));
    }
    var start: nat := offset;
    if start > 0 && Low(text[start]) && High(text[start - 1]) { start := start - 1; }
    var end: nat := if start + limit < total then start + limit else total;
    if end < total && High(text[end - 1]) {
      end := if end - 1 > start then end - 1 else if end + 1 < total then end + 1 else total;
    }
    var page := text[start..end];
    if end >= total { return Some(Page(page, false, total, None, None)); }
    r := Some(Page(page, true, total, Some(end), Some(Continue(start, end, total - end))));
  }

  /** From any offset and with any limit the next offset is later than the one given, so reading on
      always ends. */
  lemma NextIsLater(text: Text, limit: nat, offset: nat)
    requires offset < |text| && limit > 0
    ensures End(text, limit, Start(text, offset)) > offset
  {
  }

  /** All the pages from `offset` on, put together. */
  function ReadOn(text: Text, limit: nat, offset: nat): Text
    requires limit > 0
    decreases |text| - offset
  {
    if offset >= |text| then [] else
      var s := Start(text, offset);
      var e := End(text, limit, s);
      NextIsLater(text, limit, offset);
      text[s..e] + (if e < |text| then ReadOn(text, limit, e) else [])
  }

  /** How often reading on from `offset` steps back into text it has already shown. */
  function StepsBack(text: Text, limit: nat, offset: nat): nat
    requires limit > 0
    decreases |text| - offset
  {
    if offset >= |text| then 0 else
      var s := Start(text, offset);
      var e := End(text, limit, s);
      NextIsLater(text, limit, offset);
      (offset - s) + (if e < |text| then StepsBack(text, limit, e) else 0)
  }

  lemma {:induction false} LengthReadOn(text: Text, limit: nat, offset: nat)
    requires limit > 0 && offset <= |text|
    ensures |ReadOn(text, limit, offset)| == |text| - offset + StepsBack(text, limit, offset)
    decreases |text| - offset
  {
    if offset < |text| {
      var s := Start(text, offset);
      var e := End(text, limit, s);
      NextIsLater(text, limit, offset);
      if e < |text| { LengthReadOn(text, limit, e); }
    }
  }

  lemma {:induction false} ReadsAll(text: Text, limit: nat, offset: nat)
    requires limit > 0 && offset <= |text| && StepsBack(text, limit, offset) == 0
    ensures ReadOn(text, limit, offset) == text[offset..]
    decreases |text| - offset
  {
    if offset < |text| {
      var e := End(text, limit, offset);
      NextIsLater(text, limit, offset);
      assert Start(text, offset) == offset;
      if e < |text| {
        ReadsAll(text, limit, e);
        assert text[offset..] == text[offset..e] + text[e..];
      } else {
        assert text[offset..e] + [] == text[offset..];
      }
    }
  }

  /** The pages are exactly the text exactly when no page steps back. */
  lemma LosslessExactly(text: Text, limit: nat)
    requires limit > 0
    ensures ReadOn(text, limit, 0) == text <==> StepsBack(text, limit, 0) == 0
  {
    LengthReadOn(text, limit, 0);
    if StepsBack(text, limit, 0) == 0 {
      ReadsAll(text, limit, 0);
      assert text[0..] == text;
    }
  }

  /** No page read from `offset` on starts or ends inside a pair. */
  predicate CutsWhole(text: Text, limit: nat, offset: nat)
    requires limit > 0
    decreases |text| - offset
  {
    offset >= |text| || (
      var s := Start(text, offset);
      var e := End(text, limit, s);
      NextIsLater(text, limit, offset);
      !SplitsPair(text, s) && !SplitsPair(text, e) && (e < |text| ==> CutsWhole(text, limit, e)))
  }

  /** Stepping back and splitting a pair are the same failure. */
  lemma {:induction false} CutsWholeExactly(text: Text, limit: nat, offset: nat)
    requires limit > 0 && !SplitsPair(text, offset)
    ensures CutsWhole(text, limit, offset) <==> StepsBack(text, limit, offset) == 0
    decreases |text| - offset
  {
    if offset < |text| {
      var e := End(text, limit, offset);
      NextIsLater(text, limit, offset);
      if e < |text| && !SplitsPair(text, e) { CutsWholeExactly(text, limit, e); }
      assert SplitsPair(text, e) ==> Start(text, e) == e - 1;
    }
  }

  // ---- Limits of two and more -------------------------------------------------------------

  /** With a limit of two or more a page, from any offset, neither starts nor ends inside a pair. */
  lemma PageIsWhole(text: Text, limit: nat, offset: nat)
    requires offset < |text| && limit >= 2
    ensures var s := Start(text, offset); !SplitsPair(text, s) && !SplitsPair(text, End(text, limit, s))
  {
  }

  /** Such a page is as long as it may be: it runs to the end of the text or to the limit, or stops one
      short of it where the limit would cut a pair or follow a lone high surrogate. */
  lemma PageIsFull(text: Text, limit: nat, offset: nat)
    requires offset < |text| && limit >= 2
    ensures var s := Start(text, offset);
            var e := End(text, limit, s);
            && e - s <= limit
            && (s + limit >= |text| ==> e == |text|)
            && (s + limit < |text| ==> e == if High(text[s + limit - 1]) then s + limit - 1 else s + limit)
    ensures Start(text, offset) == if 0 < offset && Low(text[offset]) && High(text[offset - 1]) then offset - 1 else offset
  {
  }

  lemma {:induction false} WideNeverStepsBack(text: Text, limit: nat, offset: nat)
    requires limit >= 2 && !SplitsPair(text, offset)
    ensures StepsBack(text, limit, offset) == 0
    decreases |text| - offset
  {
    if offset < |text| {
      var e := End(text, limit, offset);
      NextIsLater(text, limit, offset);
      PageIsWhole(text, limit, offset);
      if e < |text| { WideNeverStepsBack(text, limit, e); }
    }
  }

  /** With a limit of two or more the pages of every text, well formed or not, are that text, and
      none of them splits a pair. */
  lemma LosslessFromTwo(text: Text, limit: nat)
    requires limit >= 2
    ensures ReadOn(text, limit, 0) == text && CutsWhole(text, limit, 0)
  {
    CutsWholeExactly(text, limit, 0);
    WideNeverStepsBack(text, limit, 0);
    LosslessExactly(text, limit);
  }

  // ---- A limit of one ---------------------------------------------------------------------

  /** The number of high surrogates right before position `i`. */
  function HighRun(text: Text, i: nat): nat
    requires i <= |text|
  {
    if i == 0 || !High(text[i - 1]) then 0 else 1 + HighRun(text, i - 1)
  }

  /** A low surrogate that follows high ones follows an odd number of them. */
  predicate OddRuns(text: Text) {
    forall i :: 0 <= i < |text| && SplitsPair(text, i) ==> HighRun(text, i) % 2 == 1
  }

  /** Section 3.9 of the Unicode Standard: surrogates come in pairs, high then low. */
  predicate WellFormedUtf16(text: Text) {
    && (forall i :: 0 <= i < |text| && High(text[i]) ==> i + 1 < |text| && Low(text[i + 1]))
    && (forall i :: 0 <= i < |text| && Low(text[i]) ==> SplitsPair(text, i))
  }

  lemma WellFormedHasOddRuns(text: Text)
    requires WellFormedUtf16(text)
    ensures OddRuns(text)
  {
    forall i | 0 <= i < |text| && SplitsPair(text, i) ensures HighRun(text, i) % 2 == 1 {
      assert i > 1 ==> !High(text[i - 2]);
      assert HighRun(text, i - 1) == 0;
    }
  }

  /** A page of one that starts after an even number of high surrogates ends after an even number. */
  lemma NarrowPage(text: Text, offset: nat)
    requires offset < |text| && !SplitsPair(text, offset) && HighRun(text, offset) % 2 == 0
    ensures var e := End(text, 1, Start(text, offset));
            && offset < e <= offset + 2
            && (e < |text| ==> HighRun(text, e) % 2 == 0)
            && (e == offset + 2 ==> High(text[offset]) && HighRun(text, offset + 1) % 2 == 1)
  {
    assert HighRun(text, offset + 1) == if High(text[offset]) then 1 + HighRun(text, offset) else 0;
    if offset + 2 <= |text| {
      assert HighRun(text, offset + 2) == if High(text[offset + 1]) then 1 + HighRun(text, offset + 1) else 0;
    }
  }

  lemma {:induction false} OddRunsNeverStepBack(text: Text, offset: nat)
    requires OddRuns(text) && offset <= |text| && !SplitsPair(text, offset) && HighRun(text, offset) % 2 == 0
    ensures StepsBack(text, 1, offset) == 0
    decreases |text| - offset
  {
    if offset < |text| {
      NarrowPage(text, offset);
      var e := End(text, 1, Start(text, offset));
      if e < |text| { OddRunsNeverStepBack(text, e); }
    }
  }

  /** Reading on reaches a low surrogate after an even run, and steps back there. */
  lemma {:induction false} EvenRunStepsBack(text: Text, offset: nat, i: nat)
    requires offset <= i < |text| && HighRun(text, offset) % 2 == 0
    requires SplitsPair(text, i) && HighRun(text, i) % 2 == 0
    ensures StepsBack(text, 1, offset) > 0
    decreases |text| - offset
  {
    if offset < i && !SplitsPair(text, offset) {
      NarrowPage(text, offset);
      EvenRunStepsBack(text, End(text, 1, Start(text, offset)), i);
    }
  }

  /** With a limit of one the pages are the text exactly when every run of high surrogates before a
      low one is odd, as it is in every well-formed text; then too, and only then, no pair is split. */
  lemma LosslessAtOne(text: Text)
    ensures ReadOn(text, 1, 0) == text <==> OddRuns(text)
    ensures CutsWhole(text, 1, 0) <==> OddRuns(text)
    ensures WellFormedUtf16(text) ==> OddRuns(text)
  {
    CutsWholeExactly(text, 1, 0);
    if WellFormedUtf16(text) { WellFormedHasOddRuns(text); }
    LosslessExactly(text, 1);
    StepsBackExactly(text);
  }

  lemma StepsBackExactly(text: Text)
    ensures StepsBack(text, 1, 0) == 0 <==> OddRuns(text)
  {
    if OddRuns(text) {
      OddRunsNeverStepBack(text, 0);
    } else {
      var i :| 0 <= i < |text| && SplitsPair(text, i) && HighRun(text, i) % 2 != 1;
      EvenRunStepsBack(text, 0, i);
    }
  }

  /** A page of one is one unit, or two where the first is a high surrogate and is not the last. */
  lemma NarrowPageIsFull(text: Text, offset: nat)
    requires offset < |text|
    ensures var s := Start(text, offset);
            End(text, 1, s) == if High(text[s]) && s + 1 < |text| then s + 2 else s + 1
  {
  }

  /** It does fail: two high surrogates and a low one read back as four units. */
  lemma TwoHighsRepeat()
    ensures |ReadOn([0xD800, 0xD801, 0xDC00], 1, 0)| == 4
  {
    var text: Text := [0xD800, 0xD801, 0xDC00];
    assert SplitsPair(text, 2) && !SplitsPair(text, 0);
    assert Start(text, 0) == 0 && End(text, 1, 0) == 2;
    assert Start(text, 2) == 1 && End(text, 1, 1) == 3;
    LengthReadOn(text, 1, 0);
  }
}
