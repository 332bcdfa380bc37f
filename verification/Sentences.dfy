/** How write_srt cuts a paragraph into sentences: after a full stop, an exclamation or a question mark
    that white space follows. What counts as white space is a parameter. */
module Sentences {

  predicate IsMark(c: char) { c == '.' || c == '!' || c == '?' }

  /** Length of the white space s starts with. */
  function Blank(space: char -> bool, s: string): (n: nat)
    ensures n <= |s| && (forall i :: 0 <= i < n ==> space(s[i])) && (n < |s| ==> !space(s[n]))
  {
    if s == [] || !space(s[0]) then 0 else 1 + Blank(space, s[1..])
  }

  function LStrip(space: char -> bool, s: string): string { s[Blank(space, s)..] }

  function RStrip(space: char -> bool, s: string): string {
    if s != [] && space(s[|s| - 1]) then RStrip(space, s[..|s| - 1]) else s
  }

  /** str.strip. */
  function Strip(space: char -> bool, s: string): string { RStrip(space, LStrip(space, s)) }

  /** Where the first sentence ends: at the first white space after a mark, or at the end. */
  function FirstEnd(space: char -> bool, s: string): (n: nat)
    ensures n <= |s| && (s != [] ==> n > 0)
    ensures n < |s| ==> IsMark(s[n - 1]) && space(s[n])
  {
    if |s| <= 1 then |s|
    else if IsMark(s[0]) && space(s[1]) then 1
    else 1 + FirstEnd(space, s[1..])
  }

  /** re.split: the pieces between marks, the white space after each mark dropped. */
  function Pieces(space: char -> bool, s: string): (p: seq<string>)
    ensures p != []
    decreases |s|
  {
    var n := FirstEnd(space, s);
    if n == |s| then [s] else [s[..n]] + Pieces(space, LStrip(space, s[n..]))
  }

  function KeepNonEmpty(space: char -> bool, pieces: seq<string>): seq<string> {
    if pieces == [] then []
    else
      var item := Strip(space, pieces[0]);
      (if item == "" then [] else [item]) + KeepNonEmpty(space, pieces[1..])
  }

  function SentencesOf(space: char -> bool, paragraph: string): seq<string> {
    KeepNonEmpty(space, Pieces(space, paragraph))
  }

  // ---- nothing is lost

  /** The characters that are not white space. */
  function Letters(space: char -> bool, s: string): string {
    if s == [] then [] else (if space(s[0]) then [] else [s[0]]) + Letters(space, s[1..])
  }

  function Concat(parts: seq<string>): string {
    if parts == [] then [] else parts[0] + Concat(parts[1..])
  }

  lemma {:induction false} LettersConcat(space: char -> bool, a: string, b: string)
    ensures Letters(space, a + b) == Letters(space, a) + Letters(space, b)
  {
    if a == [] {
      assert a + b == b;
    } else {
      assert (a + b)[1..] == a[1..] + b;
      LettersConcat(space, a[1..], b);
    }
  }

  lemma {:induction false} ConcatConcat(a: seq<string>, b: seq<string>)
    ensures Concat(a + b) == Concat(a) + Concat(b)
  {
    if a == [] {
      assert a + b == b;
    } else {
      assert (a + b)[1..] == a[1..] + b;
      ConcatConcat(a[1..], b);
    }
  }

  lemma {:induction false} BlankHasNoLetters(space: char -> bool, s: string)
    requires forall i :: 0 <= i < |s| ==> space(s[i])
    ensures Letters(space, s) == []
  {
    if s != [] { BlankHasNoLetters(space, s[1..]); }
  }

  lemma LStripLetters(space: char -> bool, s: string)
    ensures Letters(space, LStrip(space, s)) == Letters(space, s)
  {
    var n := Blank(space, s);
    assert s == s[..n] + s[n..];
    LettersConcat(space, s[..n], s[n..]);
    BlankHasNoLetters(space, s[..n]);
  }

  lemma {:induction false} RStripLetters(space: char -> bool, s: string)
    ensures Letters(space, RStrip(space, s)) == Letters(space, s)
  {
    if s != [] && space(s[|s| - 1]) {
      var front, last := s[..|s| - 1], s[|s| - 1..];
      assert s == front + last;
      LettersConcat(space, front, last);
      BlankHasNoLetters(space, last);
      RStripLetters(space, front);
    }
  }

  lemma StripLetters(space: char -> bool, s: string)
    ensures Letters(space, Strip(space, s)) == Letters(space, s)
  {
    LStripLetters(space, s);
    RStripLetters(space, LStrip(space, s));
  }

  lemma {:induction false} PiecesLetters(space: char -> bool, s: string)
    ensures Letters(space, Concat(Pieces(space, s))) == Letters(space, s)
    decreases |s|
  {
    var n := FirstEnd(space, s);
    if n == |s| {
      OnePart(s);
    } else {
      var rest := LStrip(space, s[n..]);
      var pieces := Pieces(space, rest);
      PiecesLetters(space, rest);
      LStripLetters(space, s[n..]);
      assert s == s[..n] + s[n..];
      LettersConcat(space, s[..n], s[n..]);
      assert ([s[..n]] + pieces)[1..] == pieces;
      LettersConcat(space, s[..n], Concat(pieces));
    }
  }

  lemma OnePart(s: string)
    ensures Concat([s]) == s
  {
    assert [s][1..] == [] && s + [] == s;
  }

  lemma {:induction false} KeptLetters(space: char -> bool, pieces: seq<string>)
    ensures Letters(space, Concat(KeepNonEmpty(space, pieces))) == Letters(space, Concat(pieces))
  {
    hide Strip;
    if pieces != [] {
      var item, rest := Strip(space, pieces[0]), KeepNonEmpty(space, pieces[1..]);
      KeptLetters(space, pieces[1..]);
      StripLetters(space, pieces[0]);
      LettersConcat(space, pieces[0], Concat(pieces[1..]));
      if item == "" {
        assert [] + rest == rest;
      } else {
        assert ([item] + rest)[1..] == rest;
        LettersConcat(space, item, Concat(rest));
      }
    }
  }

  /** Cutting into sentences loses no letter and moves none. */
  lemma NoLetterLost(space: char -> bool, paragraph: string)
    ensures Letters(space, Concat(SentencesOf(space, paragraph))) == Letters(space, paragraph)
  {
    hide Pieces, KeepNonEmpty;
    PiecesLetters(space, paragraph);
    KeptLetters(space, Pieces(space, paragraph));
  }

  // ---- what a sentence looks like

  /** Not empty, and no white space at either end. */
  predicate Trimmed(space: char -> bool, s: string) { s != [] && !space(s[0]) && !space(s[|s| - 1]) }

  lemma {:induction false} RStripEnds(space: char -> bool, s: string)
    requires s != [] && !space(s[0])
    ensures Trimmed(space, RStrip(space, s))
  {
    if space(s[|s| - 1]) { RStripEnds(space, s[..|s| - 1]); }
  }

  lemma StripEnds(space: char -> bool, s: string)
    ensures Strip(space, s) == "" || Trimmed(space, Strip(space, s))
  {
    var l := LStrip(space, s);
    if l != [] { RStripEnds(space, l); }
  }

  lemma {:induction false} KeptTrimmed(space: char -> bool, pieces: seq<string>)
    ensures forall s :: s in KeepNonEmpty(space, pieces) ==> Trimmed(space, s)
  {
    hide Strip, Trimmed;
    if pieces != [] {
      StripEnds(space, pieces[0]);
      KeptTrimmed(space, pieces[1..]);
    }
  }

  lemma {:induction false} NoLettersMeansBlank(space: char -> bool, s: string)
    ensures Letters(space, s) == [] <==> forall i :: 0 <= i < |s| ==> space(s[i])
  {
    if s != [] {
      NoLettersMeansBlank(space, s[1..]);
      assert forall i :: 0 < i < |s| ==> s[i] == s[1..][i - 1];
    }
  }

  /** A paragraph has a sentence exactly when it has a letter. */
  lemma SentenceExists(space: char -> bool, paragraph: string)
    ensures SentencesOf(space, paragraph) == [] <==> Letters(space, paragraph) == []
    ensures forall s :: s in SentencesOf(space, paragraph) ==> Trimmed(space, s)
  {
    hide Pieces, KeepNonEmpty;
    var sentences := SentencesOf(space, paragraph);
    NoLetterLost(space, paragraph);
    KeptTrimmed(space, Pieces(space, paragraph));
    if sentences != [] {
      assert sentences[0] in sentences;
      assert Concat(sentences)[0] == sentences[0][0];
    }
  }

  // ---- where the cuts are

  /** A mark followed by white space. */
  predicate BreakAt(space: char -> bool, s: string, i: nat) {
    i + 1 < |s| && s[i] in ".!?" && space(s[i + 1])
  }

  lemma MarksAre()
    ensures forall c :: IsMark(c) <==> c in ".!?"
  {
  }

  ghost predicate Unbroken(space: char -> bool, s: string) { forall i: nat :: !BreakAt(space, s, i) }

  predicate EndsMarked(s: string) { s != [] && s[|s| - 1] in ".!?" }

  /** No part has a break inside, and every part but the last ends in a mark. */
  ghost predicate WellCut(space: char -> bool, parts: seq<string>) {
    parts == [] ||
    (Unbroken(space, parts[0]) && (|parts| > 1 ==> EndsMarked(parts[0])) && WellCut(space, parts[1..]))
  }

  lemma {:induction false} FirstEndUnbroken(space: char -> bool, s: string)
    ensures Unbroken(space, s[..FirstEnd(space, s)])
  {
    MarksAre();
    var n := FirstEnd(space, s);
    if |s| > 1 && !(IsMark(s[0]) && space(s[1])) {
      FirstEndUnbroken(space, s[1..]);
      forall i: nat ensures !BreakAt(space, s[..n], i) {
        if 0 < i < n - 1 { assert !BreakAt(space, s[1..][..n - 1], i - 1); }
      }
    }
  }

  lemma {:induction false} PiecesCut(space: char -> bool, s: string)
    ensures WellCut(space, Pieces(space, s))
    decreases |s|
  {
    hide Unbroken, LStrip;
    var n := FirstEnd(space, s);
    FirstEndUnbroken(space, s);
    MarksAre();
    if n == |s| {
      assert s[..n] == s && [s][1..] == [];
    } else {
      var rest := Pieces(space, LStrip(space, s[n..]));
      LStripShorter(space, s[n..]);
      PiecesCut(space, LStrip(space, s[n..]));
      assert ([s[..n]] + rest)[1..] == rest;
    }
  }

  lemma LStripShorter(space: char -> bool, s: string)
    ensures |LStrip(space, s)| <= |s|
  {
  }

  lemma {:induction false} RStripPart(space: char -> bool, s: string)
    ensures RStrip(space, s) <= s
    ensures EndsMarked(s) && !space(s[|s| - 1]) ==> RStrip(space, s) == s
  {
    if s != [] && space(s[|s| - 1]) { RStripPart(space, s[..|s| - 1]); }
  }

  lemma StripPart(space: char -> bool, s: string)
    requires forall c :: IsMark(c) ==> !space(c)
    ensures Unbroken(space, s) ==> Unbroken(space, Strip(space, s))
    ensures EndsMarked(s) ==> EndsMarked(Strip(space, s))
  {
    MarksAre();
    var n, l, r := Blank(space, s), LStrip(space, s), Strip(space, s);
    RStripPart(space, l);
    assert forall i :: 0 <= i < |r| ==> r[i] == l[i] == s[n + i];
    if Unbroken(space, s) {
      forall i: nat ensures !BreakAt(space, r, i) {
        assert !BreakAt(space, s, n + i);
      }
    }
    if EndsMarked(s) { assert !space(s[|s| - 1]) && l[|l| - 1] == s[|s| - 1]; }
  }

  lemma {:induction false} KeptCut(space: char -> bool, p: seq<string>)
    requires (forall c :: IsMark(c) ==> !space(c)) && WellCut(space, p)
    ensures WellCut(space, KeepNonEmpty(space, p))
  {
    hide Unbroken, Strip, EndsMarked;
    if p != [] {
      var item, rest := Strip(space, p[0]), KeepNonEmpty(space, p[1..]);
      StripPart(space, p[0]);
      KeptCut(space, p[1..]);
      if |p| == 1 { assert p[1..] == []; }
      if item == "" {
        assert [] + rest == rest;
      } else {
        assert ([item] + rest)[1..] == rest;
      }
    }
  }

  /** Every sentence but the last of its paragraph ends in a mark, and none has a mark before white space
      inside: the cuts are exactly at those places. */
  lemma CutAtMarks(space: char -> bool, paragraph: string)
    requires forall c :: IsMark(c) ==> !space(c)
    ensures WellCut(space, SentencesOf(space, paragraph))
  {
    hide Unbroken, Pieces, KeepNonEmpty, WellCut;
    PiecesCut(space, paragraph);
    KeptCut(space, Pieces(space, paragraph));
  }
}
