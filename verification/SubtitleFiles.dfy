/** The file write_srt writes, read back. */
module SubtitleFiles {
  import opened Decimal
  import opened Json
  import opened Sentences
  import opened Timestamps
  import opened Subtitles

  /** A cue as a player reads it: milliseconds instead of seconds. */
  datatype Shown = Shown(number: nat, start: nat, end: nat, text: string)

  /** Length of what comes before the first stop. */
  function Before(stop: char, s: string): (n: nat)
    ensures n <= |s| && stop !in s[..n] && (n < |s| ==> s[n] == stop)
  {
    if s == [] || s[0] == stop then 0 else 1 + Before(stop, s[1..])
  }

  lemma {:induction false} BeforeIs(stop: char, a: string, b: string)
    requires stop !in a && (b == [] || b[0] == stop)
    ensures Before(stop, a + b) == |a|
  {
    if a == [] {
      assert a + b == b;
    } else {
      assert (a + b)[1..] == a[1..] + b;
      BeforeIs(stop, a[1..], b);
    }
  }

  /** A line that is ended by a line feed, and what follows it. */
  function ReadLine(s: string): Option<(string, string)> {
    var n := Before('\n', s);
    if n < |s| then Some((s[..n], s[n + 1..])) else None
  }

  lemma LineReads(line: string, rest: string)
    requires '\n' !in line
    ensures ReadLine(line + "\n" + rest) == Some((line, rest))
  {
    var s := line + ("\n" + rest);
    BeforeIs('\n', line, "\n" + rest);
    assert line + "\n" + rest == s && s[..|line|] == line && s[|line| + 1..] == rest;
  }

  const ARROW := " --> "

  /** Two timestamps with an arrow between them. */
  function ReadTimes(s: string): Option<(nat, nat)> {
    var n := Before(' ', s);
    if |s| < n + 5 || s[n..n + 5] != ARROW then None
    else
      var a, b := ReadTimestamp(s[..n]), ReadTimestamp(s[n + 5..]);
      if a.Some? && b.Some? then Some((a.value, b.value)) else None
  }

  /** Number, times and text, a line each. */
  function ReadCue(s: string): (r: Option<(Shown, string)>)
    ensures r.Some? ==> |r.value.1| < |s|
  {
    var first := ReadLine(s);
    if first.None? || first.value.0 == "" || !AllDigits(first.value.0) then None
    else
      var second := ReadLine(first.value.1);
      if second.None? || ReadTimes(second.value.0).None? then None
      else
        var third := ReadLine(second.value.1);
        if third.None? then None
        else
          var times := ReadTimes(second.value.0).value;
          Some((Shown(Number(first.value.0), times.0, times.1, third.value.0), third.value.1))
  }

  /** Cues separated by blank lines. */
  function ReadCues(s: string): Option<seq<Shown>>
    decreases |s|
  {
    var first := ReadCue(s);
    if first.None? then None
    else if first.value.1 == "" then Some([first.value.0])
    else if first.value.1[0] != '\n' then None
    else
      var rest := ReadCues(first.value.1[1..]);
      if rest.None? then None else Some([first.value.0] + rest.value)
  }

  function ReadFile(s: string): Option<seq<Shown>> { if s == "" then Some([]) else ReadCues(s) }

  // ---- one cue

  predicate Readable(c: Cue) { c.start >= 0.0 && c.end >= 0.0 && '\n' !in c.sentence }

  function ShownOf(c: Cue): Shown
    requires Readable(c)
  {
    TimestampReads(c.start);
    TimestampReads(c.end);
    Shown(c.number, Milliseconds(c.start), Milliseconds(c.end), c.sentence)
  }

  lemma TimestampPlain(t: real)
    requires t >= 0.0
    ensures ' ' !in Timestamp(t) && '\n' !in Timestamp(t)
  {
    hide Padded;
    var ms: nat := Milliseconds(t);
    var r := ms % 3_600_000;
    PaddedReads(ms / 3_600_000, 2);
    PaddedReads(r / 60_000, 2);
    PaddedReads(r % 60_000 / 1_000, 2);
    PaddedReads(r % 60_000 % 1_000, 3);
  }

  lemma TimesRead(t: real, u: real)
    requires t >= 0.0 && u >= 0.0
    ensures Milliseconds(t) >= 0 && Milliseconds(u) >= 0
    ensures ReadTimes(Timestamp(t) + ARROW + Timestamp(u)) == Some((Milliseconds(t), Milliseconds(u)))
  {
    hide Timestamp, ReadTimestamp, Milliseconds;
    TimestampReads(t);
    TimestampReads(u);
    TimestampPlain(t);
    var a, b := Timestamp(t), Timestamp(u);
    var s := a + (ARROW + b);
    BeforeIs(' ', a, ARROW + b);
    assert a + ARROW + b == s;
    assert s[..|a|] == a && s[|a|..|a| + 5] == ARROW && s[|a| + 5..] == b;
  }

  lemma CueReads(c: Cue, rest: string)
    requires Readable(c)
    ensures ReadCue(Render(c) + rest) == Some((ShownOf(c), rest))
  {
    hide Timestamp, ReadTimes, ReadLine, IntText, Number, AllDigits;
    var n := IntText(c.number);
    var times := Timestamp(c.start) + ARROW + Timestamp(c.end);
    var third := c.sentence + "\n" + rest;
    var second := times + "\n" + third;
    NumberReads(c.number);
    TimestampPlain(c.start);
    TimestampPlain(c.end);
    assert '\n' !in times;
    TimesRead(c.start, c.end);
    assert Render(c) + rest == n + "\n" + second;
    LineReads(n, second);
    LineReads(times, third);
    LineReads(c.sentence, rest);
  }

  lemma NumberReads(n: nat)
    ensures var s := IntText(n); s != "" && AllDigits(s) && Number(s) == n && '\n' !in s
  {
    NumberOfDigits(n);
  }

  // ---- the file

  function ShownAll(cues: seq<Cue>): (s: seq<Shown>)
    requires forall c :: c in cues ==> Readable(c)
    ensures |s| == |cues|
  {
    seq(|cues|, i requires 0 <= i < |cues| => ShownOf(cues[i]))
  }

  lemma {:induction false} CuesRead(cues: seq<Cue>)
    requires cues != [] && forall c :: c in cues ==> Readable(c)
    ensures ReadCues(Join(RenderAll(cues))) == Some(ShownAll(cues))
    decreases |cues|
  {
    hide Render, ReadCue, Readable;
    var parts := RenderAll(cues);
    if |cues| == 1 {
      CueReads(cues[0], "");
      assert Render(cues[0]) + "" == Render(cues[0]);
      assert ShownAll(cues) == [ShownOf(cues[0])];
    } else {
      var rest := Join(RenderAll(cues[1..]));
      CueReads(cues[0], "\n" + rest);
      assert parts[1..] == RenderAll(cues[1..]);
      assert Join(parts) == Render(cues[0]) + ("\n" + rest);
      assert ("\n" + rest)[1..] == rest;
      CuesRead(cues[1..]);
      assert ShownAll(cues) == [ShownOf(cues[0])] + ShownAll(cues[1..]);
    }
  }

  /** Sentences hold characters of their paragraph only. */
  ghost predicate Within(a: string, b: string) { forall c :: c in a ==> c in b }

  lemma StripWithin(space: char -> bool, s: string)
    ensures Within(Strip(space, s), s) && Within(LStrip(space, s), s)
  {
    var n, l, r := Blank(space, s), LStrip(space, s), Strip(space, s);
    RStripPart(space, l);
    assert forall i :: 0 <= i < |l| ==> l[i] == s[n + i];
    assert forall i :: 0 <= i < |r| ==> r[i] == l[i];
  }

  lemma {:induction false} PiecesWithin(space: char -> bool, s: string)
    ensures forall p :: p in Pieces(space, s) ==> Within(p, s)
    decreases |s|
  {
    var n := FirstEnd(space, s);
    if n < |s| {
      var rest := LStrip(space, s[n..]);
      StripWithin(space, s[n..]);
      PiecesWithin(space, rest);
      forall p | p in Pieces(space, rest) ensures Within(p, s) {
        assert Within(p, rest) && Within(rest, s[n..]);
      }
    }
  }

  lemma {:induction false} KeptWithin(space: char -> bool, pieces: seq<string>, s: string)
    requires forall p :: p in pieces ==> Within(p, s)
    ensures forall p :: p in KeepNonEmpty(space, pieces) ==> Within(p, s)
  {
    hide Strip;
    if pieces != [] {
      StripWithin(space, pieces[0]);
      assert Within(Strip(space, pieces[0]), pieces[0]) && Within(pieces[0], s);
      KeptWithin(space, pieces[1..], s);
    }
  }

  lemma {:induction false} FlattenWithin(space: char -> bool, narration: seq<string>, c: char)
    requires forall p :: p in narration ==> c !in p
    ensures forall s :: s in Flatten(Split(space, narration)) ==> c !in s
  {
    hide SentencesOf;
    if narration != [] {
      FlattenWithin(space, narration[1..], c);
      SentencesWithin(space, narration[0]);
      assert Split(space, narration)[1..] == Split(space, narration[1..]);
    }
  }

  lemma SentencesWithin(space: char -> bool, paragraph: string)
    ensures forall s :: s in SentencesOf(space, paragraph) ==> Within(s, paragraph)
  {
    PiecesWithin(space, paragraph);
    KeptWithin(space, Pieces(space, paragraph), paragraph);
  }

  /** No cue begins before the cursor it was laid out from. */
  lemma {:induction false} CuesLater(paragraphs: seq<seq<string>>, durations: seq<real>, cursor: real, number: nat)
    requires |paragraphs| == |durations| && NoneNegative(durations)
    ensures forall c :: c in Cues(paragraphs, durations, cursor, number) ==> c.start >= cursor && c.end >= cursor
    decreases |paragraphs|
  {
    hide SegmentCues;
    if paragraphs != [] {
      TailNotNegative(durations);
      SegmentLater(paragraphs[0], durations[0], cursor, number);
      CuesLater(paragraphs[1..], durations[1..], cursor + durations[0], number + |paragraphs[0]|);
    }
  }

  lemma SegmentLater(sentences: seq<string>, duration: real, cursor: real, number: nat)
    requires duration >= 0.0
    ensures forall c :: c in SegmentCues(sentences, duration, cursor, number) ==> c.start >= cursor && c.end >= cursor
  {
    hide Share, Weights;
    if sentences != [] {
      WeightsPositive(sentences, |sentences|);
      forall i | 0 <= i <= |sentences| ensures At(sentences, duration, cursor, i) >= cursor {
        ShareNonNegative(duration, Weights(sentences, i), Weights(sentences, |sentences|));
      }
    }
  }

  /** Round trip: for every narration without line feeds a reader gets every cue back, numbered as it was, with
      its times in rounded milliseconds and its sentence. */
  lemma SrtReadsBack(space: char -> bool, narration: seq<string>, durations: seq<real>)
    requires |narration| == |durations| && NoneNegative(durations)
    requires forall p :: p in narration ==> '\n' !in p
    ensures var cues := Cues(Split(space, narration), durations, 0.0, 1);
      && (forall c :: c in cues ==> Readable(c))
      && ReadFile(Join(RenderAll(cues))) == Some(ShownAll(cues))
  {
    hide Cues, Flatten, Split, ReadCues, Render;
    var paragraphs := Split(space, narration);
    var cues := Cues(paragraphs, durations, 0.0, 1);
    CuesLater(paragraphs, durations, 0.0, 1);
    EverySentenceSpoken(paragraphs, durations, 0.0, 1);
    FlattenWithin(space, narration, '\n');
    forall c | c in cues ensures Readable(c) {
      var i :| 0 <= i < |cues| && cues[i] == c;
      assert Spoken(cues)[i] in Flatten(paragraphs);
    }
    if cues != [] {
      CuesRead(cues);
      SomethingWritten(cues);
    }
  }

  lemma SomethingWritten(cues: seq<Cue>)
    requires cues != []
    ensures Join(RenderAll(cues)) != ""
  {
    hide Timestamp, IntText;
    assert Render(cues[0]) != "";
  }

  // ---- how long a sentence is shown

  /** Every sentence of a paragraph is shown in proportion to its length. */
  lemma ShownByLength(sentences: seq<string>, duration: real, cursor: real, number: nat, i: nat)
    requires i < |sentences| && forall s :: s in sentences ==> s != ""
    ensures var c := SegmentCues(sentences, duration, cursor, number)[i];
      (c.end - c.start) * |Concat(sentences)| as real == duration * |sentences[i]| as real
  {
    hide At, Weights, Share, Weight, Concat;
    AtStep(sentences, duration, cursor, i);
    WeightsAreLengths(sentences, |sentences|);
    assert sentences[..|sentences|] == sentences;
    assert sentences[i] in sentences;
    WeightIsLength(sentences[i]);
    ShareOfLength(duration, |sentences[i]|, |Concat(sentences)|);
  }

  lemma WeightIsLength(s: string)
    requires s != ""
    ensures Weight(s) == |s|
  {
  }

  lemma ShareOfLength(d: real, w: nat, total: nat)
    requires total > 0
    ensures Share(d, w, total) * total as real == d * w as real
  {
    Divides(d * w as real, total as real);
  }

  lemma Divides(x: real, t: real)
    requires t != 0.0
    ensures x / t * t == x
  {
  }

  lemma {:induction false} WeightsAreLengths(sentences: seq<string>, n: nat)
    requires n <= |sentences| && forall s :: s in sentences ==> s != ""
    ensures Weights(sentences, n) == |Concat(sentences[..n])|
  {
    if n > 0 {
      WeightsAreLengths(sentences, n - 1);
      assert sentences[..n] == sentences[..n - 1] + [sentences[n - 1]];
      ConcatConcat(sentences[..n - 1], [sentences[n - 1]]);
      OnePart(sentences[n - 1]);
      assert sentences[n - 1] in sentences && sentences[n - 1] != "";
      assert Weight(sentences[n - 1]) == |sentences[n - 1]|;
    }
  }
}
