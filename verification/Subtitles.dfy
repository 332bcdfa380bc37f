/** write_srt: the cues of the narration, in exact arithmetic. */
module Subtitles {
  import opened Decimal
  import opened Json
  import opened Sentences
  import opened Timestamps

  datatype Cue = Cue(number: nat, start: real, end: real, sentence: string)

  function Weight(sentence: string): nat { if |sentence| > 1 then |sentence| else 1 }

  /** Total weight of the first n sentences. */
  function Weights(sentences: seq<string>, n: nat): nat
    requires n <= |sentences|
  {
    if n == 0 then 0 else Weights(sentences, n - 1) + Weight(sentences[n - 1])
  }

  lemma {:induction false} WeightsPositive(sentences: seq<string>, n: nat)
    requires n <= |sentences|
    ensures Weights(sentences, n) >= n
  {
    if n > 0 { WeightsPositive(sentences, n - 1); }
  }

  /** Where sentence i of a segment starts: its share of the duration, by weight. */
  function At(sentences: seq<string>, duration: real, cursor: real, i: nat): real
    requires i <= |sentences|
  {
    var total := Weights(sentences, |sentences|);
    if total == 0 then cursor
    else cursor + Share(duration, Weights(sentences, i), total)
  }

  /** duration * weight / total. */
  function Share(duration: real, weight: nat, total: nat): real
    requires total > 0
  {
    duration * weight as real / total as real
  }

  function SegmentCues(sentences: seq<string>, duration: real, cursor: real, number: nat): (s: seq<Cue>)
    ensures |s| == |sentences|
  {
    seq(|sentences|, i requires 0 <= i < |sentences| =>
      Cue(number + i, At(sentences, duration, cursor, i), At(sentences, duration, cursor, i + 1), sentences[i]))
  }

  /** Every cue, segment after segment. */
  function Cues(paragraphs: seq<seq<string>>, durations: seq<real>, cursor: real, number: nat): seq<Cue>
    requires |paragraphs| == |durations|
  {
    if paragraphs == [] then []
    else
      var rest := Cues(paragraphs[1..], durations[1..], cursor + durations[0], number + |paragraphs[0]|);
      SegmentCues(paragraphs[0], durations[0], cursor, number) + rest
  }

  function Sum(durations: seq<real>): real {
    if durations == [] then 0.0 else durations[0] + Sum(durations[1..])
  }

  predicate NoneNegative(durations: seq<real>) {
    forall i :: 0 <= i < |durations| ==> durations[i] >= 0.0
  }

  function Count(paragraphs: seq<seq<string>>): nat {
    if paragraphs == [] then 0 else |paragraphs[0]| + Count(paragraphs[1..])
  }

  function Render(c: Cue): string {
    IntText(c.number) + "\n" + Timestamp(c.start) + " --> " + Timestamp(c.end) + "\n" + c.sentence + "\n"
  }

  function RenderAll(cues: seq<Cue>): (s: seq<string>)
    ensures |s| == |cues|
  {
    seq(|cues|, i requires 0 <= i < |cues| => Render(cues[i]))
  }

  /** "\n".join. */
  function Join(parts: seq<string>): string {
    if parts == [] then [] else if |parts| == 1 then parts[0] else parts[0] + "\n" + Join(parts[1..])
  }

  // ---- the loops

  /** The next cue begins where the proportional running sum has got to. */
  lemma AtStep(sentences: seq<string>, duration: real, cursor: real, i: nat)
    requires i < |sentences|
    ensures Weights(sentences, |sentences|) > 0
    ensures At(sentences, duration, cursor, i + 1)
         == At(sentences, duration, cursor, i)
          + Share(duration, Weight(sentences[i]), Weights(sentences, |sentences|))
  {
    hide Weights, Weight, Share;
    WeightsPositive(sentences, |sentences|);
    WeightsStep(sentences, i);
    ShareAdds(duration, Weights(sentences, i), Weight(sentences[i]), Weights(sentences, |sentences|));
  }

  lemma WeightsStep(sentences: seq<string>, i: nat)
    requires i < |sentences|
    ensures Weights(sentences, i + 1) == Weights(sentences, i) + Weight(sentences[i])
  {
  }

  lemma ShareAdds(d: real, w: nat, v: nat, total: nat)
    requires total > 0
    ensures Share(d, w + v, total) == Share(d, w, total) + Share(d, v, total)
  {
    Distribute(d, w as real, v as real, total as real);
  }

  lemma Distribute(d: real, w: real, v: real, total: real)
    requires total != 0.0
    ensures d * (w + v) / total == d * w / total + d * v / total
  {
    assert d * (w + v) == d * w + d * v;
  }

  /** The special case for the last sentence is no special case in exact arithmetic. */
  lemma LastIsProportional(sentences: seq<string>, duration: real, cursor: real)
    requires sentences != []
    ensures At(sentences, duration, cursor, |sentences|) == cursor + duration
    ensures At(sentences, duration, cursor, 0) == cursor
  {
    hide Weights, Share;
    WeightsPositive(sentences, |sentences|);
    WeightsStart(sentences);
    WholeShare(duration, Weights(sentences, |sentences|));
  }

  lemma WeightsStart(sentences: seq<string>)
    ensures Weights(sentences, 0) == 0
  {
  }

  /** All the weight is the whole duration, and no weight none of it. */
  lemma WholeShare(d: real, total: nat)
    requires total > 0
    ensures Share(d, total, total) == d && Share(d, 0, total) == 0.0
  {
    Cancels(d, total as real);
  }

  lemma Cancels(d: real, t: real)
    requires t != 0.0
    ensures d * t / t == d && d * 0.0 / t == 0.0
  {
  }

  lemma {:induction false} CuesAppend(
    paragraphs: seq<seq<string>>, durations: seq<real>, cursor: real, number: nat, p: seq<string>, d: real)
    requires |paragraphs| == |durations|
    ensures Cues(paragraphs + [p], durations + [d], cursor, number)
         == Cues(paragraphs, durations, cursor, number)
          + SegmentCues(p, d, cursor + Sum(durations), number + Count(paragraphs))
    decreases |paragraphs|
  {
    hide SegmentCues;
    if paragraphs == [] {
      assert ([p] + [])[1..] == [] && [d][1..] == [];
      assert paragraphs + [p] == [p] && durations + [d] == [d];
    } else {
      assert (paragraphs + [p])[1..] == paragraphs[1..] + [p];
      assert (durations + [d])[1..] == durations[1..] + [d];
      CuesAppend(paragraphs[1..], durations[1..], cursor + durations[0], number + |paragraphs[0]|, p, d);
    }
  }

  lemma {:induction false} SumAppend(durations: seq<real>, d: real)
    ensures Sum(durations + [d]) == Sum(durations) + d
  {
    if durations == [] {
      assert durations + [d] == [d] && [d][1..] == [];
    } else {
      assert (durations + [d])[1..] == durations[1..] + [d];
      SumAppend(durations[1..], d);
    }
  }

  lemma {:induction false} CountAppend(paragraphs: seq<seq<string>>, p: seq<string>)
    ensures Count(paragraphs + [p]) == Count(paragraphs) + |p|
  {
    if paragraphs == [] {
      assert paragraphs + [p] == [p] && [p][1..] == [];
    } else {
      assert (paragraphs + [p])[1..] == paragraphs[1..] + [p];
      CountAppend(paragraphs[1..], p);
    }
  }

  method TotalWeight(sentences: seq<string>) returns (total: nat)
    ensures total == Weights(sentences, |sentences|)
  {
    total := 0;
    for i := 0 to |sentences|
      invariant total == Weights(sentences, i)
    {
      total := total + Weight(sentences[i]);
    }
  }

  /** One paragraph: the inner loop of write_srt. */
  method WriteSegment(sentences: seq<string>, duration: real, cursor: real, first: nat) returns (cues: seq<string>)
    ensures cues == RenderAll(SegmentCues(sentences, duration, cursor, first))
  {
    hide Render, At, Weight, Weights, Share;
    cues := [];
    if sentences != [] { LastIsProportional(sentences, duration, cursor); }
    var totalWeight := TotalWeight(sentences);
    var segmentCursor, cue := cursor, first;
    for index := 0 to |sentences|
      invariant cue == first + index
      invariant index < |sentences| ==> segmentCursor == At(sentences, duration, cursor, index)
      invariant |cues| == index
      invariant forall i :: 0 <= i < index ==> cues[i] == Render(SegmentCues(sentences, duration, cursor, first)[i])
    {
      AtStep(sentences, duration, cursor, index);
      var end := if index == |sentences| - 1 then cursor + duration
                 else segmentCursor + Share(duration, Weight(sentences[index]), totalWeight);
      cues := cues + [Render(Cue(cue, segmentCursor, end, sentences[index]))];
      cue := cue + 1;
      segmentCursor := end;
    }
  }

  lemma RenderConcat(a: seq<Cue>, b: seq<Cue>)
    ensures RenderAll(a + b) == RenderAll(a) + RenderAll(b)
  {
    hide Render;
  }

  /** What one more paragraph adds to everything written before it. */
  lemma SegmentFollows(paragraphs: seq<seq<string>>, durations: seq<real>, p: nat, cursor: real, cue: nat)
    requires p < |paragraphs| == |durations|
    requires cursor == Sum(durations[..p]) && cue == 1 + Count(paragraphs[..p])
    ensures cursor + durations[p] == Sum(durations[..p + 1]) && cue + |paragraphs[p]| == 1 + Count(paragraphs[..p + 1])
    ensures RenderAll(Cues(paragraphs[..p + 1], durations[..p + 1], 0.0, 1))
         == RenderAll(Cues(paragraphs[..p], durations[..p], 0.0, 1))
          + RenderAll(SegmentCues(paragraphs[p], durations[p], cursor, cue))
  {
    hide RenderAll, SegmentCues, Cues, Sum, Count;
    CuesAppend(paragraphs[..p], durations[..p], 0.0, 1, paragraphs[p], durations[p]);
    SumAppend(durations[..p], durations[p]);
    CountAppend(paragraphs[..p], paragraphs[p]);
    RenderConcat(Cues(paragraphs[..p], durations[..p], 0.0, 1),
      SegmentCues(paragraphs[p], durations[p], cursor, cue));
    assert paragraphs[..p + 1] == paragraphs[..p] + [paragraphs[p]];
    assert durations[..p + 1] == durations[..p] + [durations[p]];
  }

  lemma NothingYet()
    ensures RenderAll(Cues([], [], 0.0, 1)) == [] && Sum([]) == 0.0 && Count([]) == 0
  {
  }

  /** The sentences of each paragraph. */
  function Split(space: char -> bool, paragraphs: seq<string>): (s: seq<seq<string>>)
    ensures |s| == |paragraphs|
  {
    seq(|paragraphs|, i requires 0 <= i < |paragraphs| => SentencesOf(space, paragraphs[i]))
  }

  /** write_srt up to writing the file: None when the lists differ in length. */
  method WriteSrt(space: char -> bool, narration: seq<string>, durations: seq<real>) returns (text: Option<string>)
    ensures text == if |narration| != |durations| then None
                    else Some(Join(RenderAll(Cues(Split(space, narration), durations, 0.0, 1))))
  {
    if |narration| != |durations| {
      return None;
    }
    hide Render, SegmentCues, Cues, Join, RenderAll, Sum, Count, SentencesOf;
    NothingYet();
    ghost var paragraphs := Split(space, narration);
    var cues: seq<string> := [];
    var cursor, cue := 0.0, 1;
    for p := 0 to |narration|
      invariant cursor == Sum(durations[..p]) && cue == 1 + Count(paragraphs[..p])
      invariant cues == RenderAll(Cues(paragraphs[..p], durations[..p], 0.0, 1))
    {
      var sentences := SentencesOf(space, narration[p]);
      var segment := WriteSegment(sentences, durations[p], cursor, cue);
      SegmentFollows(paragraphs, durations, p, cursor, cue);
      cues := cues + segment;
      cue := cue + |sentences|;
      cursor := cursor + durations[p];
    }
    assert paragraphs[..|paragraphs|] == paragraphs && durations[..|durations|] == durations;
    text := Some(Join(cues));
  }

  // ---- tiling

  /** Cues numbered from first, each starting where the one before ends, covering start to end. */
  ghost predicate Tiles(cues: seq<Cue>, start: real, end: real, first: nat) {
    && (cues == [] ==> start == end)
    && (cues != [] ==> cues[0].start == start && cues[|cues| - 1].end == end)
    && (forall i :: 0 <= i < |cues| ==> cues[i].number == first + i && cues[i].start <= cues[i].end)
    && (forall i :: 0 < i < |cues| ==> cues[i - 1].end == cues[i].start)
  }

  lemma TilesConcat(a: seq<Cue>, b: seq<Cue>, start: real, mid: real, end: real, first: nat)
    requires Tiles(a, start, mid, first) && a != []
    ensures Tiles(b, mid, end, first + |a|) <==> Tiles(a + b, start, end, first)
  {
    hide Tiles;
    if Tiles(b, mid, end, first + |a|) { TilesJoin(a, b, start, mid, end, first); }
    if Tiles(a + b, start, end, first) { TilesRest(a, b, start, mid, end, first); }
  }

  lemma TilesJoin(a: seq<Cue>, b: seq<Cue>, start: real, mid: real, end: real, first: nat)
    requires Tiles(a, start, mid, first) && Tiles(b, mid, end, first + |a|)
    ensures Tiles(a + b, start, end, first)
  {
    var c := a + b;
    forall i | 0 <= i < |c| ensures c[i].number == first + i && c[i].start <= c[i].end {
      if i >= |a| { assert c[i] == b[i - |a|]; }
    }
    forall i | 0 < i < |c| ensures c[i - 1].end == c[i].start {
      if i > |a| { assert c[i - 1] == b[i - |a| - 1] && c[i] == b[i - |a|]; }
    }
  }

  lemma TilesRest(a: seq<Cue>, b: seq<Cue>, start: real, mid: real, end: real, first: nat)
    requires Tiles(a, start, mid, first) && a != [] && Tiles(a + b, start, end, first)
    ensures Tiles(b, mid, end, first + |a|)
  {
    var c := a + b;
    forall i | 0 <= i < |b| ensures b[i] == c[|a| + i] {}
    if b != [] {
      assert c[|a| - 1].end == c[|a|].start;
      assert c[|c| - 1] == b[|b| - 1];
    }
    forall i | 0 < i < |b| ensures b[i - 1].end == b[i].start {
      assert c[|a| + i - 1].end == c[|a| + i].start;
    }
  }

  lemma SegmentTiles(sentences: seq<string>, duration: real, cursor: real, number: nat)
    requires sentences != [] && duration >= 0.0
    ensures Tiles(SegmentCues(sentences, duration, cursor, number), cursor, cursor + duration, number)
  {
    hide At, Weights, Share;
    LastIsProportional(sentences, duration, cursor);
    forall i | 0 <= i < |sentences|
      ensures At(sentences, duration, cursor, i) <= At(sentences, duration, cursor, i + 1)
    {
      AtStep(sentences, duration, cursor, i);
      ShareNonNegative(duration, Weight(sentences[i]), Weights(sentences, |sentences|));
    }
  }

  lemma ShareNonNegative(d: real, v: nat, total: nat)
    requires d >= 0.0 && total > 0
    ensures Share(d, v, total) >= 0.0
  {
    NonNegative(d, v as real, total as real);
  }

  lemma NonNegative(d: real, v: real, total: real)
    requires d >= 0.0 && v >= 0.0 && total > 0.0
    ensures d * v / total >= 0.0
  {
    assert d * v >= 0.0;
  }

  /** Every cue starts no earlier than the cursor it was laid out from. */
  lemma {:induction false} FirstStart(paragraphs: seq<seq<string>>, durations: seq<real>, cursor: real, number: nat)
    requires |paragraphs| == |durations| && NoneNegative(durations)
    ensures Sum(durations) >= 0.0
    ensures var c := Cues(paragraphs, durations, cursor, number); c != [] ==> c[0].start >= cursor
    decreases |paragraphs|
  {
    hide SegmentCues, At;
    if paragraphs != [] {
      FirstStart(paragraphs[1..], durations[1..], cursor + durations[0], number + |paragraphs[0]|);
      if paragraphs[0] != [] { SegmentTiles(paragraphs[0], durations[0], cursor, number); }
    }
  }

  /** Every paragraph that takes time has a sentence. */
  predicate Covered(paragraphs: seq<seq<string>>, durations: seq<real>)
    requires |paragraphs| == |durations|
  {
    forall i :: 0 <= i < |paragraphs| ==> paragraphs[i] != [] || durations[i] == 0.0
  }

  /** The cues tile the narration exactly when no paragraph with a positive duration is without a
      sentence: such a paragraph, and nothing else, leaves a gap. */
  lemma {:induction false} CuesTile(paragraphs: seq<seq<string>>, durations: seq<real>, cursor: real, number: nat)
    requires |paragraphs| == |durations| && NoneNegative(durations)
    ensures Tiles(Cues(paragraphs, durations, cursor, number), cursor, cursor + Sum(durations), number)
        <==> Covered(paragraphs, durations)
    decreases |paragraphs|
  {
    hide Cues, Sum, Tiles, Covered, NoneNegative;
    if paragraphs == [] {
      NothingTiles(cursor, number);
    } else {
      TailNotNegative(durations);
      CuesTile(paragraphs[1..], durations[1..], cursor + durations[0], number + |paragraphs[0]|);
      CoveredSplits(paragraphs, durations);
      if paragraphs[0] != [] {
        SentencesTile(paragraphs, durations, cursor, number);
      } else {
        GapTiles(paragraphs, durations, cursor, number);
      }
    }
  }

  /** A first paragraph with sentences tiles its part. */
  lemma SentencesTile(paragraphs: seq<seq<string>>, durations: seq<real>, cursor: real, number: nat)
    requires |paragraphs| == |durations| && paragraphs != [] && paragraphs[0] != [] && durations[0] >= 0.0
    ensures var next, end := cursor + durations[0], cursor + Sum(durations);
      && next + Sum(durations[1..]) == end
      && (Tiles(Cues(paragraphs, durations, cursor, number), cursor, end, number)
          <==> Tiles(Cues(paragraphs[1..], durations[1..], next, number + |paragraphs[0]|), next, end,
                     number + |paragraphs[0]|))
  {
    hide SegmentCues, Tiles;
    var a := SegmentCues(paragraphs[0], durations[0], cursor, number);
    var b := Cues(paragraphs[1..], durations[1..], cursor + durations[0], number + |paragraphs[0]|);
    SegmentTiles(paragraphs[0], durations[0], cursor, number);
    TilesConcat(a, b, cursor, cursor + durations[0], cursor + Sum(durations), number);
  }

  /** A first paragraph without sentences tiles only if it takes no time. */
  lemma GapTiles(paragraphs: seq<seq<string>>, durations: seq<real>, cursor: real, number: nat)
    requires |paragraphs| == |durations| && paragraphs != [] && paragraphs[0] == [] && durations[0] >= 0.0
    requires NoneNegative(durations[1..])
    ensures var next, end := cursor + durations[0], cursor + Sum(durations);
      && next + Sum(durations[1..]) == end
      && (Tiles(Cues(paragraphs, durations, cursor, number), cursor, end, number)
          <==> (durations[0] == 0.0
                && Tiles(Cues(paragraphs[1..], durations[1..], next, number), next, end, number)))
  {
    hide Tiles, NoneNegative, Cues, Sum;
    var b := Cues(paragraphs[1..], durations[1..], cursor + durations[0], number);
    GapCues(paragraphs, durations, cursor, number);
    FirstStart(paragraphs[1..], durations[1..], cursor + durations[0], number);
    if durations[0] > 0.0 { GapDoesNotTile(b, cursor, durations[0], Sum(durations[1..]), number); }
  }

  lemma GapCues(paragraphs: seq<seq<string>>, durations: seq<real>, cursor: real, number: nat)
    requires |paragraphs| == |durations| && paragraphs != [] && paragraphs[0] == []
    ensures Cues(paragraphs, durations, cursor, number)
         == Cues(paragraphs[1..], durations[1..], cursor + durations[0], number)
    ensures Sum(durations) == durations[0] + Sum(durations[1..])
  {
    hide SegmentCues;
    var b := Cues(paragraphs[1..], durations[1..], cursor + durations[0], number);
    assert SegmentCues(paragraphs[0], durations[0], cursor, number) + b == b;
  }

  lemma TailNotNegative(durations: seq<real>)
    requires NoneNegative(durations)
    ensures durations != [] ==> durations[0] >= 0.0 && NoneNegative(durations[1..])
  {
  }

  lemma NothingTiles(start: real, first: nat)
    ensures Cues([], [], start, first) == [] && Sum([]) == 0.0 && Tiles([], start, start, first) && Covered([], [])
  {
  }

  lemma GapDoesNotTile(cues: seq<Cue>, start: real, gap: real, rest: real, first: nat)
    requires gap > 0.0 && rest >= 0.0
    requires cues != [] ==> cues[0].start >= start + gap
    ensures !Tiles(cues, start, start + (gap + rest), first)
  {
  }

  /** In terms of the narration: the subtitles tile it exactly when every paragraph that takes time says
      something. */
  lemma NarrationTiles(space: char -> bool, narration: seq<string>, durations: seq<real>)
    requires |narration| == |durations| && NoneNegative(durations)
    ensures Tiles(Cues(Split(space, narration), durations, 0.0, 1), 0.0, Sum(durations), 1)
        <==> forall i :: 0 <= i < |narration| ==> Letters(space, narration[i]) != [] || durations[i] == 0.0
  {
    hide Tiles, Cues, Sum, SentencesOf;
    var paragraphs := Split(space, narration);
    CuesTile(paragraphs, durations, 0.0, 1);
    forall i | 0 <= i < |narration| ensures paragraphs[i] != [] <==> Letters(space, narration[i]) != [] {
      SentenceExists(space, narration[i]);
    }
  }

  lemma CoveredSplits(paragraphs: seq<seq<string>>, durations: seq<real>)
    requires |paragraphs| == |durations| && paragraphs != []
    ensures Covered(paragraphs, durations)
        <==> ((paragraphs[0] != [] || durations[0] == 0.0) && Covered(paragraphs[1..], durations[1..]))
  {
    var ps, ds := paragraphs[1..], durations[1..];
    if Covered(paragraphs, durations) {
      forall i | 0 <= i < |ps| ensures ps[i] != [] || ds[i] == 0.0 {
        assert paragraphs[i + 1] == ps[i] && durations[i + 1] == ds[i];
      }
    }
    if (paragraphs[0] != [] || durations[0] == 0.0) && Covered(ps, ds) {
      forall i | 0 <= i < |paragraphs| ensures paragraphs[i] != [] || durations[i] == 0.0 {
        if i > 0 { assert paragraphs[i] == ps[i - 1] && durations[i] == ds[i - 1]; }
      }
    }
  }

  // ---- what is said

  function Spoken(cues: seq<Cue>): (s: seq<string>)
    ensures |s| == |cues| && forall i :: 0 <= i < |s| ==> s[i] == cues[i].sentence
  {
    seq(|cues|, i requires 0 <= i < |cues| => cues[i].sentence)
  }

  function Flatten(paragraphs: seq<seq<string>>): seq<string> {
    if paragraphs == [] then [] else paragraphs[0] + Flatten(paragraphs[1..])
  }

  /** No sentence is dropped, repeated or moved. */
  lemma {:induction false} EverySentenceSpoken(
    paragraphs: seq<seq<string>>, durations: seq<real>, cursor: real, number: nat)
    requires |paragraphs| == |durations|
    ensures Spoken(Cues(paragraphs, durations, cursor, number)) == Flatten(paragraphs)
    decreases |paragraphs|
  {
    hide SegmentCues, Spoken;
    if paragraphs == [] {
      NothingSpoken();
    } else {
      var a := SegmentCues(paragraphs[0], durations[0], cursor, number);
      var b := Cues(paragraphs[1..], durations[1..], cursor + durations[0], number + |paragraphs[0]|);
      EverySentenceSpoken(paragraphs[1..], durations[1..], cursor + durations[0], number + |paragraphs[0]|);
      SegmentSpoken(paragraphs[0], durations[0], cursor, number);
      SpokenConcat(a, b);
    }
  }

  lemma NothingSpoken()
    ensures Spoken([]) == []
  {
  }

  lemma SegmentSpoken(sentences: seq<string>, duration: real, cursor: real, number: nat)
    ensures Spoken(SegmentCues(sentences, duration, cursor, number)) == sentences
  {
    hide At;
  }

  lemma SpokenConcat(a: seq<Cue>, b: seq<Cue>)
    ensures Spoken(a + b) == Spoken(a) + Spoken(b)
  {
  }

  lemma {:induction false} FlattenLetters(space: char -> bool, narration: seq<string>)
    ensures Letters(space, Concat(Flatten(Split(space, narration)))) == Letters(space, Concat(narration))
  {
    hide SentencesOf;
    if narration != [] {
      var first, rest := SentencesOf(space, narration[0]), Split(space, narration[1..]);
      FlattenLetters(space, narration[1..]);
      NoLetterLost(space, narration[0]);
      assert Split(space, narration)[1..] == rest;
      ConcatConcat(first, Flatten(rest));
      LettersConcat(space, Concat(first), Concat(Flatten(rest)));
      LettersConcat(space, narration[0], Concat(narration[1..]));
    }
  }

  /** The cues say the narration letter by letter: only white space is dropped. */
  lemma EveryLetterSpoken(space: char -> bool, narration: seq<string>, durations: seq<real>)
    requires |narration| == |durations|
    ensures var cues := Cues(Split(space, narration), durations, 0.0, 1);
      && Letters(space, Concat(Spoken(cues))) == Letters(space, Concat(narration))
      && forall c :: c in cues ==> Trimmed(space, c.sentence)
  {
    hide Cues, Trimmed, Letters, Concat, Split;
    var paragraphs := Split(space, narration);
    var cues := Cues(paragraphs, durations, 0.0, 1);
    EverySentenceSpoken(paragraphs, durations, 0.0, 1);
    FlattenLetters(space, narration);
    FlattenTrimmed(space, narration);
    forall c | c in cues ensures Trimmed(space, c.sentence) {
      var i :| 0 <= i < |cues| && cues[i] == c;
      assert Spoken(cues)[i] in Flatten(paragraphs);
    }
  }

  lemma {:induction false} FlattenTrimmed(space: char -> bool, narration: seq<string>)
    ensures forall s :: s in Flatten(Split(space, narration)) ==> Trimmed(space, s)
  {
    hide SentencesOf, Trimmed;
    if narration != [] {
      FlattenTrimmed(space, narration[1..]);
      SentenceExists(space, narration[0]);
      assert Split(space, narration)[1..] == Split(space, narration[1..]);
    }
  }
}
