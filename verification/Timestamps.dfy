/** _timestamp of the demo video builder, in exact arithmetic, and its reader. */
module Timestamps {
  import opened Decimal
  import opened Json

  /** Python's round(): to the nearest integer, ties to even. */
  function Round(x: real): int {
    var f := x.Floor;
    var d := x - f as real;
    if d < 0.5 || (d == 0.5 && f % 2 == 0) then f else f + 1
  }

  function Milliseconds(seconds: real): int { Round(seconds * 1000.0) }

  function ZeroPad(s: string, width: nat): string {
    if |s| >= width then s else seq(width - |s|, i => '0') + s
  }

  /** f"{i:0{width}d}". */
  function Padded(i: int, width: nat): string {
    if i >= 0 then ZeroPad(Digits(i), width)
    else "-" + ZeroPad(Digits(-i), if width == 0 then 0 else width - 1)
  }

  /** _timestamp; // and % by a positive divisor floor, as divmod does. */
  function Timestamp(seconds: real): string {
    var ms := Milliseconds(seconds);
    var remainder := ms % 3_600_000;
    Padded(ms / 3_600_000, 2) + ":" + Padded(remainder / 60_000, 2) + ":"
      + Padded(remainder % 60_000 / 1_000, 2) + "," + Padded(remainder % 60_000 % 1_000, 3)
  }

  /** Reads HH:MM:SS,mmm as SubRip defines it: two or more digits of hours, minutes and seconds below 60. */
  function ReadTimestamp(s: string): Option<nat> {
    var n := |s|;
    if n < 12 || s[n - 10] != ':' || s[n - 7] != ':' || s[n - 4] != ',' then None
    else
      var hours, minutes, seconds, millis := s[..n - 10], s[n - 9..n - 7], s[n - 6..n - 4], s[n - 3..];
      if !AllDigits(hours) || !AllDigits(minutes) || !AllDigits(seconds) || !AllDigits(millis) then None
      else if Number(minutes) >= 60 || Number(seconds) >= 60 then None
      else Some(Number(hours) * 3_600_000 + Number(minutes) * 60_000 + Number(seconds) * 1_000 + Number(millis))
  }

  lemma {:induction false} ZerosAreNothing(k: nat, s: string)
    requires AllDigits(s)
    ensures AllDigits(seq(k, i => '0') + s) && Number(seq(k, i => '0') + s) == Number(s)
    decreases |s|
  {
    var z := seq(k, i => '0');
    if s == [] {
      ZerosAreZero(k);
      assert z + s == z;
    } else {
      ZerosAreNothing(k, s[..|s| - 1]);
      assert (z + s)[..|z + s| - 1] == z + s[..|s| - 1];
    }
  }

  lemma {:induction false} ZerosAreZero(k: nat)
    ensures AllDigits(seq(k, i => '0')) && Number(seq(k, i => '0')) == 0
  {
    if k > 0 {
      ZerosAreZero(k - 1);
      assert seq(k, i => '0')[..k - 1] == seq(k - 1, i => '0');
    }
  }

  /** 10 to the power width. */
  function Power10(width: nat): nat { if width == 0 then 1 else 10 * Power10(width - 1) }

  lemma {:induction false} DigitsFit(n: nat, width: nat)
    requires width >= 1 && n < Power10(width)
    ensures |Digits(n)| <= width
  {
    assert Power10(width) == 10 * Power10(width - 1) && Power10(0) == 1;
    if n >= 10 { DigitsFit(n / 10, width - 1); }
  }

  lemma PaddedReads(n: nat, width: nat)
    requires width >= 1
    ensures AllDigits(Padded(n, width)) && Number(Padded(n, width)) == n && |Padded(n, width)| >= width
    ensures n < Power10(width) ==> |Padded(n, width)| == width
  {
    NumberOfDigits(n);
    if |Digits(n)| < width { ZerosAreNothing(width - |Digits(n)|, Digits(n)); }
    if n < Power10(width) { DigitsFit(n, width); }
  }

  lemma Powers()
    ensures Power10(2) == 100 && Power10(3) == 1000
  {
    assert Power10(1) == 10 * Power10(0) && Power10(2) == 10 * Power10(1) && Power10(3) == 10 * Power10(2);
  }

  /** Text with fields of the right width reads back field by field. */
  lemma FieldsRead(h: string, m: string, s: string, f: string)
    requires |h| >= 2 && |m| == 2 && |s| == 2 && |f| == 3
    requires AllDigits(h) && AllDigits(m) && AllDigits(s) && AllDigits(f) && Number(m) < 60 && Number(s) < 60
    ensures ReadTimestamp(h + ":" + m + ":" + s + "," + f)
         == Some(Number(h) * 3_600_000 + Number(m) * 60_000 + Number(s) * 1_000 + Number(f))
  {
    hide AllDigits, Number, ReadTimestamp;
    Slices(h, m, s, f);
    SlicesRead(h + ":" + m + ":" + s + "," + f, h, m, s, f);
  }

  lemma SlicesRead(t: string, h: string, m: string, s: string, f: string)
    requires |t| >= 12 && t[|t| - 10] == ':' && t[|t| - 7] == ':' && t[|t| - 4] == ','
    requires t[..|t| - 10] == h && t[|t| - 9..|t| - 7] == m && t[|t| - 6..|t| - 4] == s && t[|t| - 3..] == f
    requires AllDigits(h) && AllDigits(m) && AllDigits(s) && AllDigits(f) && Number(m) < 60 && Number(s) < 60
    ensures ReadTimestamp(t) == Some(Number(h) * 3_600_000 + Number(m) * 60_000 + Number(s) * 1_000 + Number(f))
  {
    hide AllDigits, Number;
  }

  lemma Slices(h: string, m: string, s: string, f: string)
    requires |m| == 2 && |s| == 2 && |f| == 3
    ensures var t := h + ":" + m + ":" + s + "," + f; var n := |t|;
      && n == |h| + 10 && t[n - 10] == ':' && t[n - 7] == ':' && t[n - 4] == ','
      && t[..n - 10] == h && t[n - 9..n - 7] == m && t[n - 6..n - 4] == s && t[n - 3..] == f
  {
    var a := h + ":" + m;
    var b := a + ":" + s;
    var t := b + "," + f;
    var n := |t|;
    assert t[..|b|] == b && b[..|a|] == a && a[..|h|] == h;
    assert t[n - 3..] == f;
    assert t[n - 6..n - 4] == b[|a| + 1..] == s;
    assert t[n - 9..n - 7] == a[|h| + 1..] == m;
    assert t[..n - 10] == a[..|h|];
  }

  lemma RoundNearest(x: real)
    ensures -0.5 <= Round(x) as real - x <= 0.5
  {
  }

  /** No integer is nearer, and of two that are as near it is the even one. */
  lemma RoundIsPythons(x: real, n: int)
    requires n != Round(x)
    ensures var d, e := Round(x) as real - x, n as real - x;
      && (if d < 0.0 then -d else d) <= (if e < 0.0 then -e else e)
      && ((if d < 0.0 then -d else d) == (if e < 0.0 then -e else e) ==> Round(x) % 2 == 0)
  {
    var f := x.Floor;
    assert n <= f || n >= f + 1;
  }

  lemma RoundMonotone(x: real, y: real)
    requires x <= y
    ensures Round(x) <= Round(y)
  {
    assert x.Floor <= y.Floor;
  }

  /** Reading the printed form gives the rounded milliseconds, so every field was in range. */
  lemma TimestampReads(t: real)
    requires t >= 0.0
    ensures Milliseconds(t) >= 0 && ReadTimestamp(Timestamp(t)) == Some(Milliseconds(t))
  {
    hide Padded, ReadTimestamp, Number, AllDigits;
    assert Milliseconds(t) >= 0;
    var ms: nat := Milliseconds(t);
    var r := ms % 3_600_000;
    Powers();
    PaddedReads(ms / 3_600_000, 2);
    PaddedReads(r / 60_000, 2);
    PaddedReads(r % 60_000 / 1_000, 2);
    PaddedReads(r % 60_000 % 1_000, 3);
    FieldsRead(Padded(ms / 3_600_000, 2), Padded(r / 60_000, 2), Padded(r % 60_000 / 1_000, 2),
      Padded(r % 60_000 % 1_000, 3));
  }

  /** Printed times keep their order, are off by at most half a millisecond, and tell apart exactly the
      times that round differently. */
  lemma TimestampFaithful(t: real, u: real)
    requires 0.0 <= t <= u
    ensures var a, b := ReadTimestamp(Timestamp(t)), ReadTimestamp(Timestamp(u));
      && a.Some? && b.Some? && a.value <= b.value
      && -0.5 <= a.value as real - t * 1000.0 <= 0.5
    ensures Timestamp(t) == Timestamp(u) <==> Milliseconds(t) == Milliseconds(u)
  {
    hide Timestamp, ReadTimestamp, Round;
    TimestampReads(t);
    TimestampReads(u);
    RoundMonotone(t * 1000.0, u * 1000.0);
    RoundNearest(t * 1000.0);
    if Milliseconds(t) == Milliseconds(u) { SameText(t, u); }
  }

  lemma SameText(t: real, u: real)
    requires Milliseconds(t) == Milliseconds(u)
    ensures Timestamp(t) == Timestamp(u)
  {
    hide Padded, Milliseconds;
  }
}
