/** json.dumps with its default ensure_ascii: canonical text in printable ASCII. */
module AsciiJson {
  import opened CanonicalJson
  import opened Decimal
  import opened Json

  predicate Printable(c: char) { ' ' <= c <= '~' }

  /** \\u and four hex digits. */
  function UnicodeEscape(n: nat): string
    requires n < 0x10000
  {
    "\\u" + [HexDigit(n / 4096), HexDigit(n / 256 % 16), HexDigit(n / 16 % 16), HexDigit(n % 16)]
  }

  /** A character outside the printable ones is written as its code, above the first plane as two
      surrogates (section 7 of RFC 8259). */
  function AsciiChar(c: char): string {
    var n := c as int;
    if Printable(c) then [c]
    else if n < 0x10000 then UnicodeEscape(n)
    else UnicodeEscape(0xD800 + (n - 0x10000) / 1024) + UnicodeEscape(0xDC00 + (n - 0x10000) % 1024)
  }

  function Ascii(s: string): string {
    if s == [] then [] else AsciiChar(s[0]) + Ascii(s[1..])
  }

  /** json.dumps(value, separators=(",", ":"), sort_keys=True). */
  function Dumps(j: Json): string { Ascii(Print(j)) }

  predicate AllPrintable(s: string) { forall i :: 0 <= i < |s| ==> Printable(s[i]) }

  /** No control characters; canonical text keeps other characters as they are. */
  predicate NoControl(s: string) { forall i :: 0 <= i < |s| ==> s[i] >= ' ' }

  lemma EscapePrintable(n: nat)
    requires n < 0x10000
    ensures AllPrintable(UnicodeEscape(n))
  {
    HexPrintable(n / 4096);
    HexPrintable(n / 256 % 16);
    HexPrintable(n / 16 % 16);
    HexPrintable(n % 16);
  }

  lemma HexPrintable(d: nat)
    requires d < 16
    ensures Printable(HexDigit(d))
  {
  }

  lemma AsciiCharPrintable(c: char)
    ensures AllPrintable(AsciiChar(c))
  {
    hide UnicodeEscape;
    var n := c as int;
    if !Printable(c) {
      if n < 0x10000 {
        EscapePrintable(n);
      } else {
        EscapePrintable(0xD800 + (n - 0x10000) / 1024);
        EscapePrintable(0xDC00 + (n - 0x10000) % 1024);
      }
    }
  }

  lemma {:induction false} AsciiPrintable(s: string)
    ensures AllPrintable(Ascii(s))
  {
    hide AsciiChar;
    if s != [] {
      AsciiCharPrintable(s[0]);
      AsciiPrintable(s[1..]);
    }
  }

  /** The number four hex digits stand for. */
  function HexNumber(s: string): nat
    requires |s| == 4
  {
    HexValue(s[0]) * 4096 + HexValue(s[1]) * 256 + HexValue(s[2]) * 16 + HexValue(s[3])
  }

  lemma UnicodeReads(n: nat)
    requires n < 0x10000
    ensures var e := UnicodeEscape(n); |e| == 6 && e[..2] == "\\u" && HexNumber(e[2..]) == n
  {
    hide HexDigit, HexValue;
    HexDigitReads(n / 4096);
    HexDigitReads(n / 256 % 16);
    HexDigitReads(n / 16 % 16);
    HexDigitReads(n % 16);
    FourDigits(n);
    assert UnicodeEscape(n)[2..]
      == [HexDigit(n / 4096), HexDigit(n / 256 % 16), HexDigit(n / 16 % 16), HexDigit(n % 16)];
  }

  lemma FourDigits(n: nat)
    ensures n / 4096 * 4096 + n / 256 % 16 * 256 + n / 16 % 16 * 16 + n % 16 == n
  {
    assert n / 16 / 16 == n / 256 && n / 256 / 16 == n / 4096;
  }

  /** A pair of surrogates and what it stands for, by section 3.8 (D71 and D75) of the Unicode standard. */
  predicate IsPair(high: nat, low: nat, n: nat) {
    0xD800 <= high <= 0xDBFF && 0xDC00 <= low <= 0xDFFF && n == 0x10000 + (high - 0xD800) * 0x400 + (low - 0xDC00)
  }

  /** What is written for a character is the character, its code, or the two surrogates that stand for it. */
  lemma AsciiCharReads(c: char)
    ensures var e := AsciiChar(c);
      || (e == [c] && Printable(c))
      || (|e| == 6 && e[..2] == "\\u" && HexNumber(e[2..]) == c as int)
      || (|e| == 12 && e[..2] == "\\u" && e[6..8] == "\\u"
          && IsPair(HexNumber(e[2..6]), HexNumber(e[8..]), c as int))
  {
    hide UnicodeEscape, HexNumber;
    var n := c as int;
    if !Printable(c) {
      if n < 0x10000 {
        UnicodeReads(n);
      } else {
        var a, b := 0xD800 + (n - 0x10000) / 1024, 0xDC00 + (n - 0x10000) % 1024;
        UnicodeReads(a);
        UnicodeReads(b);
        var e := UnicodeEscape(a) + UnicodeEscape(b);
        assert e[..2] == UnicodeEscape(a)[..2] && e[2..6] == UnicodeEscape(a)[2..];
        assert e[6..8] == UnicodeEscape(b)[..2] && e[8..] == UnicodeEscape(b)[2..];
      }
    }
  }

  // ---- the text escaped is the canonical text, so only string contents are ever escaped

  lemma {:induction false} EscapeNoControl(s: string)
    ensures NoControl(Escape(s))
  {
    hide EscapeChar;
    if s != [] {
      EscapeCharNoControl(s[0]);
      EscapeNoControl(s[1..]);
    }
  }

  lemma EscapeCharNoControl(c: char)
    ensures NoControl(EscapeChar(c))
  {
    if c < ' ' {
      HexPrintable(c as int / 16);
      HexPrintable(c as int % 16);
    }
  }

  lemma {:induction false} PrintNoControl(j: Json)
    ensures NoControl(Print(j))
    decreases j, 1, 0
  {
    hide PrintItems, PrintMember, PrintMembers, Escape;
    match j
    case Null => assert NoControl("null");
    case Bool(b) => assert NoControl("true") && NoControl("false");
    case Int(i) => assert IsIntLexeme(IntText(i));
    case Float(x) => assert IsFloatLexeme(x);
    case Str(s) => EscapeNoControl(s);
    case Arr(items) =>
      if items != [] {
        PrintNoControl(items[0]);
        ItemsNoControl(j, 1);
      }
    case Obj(m) =>
      var keys := SortedKeys(m.Keys);
      if keys != [] {
        MemberNoControl(j, keys[0]);
        MembersNoControl(j, keys, 1);
      }
  }

  lemma {:induction false} ItemsNoControl(j: Json, i: nat)
    requires j.Arr? && i <= |j.items|
    ensures NoControl(PrintItems(j, i))
    decreases j, 0, |j.items| - i
  {
    hide Print;
    if i < |j.items| {
      PrintNoControl(j.items[i]);
      ItemsNoControl(j, i + 1);
    }
  }

  lemma {:induction false} MemberNoControl(j: Json, k: string)
    requires j.Obj? && k in j.members
    ensures NoControl(PrintMember(j, k))
    decreases j, 0, 0
  {
    hide Print, Escape;
    EscapeNoControl(k);
    PrintNoControl(j.members[k]);
  }

  lemma {:induction false} MembersNoControl(j: Json, keys: seq<string>, i: nat)
    requires j.Obj? && i <= |keys| && forall k :: k in keys ==> k in j.members
    ensures NoControl(PrintMembers(j, keys, i))
    decreases j, 0, |keys| - i + 1
  {
    hide PrintMember;
    if i < |keys| {
      MemberNoControl(j, keys[i]);
      MembersNoControl(j, keys, i + 1);
    }
  }
}
