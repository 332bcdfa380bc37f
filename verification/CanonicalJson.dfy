module CanonicalJson {
  import opened Decimal
  import opened Json

  // ---- order on keys

  predicate Leq(a: string, b: string) {
    |a| == 0 || (|b| > 0 && (a[0] < b[0] || (a[0] == b[0] && Leq(a[1..], b[1..]))))
  }

  lemma {:induction false} LeqTotal(a: string, b: string)
    ensures Leq(a, b) || Leq(b, a)
  {
    if |a| > 0 && |b| > 0 { LeqTotal(a[1..], b[1..]); }
  }

  lemma {:induction false} LeqAntisymmetric(a: string, b: string)
    requires Leq(a, b) && Leq(b, a)
    ensures a == b
  {
    if |a| > 0 && |b| > 0 {
      LeqAntisymmetric(a[1..], b[1..]);
      assert a == [a[0]] + a[1..] && b == [b[0]] + b[1..];
    }
  }

  lemma {:induction false} LeqTransitive(a: string, b: string, c: string)
    requires Leq(a, b) && Leq(b, c)
    ensures Leq(a, c)
  {
    if |a| > 0 && a[0] == b[0] == c[0] { LeqTransitive(a[1..], b[1..], c[1..]); }
  }

  predicate IsLeast(k: string, keys: set<string>) {
    k in keys && forall o :: o in keys ==> Leq(k, o)
  }

  lemma {:induction false} LeastExists(keys: set<string>)
    requires keys != {}
    ensures exists k :: IsLeast(k, keys)
  {
    var k :| k in keys;
    LeqTotal(k, k);
    if keys == {k} {
      assert IsLeast(k, keys);
    } else {
      var rest := keys - {k};
      LeastExists(rest);
      var m :| IsLeast(m, rest);
      LeqTotal(k, m);
      if Leq(k, m) {
        forall o | o in keys ensures Leq(k, o) {
          if o != k { LeqTransitive(k, m, o); }
        }
        assert IsLeast(k, keys);
      } else {
        assert IsLeast(m, keys);
      }
    }
  }

  function LeastKey(keys: set<string>): (k: string)
    requires keys != {}
    ensures IsLeast(k, keys)
  {
    LeastExists(keys);
    assert forall a, b :: IsLeast(a, keys) && IsLeast(b, keys) ==> a == b by {
      forall a, b | IsLeast(a, keys) && IsLeast(b, keys) ensures a == b {
        LeqAntisymmetric(a, b);
      }
    }
    var k :| k in keys && IsLeast(k, keys);
    k
  }

  predicate Increasing(s: seq<string>) {
    forall i, j :: 0 <= i < j < |s| ==> Leq(s[i], s[j]) && s[i] != s[j]
  }

  function SortedKeys(keys: set<string>): (s: seq<string>)
    ensures Increasing(s)
    ensures forall k :: k in s <==> k in keys
  {
    if keys == {} then [] else
      var k := LeastKey(keys);
      [k] + SortedKeys(keys - {k})
  }

  // ---- printer

  function HexDigit(d: nat): char
    requires d < 16
  {
    "0123456789abcdef"[d]
  }

  function EscapeChar(c: char): string {
    if c == '"' then "\\\""
    else if c == '\\' then "\\\\"
    else if c == '\n' then "\\n"
    else if c == '\r' then "\\r"
    else if c == '\t' then "\\t"
    else if c == 8 as char then "\\b"
    else if c == 12 as char then "\\f"
    else if c < ' ' then "\\u00" + [HexDigit(c as int / 16), HexDigit(c as int % 16)]
    else [c]
  }

  function Escape(s: string): string {
    if s == [] then [] else EscapeChar(s[0]) + Escape(s[1..])
  }

  function Quote(s: string): string { "\"" + Escape(s) + "\"" }

  /** canonical_bytes: sorted keys, no spaces, non-ASCII kept. */
  function Print(j: Json): string
    decreases j, 1, 0
  {
    match j
    case Null => "null"
    case Bool(b) => if b then "true" else "false"
    case Int(i) => IntText(i)
    case Float(x) => x
    case Str(s) => Quote(s)
    case Arr(items) => if items == [] then "[]" else "[" + Print(items[0]) + PrintItems(j, 1)
    case Obj(m) =>
      var keys := SortedKeys(m.Keys);
      if keys == [] then "{}" else "{" + PrintMember(j, keys[0]) + PrintMembers(j, keys, 1)
  }

  /** Elements i, i+1, ... of an array, each after a comma, and the closing bracket. */
  function PrintItems(j: Json, i: nat): string
    requires j.Arr? && i <= |j.items|
    decreases j, 0, |j.items| - i
  {
    if i == |j.items| then "]" else "," + Print(j.items[i]) + PrintItems(j, i + 1)
  }

  function PrintMember(j: Json, k: string): string
    requires j.Obj? && k in j.members
    decreases j, 0, 0
  {
    Quote(k) + ":" + Print(j.members[k])
  }

  function PrintMembers(j: Json, keys: seq<string>, i: nat): string
    requires j.Obj? && i <= |keys| && forall k :: k in keys ==> k in j.members
    decreases j, 0, |keys| - i + 1
  {
    if i == |keys| then "}" else "," + PrintMember(j, keys[i]) + PrintMembers(j, keys, i + 1)
  }

  // ---- reader of canonical text

  datatype Parsed<+T> = Fail | Done(value: T, rest: string)

  function HexValue(c: char): (d: nat)
    ensures d <= 16
  {
    if IsDigit(c) then DigitValue(c) else if 'a' <= c <= 'f' then c as int - 'a' as int + 10 else 16
  }

  /** One character of a string body, escaped or plain. */
  function ReadChar(s: string): (p: Parsed<char>)
    requires s != []
    ensures p.Done? ==> |p.rest| < |s|
  {
    if s[0] != '\\' then
      if s[0] < ' ' || s[0] == '"' then Fail else Done(s[0], s[1..])
    else if |s| < 2 then Fail
    else if s[1] == '"' || s[1] == '\\' then Done(s[1], s[2..])
    else if s[1] == 'n' then Done('\n', s[2..])
    else if s[1] == 'r' then Done('\r', s[2..])
    else if s[1] == 't' then Done('\t', s[2..])
    else if s[1] == 'b' then Done(8 as char, s[2..])
    else if s[1] == 'f' then Done(12 as char, s[2..])
    else if s[1] == 'u' && |s| >= 6 && s[2] == '0' == s[3] && HexValue(s[4]) < 8 && HexValue(s[5]) < 16 then
      Done((HexValue(s[4]) * 16 + HexValue(s[5])) as char, s[6..])
    else Fail
  }

  /** The rest of a string after its opening quote. */
  function ReadText(s: string): (p: Parsed<string>)
    ensures p.Done? ==> |p.rest| < |s|
  {
    if s == [] then Fail
    else if s[0] == '"' then Done([], s[1..])
    else
      match ReadChar(s)
      case Fail => Fail
      case Done(c, rest) =>
        match ReadText(rest)
        case Fail => Fail
        case Done(text, rest') => Done([c] + text, rest')
  }

  function TokenLength(s: string): (n: nat)
    ensures n <= |s|
  {
    if s == [] || !IsNumberChar(s[0]) then 0 else 1 + TokenLength(s[1..])
  }

  function ReadNumber(s: string): (p: Parsed<Json>)
    ensures p.Done? ==> |p.rest| < |s|
  {
    var n := TokenLength(s);
    var token := s[..n];
    if IsIntLexeme(token) then Done(Int(IntValue(token)), s[n..])
    else if n > 0 && IsFloatLexeme(token) then Done(Float(token), s[n..])
    else Fail
  }

  function ReadValue(s: string): (p: Parsed<Json>)
    ensures p.Done? ==> |p.rest| < |s|
    decreases |s|, 1
  {
    if s == [] then Fail
    else if s[0] == '"' then
      match ReadText(s[1..])
      case Fail => Fail
      case Done(text, rest) => Done(Str(text), rest)
    else if s[0] == '[' then
      if |s| > 1 && s[1] == ']' then Done(Arr([]), s[2..])
      else
        match ReadValue(s[1..])
        case Fail => Fail
        case Done(v, rest) => ReadItems([v], rest)
    else if s[0] == '{' then
      if |s| > 1 && s[1] == '}' then Done(Obj(map[]), s[2..])
      else
        match ReadMember(s[1..])
        case Fail => Fail
        case Done((k, v), rest) => ReadMembers(map[k := v], rest)
    else if "null" <= s then Done(Null, s[4..])
    else if "true" <= s then Done(Bool(true), s[4..])
    else if "false" <= s then Done(Bool(false), s[5..])
    else ReadNumber(s)
  }

  function ReadItems(acc: seq<Json>, s: string): (p: Parsed<Json>)
    ensures p.Done? ==> |p.rest| < |s|
    decreases |s|, 0
  {
    if s == [] then Fail
    else if s[0] == ']' then Done(Arr(acc), s[1..])
    else if s[0] == ',' then
      match ReadValue(s[1..])
      case Fail => Fail
      case Done(v, rest) => ReadItems(acc + [v], rest)
    else Fail
  }

  function ReadMember(s: string): (p: Parsed<(string, Json)>)
    ensures p.Done? ==> |p.rest| < |s|
    decreases |s|, 0
  {
    if s == [] || s[0] != '"' then Fail
    else
      match ReadText(s[1..])
      case Fail => Fail
      case Done(k, rest) =>
        if rest == [] || rest[0] != ':' then Fail
        else
          match ReadValue(rest[1..])
          case Fail => Fail
          case Done(v, rest') => Done((k, v), rest')
  }

  function ReadMembers(acc: Dict, s: string): (p: Parsed<Json>)
    ensures p.Done? ==> |p.rest| < |s|
    decreases |s|, 0
  {
    if s == [] then Fail
    else if s[0] == '}' then Done(Obj(acc), s[1..])
    else if s[0] == ',' then
      match ReadMember(s[1..])
      case Fail => Fail
      case Done((k, v), rest) => ReadMembers(acc[k := v], rest)
    else Fail
  }

  // ---- the reader recovers what the printer wrote

  lemma ReadEscapedChar(c: char, rest: string)
    ensures EscapeChar(c) != [] && EscapeChar(c)[0] != '"'
    ensures ReadChar(EscapeChar(c) + rest) == Done(c, rest)
  {
    hide HexDigit, HexValue;
    var e := EscapeChar(c);
    var s := e + rest;
    assert s[0] == e[0] && s[|e|..] == rest;
    if |e| == 6 {
      ReadControlChar(c, rest);
    } else if |e| == 2 {
      assert s[1] == e[1];
    }
  }

  lemma ReadControlChar(c: char, rest: string)
    requires c < ' '
    ensures var e := "\\u00" + [HexDigit(c as int / 16), HexDigit(c as int % 16)];
      ReadChar(e + rest) == Done(c, rest)
  {
    hide HexDigit, HexValue;
    var h, l := HexDigit(c as int / 16), HexDigit(c as int % 16);
    var s := "\\u00" + [h, l] + rest;
    HexDigitReads(c as int / 16);
    HexDigitReads(c as int % 16);
    assert s[0] == '\\' && s[1] == 'u' && s[2] == '0' == s[3] && s[4] == h && s[5] == l && s[6..] == rest;
  }

  lemma HexDigitReads(d: nat)
    requires d < 16
    ensures HexValue(HexDigit(d)) == d
  {
  }

  lemma {:induction false} ReadEscapedText(text: string, rest: string)
    ensures ReadText(Escape(text) + "\"" + rest) == Done(text, rest)
  {
    var s := Escape(text) + "\"" + rest;
    if text == [] {
      assert s == "\"" + rest;
    } else {
      var tail := Escape(text[1..]) + "\"" + rest;
      assert s == EscapeChar(text[0]) + tail;
      ReadEscapedChar(text[0], tail);
      ReadEscapedText(text[1..], rest);
      assert [text[0]] + text[1..] == text;
    }
  }

  /** What may follow a value in canonical text: nothing, or a character no number contains. */
  predicate Stops(rest: string) { rest == [] || !IsNumberChar(rest[0]) }

  lemma {:induction false} TokenStops(token: string, rest: string)
    requires forall i :: 0 <= i < |token| ==> IsNumberChar(token[i])
    requires Stops(rest)
    ensures TokenLength(token + rest) == |token|
  {
    if token == [] {
      assert token + rest == rest;
    } else {
      assert (token + rest)[1..] == token[1..] + rest;
      TokenStops(token[1..], rest);
    }
  }

  lemma ReadPrintedNumber(j: Json, rest: string)
    requires j.Int? || j.Float?
    requires Stops(rest)
    ensures ReadValue(Print(j) + rest) == Done(j, rest)
  {
    var token := Print(j);
    if j.Int? { IntValueOfText(j.i); }
    assert forall i :: 0 <= i < |token| ==> IsNumberChar(token[i]) by {
      if j.Int? && j.i < 0 {
        assert token[1..] == Digits(-j.i);
        assert forall i :: 0 < i < |token| ==> token[i] == token[1..][i - 1];
      }
    }
    TokenStops(token, rest);
    var s := token + rest;
    assert s[0] == token[0];
    assert s[..|token|] == token && s[|token|..] == rest;
    assert IsDigit(token[0]) || token[0] == '-';
    assert "null"[0] == 'n' && "true"[0] == 't' && "false"[0] == 'f';
    if j.Float? {
      FloatIsNotInt(j.lexeme);
    }
  }

  lemma FloatIsNotInt(x: FloatLexeme)
    ensures !IsIntLexeme(x)
  {
    var i :| 0 <= i < |x| && (x[i] == '.' || x[i] == '+' || (x[i] == '-' && i > 0));
    if x[0] == '-' && i > 0 { assert x[1..][i - 1] == x[i]; }
  }

  lemma ReadPrintedWord(j: Json, rest: string)
    requires j.Null? || j.Bool?
    ensures ReadValue(Print(j) + rest) == Done(j, rest)
  {
    var s := Print(j) + rest;
    var n := |Print(j)|;
    assert s[..n] == Print(j) && s[n..] == rest;
    assert "null"[0] == 'n' && "true"[0] == 't' && "false"[0] == 'f';
    assert s[0] == Print(j)[0];
  }

  lemma {:induction false} ReadPrinted(j: Json, rest: string)
    requires Stops(rest)
    ensures ReadValue(Print(j) + rest) == Done(j, rest)
    decreases j, 1, 0
  {
    match j
    case Null => ReadPrintedWord(j, rest);
    case Bool(_) => ReadPrintedWord(j, rest);
    case Int(_) => ReadPrintedNumber(j, rest);
    case Float(_) => ReadPrintedNumber(j, rest);
    case Str(text) =>
      assert (Print(j) + rest)[1..] == Escape(text) + "\"" + rest;
      ReadEscapedText(text, rest);
    case Arr(_) => ReadPrintedArray(j, rest);
    case Obj(m) =>
      var keys := SortedKeys(m.Keys);
      if keys == [] {
        assert m == map[];
        ReadPrintedEmpty(rest);
      } else {
        ReadPrintedObject(j, keys, rest);
      }
  }

  lemma {:induction false} ReadPrintedArray(j: Json, rest: string)
    requires j.Arr? && Stops(rest)
    ensures ReadValue(Print(j) + rest) == Done(j, rest)
    decreases j, 0, |j.items| + 2
  {
    if j.items == [] {
      assert (Print(j) + rest)[2..] == rest;
    } else {
      var tail := PrintItems(j, 1) + rest;
      PrintedArray(j, rest);
      hide ReadValue, Print, ReadItems, PrintItems;
      PrintStarts(j.items[0]);
      ReadPrintedItems(j, 1, rest);
      ReadPrinted(j.items[0], tail);
      ReadArrayHead(Print(j.items[0]) + tail, tail, j.items[0]);
      assert [j.items[0]] == j.items[..1];
    }
  }

  lemma ReadArrayHead(text: string, tail: string, v: Json)
    requires text != [] && text[0] != ']' && ReadValue(text) == Done(v, tail)
    ensures ReadValue("[" + text) == ReadItems([v], tail)
  {
    hide ReadItems, ReadNumber, ReadText, ReadMember, ReadMembers;
    assert ("[" + text)[1..] == text;
  }

  lemma PrintedArray(j: Json, rest: string)
    requires j.Arr? && j.items != []
    ensures Print(j) + rest == "[" + (Print(j.items[0]) + (PrintItems(j, 1) + rest))
  {
    hide PrintItems;
  }

  lemma ReadObjectHead(first: string, tail: string, k: string, v: Json)
    requires first != [] && first[0] == '"'
    requires ReadMember(first + tail) == Done((k, v), tail)
    ensures ReadValue("{" + first + tail) == ReadMembers(map[k := v], tail)
  {
    hide ReadMember, ReadMembers, ReadItems, ReadNumber, ReadText;
    var s := "{" + first + tail;
    assert s[1..] == first + tail;
    assert s[1] == first[0];
  }

  lemma PrintedObject(j: Json, keys: seq<string>, rest: string)
    requires j.Obj? && keys == SortedKeys(j.members.Keys) && keys != []
    ensures Print(j) + rest == "{" + PrintMember(j, keys[0]) + (PrintMembers(j, keys, 1) + rest)
  {
  }

  lemma ReadPrintedEmpty(rest: string)
    ensures ReadValue(Print(Obj(map[])) + rest) == Done(Obj(map[]), rest)
  {
    assert SortedKeys({}) == [];
    assert ("{}" + rest)[2..] == rest;
  }

  lemma {:induction false} ReadPrintedObject(j: Json, keys: seq<string>, rest: string)
    requires j.Obj? && keys == SortedKeys(j.members.Keys) && keys != [] && Stops(rest)
    ensures ReadValue(Print(j) + rest) == Done(j, rest)
    decreases j, 0, |keys| + 2
  {
    hide ReadValue, Print, PrintMember, PrintMembers, ReadMembers, ReadMember, Taken, SortedKeys;
    var m := j.members;
    SortedKeysName(j);
    TakenEnds(m, keys);
    var tail := PrintMembers(j, keys, 1) + rest;
    ReadPrintedMembers(j, keys, 1, rest);
    ReadPrintedMember(j, keys[0], tail);
    ReadObjectHead(PrintMember(j, keys[0]), tail, keys[0], m[keys[0]]);
    PrintedObject(j, keys, rest);
  }

  lemma SortedKeysName(j: Json)
    requires j.Obj?
    ensures forall k :: k in SortedKeys(j.members.Keys) <==> k in j.members
  {
    hide SortedKeys;
  }

  lemma TakenEnds(m: Dict, keys: seq<string>)
    requires keys != [] && forall k :: k in keys <==> k in m
    ensures Taken(m, keys, 1) == map[keys[0] := m[keys[0]]]
    ensures Taken(m, keys, |keys|) == m
  {
    assert keys[..1] == [keys[0]] && keys[..|keys|] == keys;
  }

  lemma PrintStarts(j: Json)
    ensures Print(j) != [] && Print(j)[0] != ']'
  {
    if j.Bool? { assert "true"[0] == 't' && "false"[0] == 'f'; }
    if j.Null? { assert "null"[0] == 'n'; }
  }

  lemma {:induction false} ReadPrintedItems(j: Json, i: nat, rest: string)
    requires j.Arr? && i <= |j.items|
    ensures ReadItems(j.items[..i], PrintItems(j, i) + rest) == Done(j, rest)
    ensures Stops(PrintItems(j, i) + rest)
    decreases j, 0, |j.items| - i
  {
    hide ReadValue, Print;
    if i == |j.items| {
      assert ("]" + rest)[1..] == rest && j.items[..i] == j.items;
    } else {
      hide ReadItems;
      var tail := PrintItems(j, i + 1) + rest;
      assert PrintItems(j, i) + rest == "," + (Print(j.items[i]) + tail);
      ReadPrintedItems(j, i + 1, rest);
      ReadPrinted(j.items[i], tail);
      ReadNextItem(j.items[..i], j.items[i], Print(j.items[i]), tail);
      assert j.items[..i] + [j.items[i]] == j.items[..i + 1];
    }
  }

  lemma ReadNextItem(acc: seq<Json>, v: Json, text: string, tail: string)
    requires ReadValue(text + tail) == Done(v, tail)
    ensures ReadItems(acc, "," + (text + tail)) == ReadItems(acc + [v], tail)
  {
    hide ReadValue;
    assert ("," + (text + tail))[1..] == text + tail;
  }

  lemma {:induction false} ReadPrintedMember(j: Json, k: string, rest: string)
    requires j.Obj? && k in j.members
    requires Stops(rest)
    ensures PrintMember(j, k) != [] && PrintMember(j, k)[0] == '"'
    ensures ReadMember(PrintMember(j, k) + rest) == Done((k, j.members[k]), rest)
    decreases j, 0, 0
  {
    var v := Print(j.members[k]) + rest;
    PrintedMember(j, k, rest);
    ReadPrinted(j.members[k], rest);
    ReadMemberParts(k, j.members[k], v, rest);
  }

  lemma PrintedMember(j: Json, k: string, rest: string)
    requires j.Obj? && k in j.members
    ensures PrintMember(j, k) != [] && PrintMember(j, k)[0] == '"'
    ensures PrintMember(j, k) + rest == "\"" + (Escape(k) + "\"" + (":" + (Print(j.members[k]) + rest)))
  {
    hide Escape, Print;
  }

  lemma ReadMemberParts(k: string, value: Json, v: string, rest: string)
    requires ReadValue(v) == Done(value, rest)
    ensures ReadMember("\"" + (Escape(k) + "\"" + (":" + v))) == Done((k, value), rest)
  {
    hide Escape, ReadText, ReadValue;
    var tail := Escape(k) + "\"" + (":" + v);
    assert ("\"" + tail)[1..] == tail && (":" + v)[1..] == v;
    ReadEscapedText(k, ":" + v);
  }

  /** The members of m named by the first i keys. */
  function Taken(m: Dict, keys: seq<string>, i: nat): Dict
    requires i <= |keys| && forall k :: k in keys ==> k in m
  {
    map k | k in keys[..i] :: m[k]
  }

  lemma {:induction false} ReadPrintedMembers(j: Json, keys: seq<string>, i: nat, rest: string)
    requires j.Obj? && i <= |keys| && forall k :: k in keys ==> k in j.members
    ensures ReadMembers(Taken(j.members, keys, i), PrintMembers(j, keys, i) + rest)
         == Done(Obj(Taken(j.members, keys, |keys|)), rest)
    ensures Stops(PrintMembers(j, keys, i) + rest)
    decreases j, 0, |keys| - i + 1
  {
    hide ReadMember, PrintMember;
    if i == |keys| {
      assert ("}" + rest)[1..] == rest;
    } else {
      hide ReadMembers;
      var tail := PrintMembers(j, keys, i + 1) + rest;
      assert PrintMembers(j, keys, i) + rest == "," + (PrintMember(j, keys[i]) + tail);
      ReadPrintedMembers(j, keys, i + 1, rest);
      ReadPrintedMember(j, keys[i], tail);
      ReadNextMember(Taken(j.members, keys, i), keys[i], j.members[keys[i]], PrintMember(j, keys[i]), tail);
      assert Taken(j.members, keys, i)[keys[i] := j.members[keys[i]]] == Taken(j.members, keys, i + 1);
    }
  }

  lemma ReadNextMember(acc: Dict, k: string, v: Json, text: string, tail: string)
    requires ReadMember(text + tail) == Done((k, v), tail)
    ensures ReadMembers(acc, "," + (text + tail)) == ReadMembers(acc[k := v], tail)
  {
    hide ReadMember;
    assert ("," + (text + tail))[1..] == text + tail;
  }

  /** Reading canonical bytes back gives exactly the value that was printed. */
  lemma ReadBack(j: Json)
    ensures ReadValue(Print(j)) == Done(j, [])
  {
    ReadPrinted(j, []);
    assert Print(j) + [] == Print(j);
  }

  /** Equal canonical bytes mean equal values. */
  lemma PrintInjective(a: Json, b: Json)
    requires Print(a) == Print(b)
    ensures a == b
  {
    ReadBack(a);
    ReadBack(b);
  }
}
