/** How the scripts read untyped JSON: ==, str(), int(), .get(), and the library calls they make. */
module PythonValues {
  import opened Decimal
  import opened Json

  // ---- patterns over digests

  predicate IsHexChar(c: char) { IsDigit(c) || 'a' <= c <= 'f' }

  predicate IsHex(s: string, n: nat) { |s| == n && forall i :: 0 <= i < |s| ==> IsHexChar(s[i]) }

  /** ^[0-9a-f]{40}$ under fullmatch. */
  predicate IsSha1(s: string) { IsHex(s, 40) }

  /** ^[0-9a-f]{64}$ under fullmatch. */
  predicate IsSha256(s: string) { IsHex(s, 64) }

  function Zeros(n: nat): (s: string)
    ensures IsHex(s, n)
  {
    seq(n, i => '0')
  }

  type Hex64 = s: string | IsSha256(s) witness Zeros(64)

  /** Calls into code outside the repository. Every result holds for all choices of them. */
  datatype Runtime = Runtime(
    digest: Json -> Hex64,                // SHA-256 of the canonical bytes of a value
    sha: string -> Hex64,                 // SHA-256 of raw bytes
    floatValue: FloatLexeme -> real,
    isRepr: FloatLexeme -> bool,          // some float is printed this way: 1.5 and 1e+16, but not 1.50
    parseInt: string -> Option<int>,      // int() of a string
    sensitive: string -> bool,            // SENSITIVE_KEY_PATTERN.search
    scriptIntegrity: string -> string,    // base64 of the bytes a hex digest spells
    isSpace: char -> bool)                // str.isspace

  function Get(o: Dict, k: string): Json { if k in o then o[k] else Null }

  function GetOr(o: Dict, k: string, default: Json): Json { if k in o then o[k] else default }

  // ---- ==

  predicate IsNumber(j: Json) { j.Bool? || j.Int? || j.Float? }

  function NumberOf(rt: Runtime, j: Json): real
    requires IsNumber(j)
  {
    match j
    case Bool(b) => if b then 1.0 else 0.0
    case Int(i) => i as real
    case Float(x) => rt.floatValue(x)
  }

  /** A scalar that json.loads can return: a float is known only by what repr prints for it. */
  predicate InPython(rt: Runtime, j: Json) { j.Float? ==> rt.isRepr(j.lexeme) }

  /** Python ==, under which True, 1 and 1.0 are equal. */
  predicate PyEq(rt: Runtime, a: Json, b: Json)
    decreases a
  {
    if IsNumber(a) && IsNumber(b) then NumberOf(rt, a) == NumberOf(rt, b)
    else if a.Arr? && b.Arr? then
      |a.items| == |b.items| && forall i :: 0 <= i < |a.items| ==> PyEq(rt, a.items[i], b.items[i])
    else if a.Obj? && b.Obj? then
      a.members.Keys == b.members.Keys && forall k :: k in a.members ==> PyEq(rt, a.members[k], b.members[k])
    else a == b
  }

  lemma {:induction false} PyEqReflexive(rt: Runtime, a: Json)
    ensures PyEq(rt, a, a)
  {
    if a.Arr? {
      forall i | 0 <= i < |a.items| ensures PyEq(rt, a.items[i], a.items[i]) {
        PyEqReflexive(rt, a.items[i]);
      }
    } else if a.Obj? {
      forall k | k in a.members ensures PyEq(rt, a.members[k], a.members[k]) {
        PyEqReflexive(rt, a.members[k]);
      }
    }
  }

  // ---- str() and int()

  /** str(): for arrays and objects only the opening bracket is kept, which no pattern accepts. */
  function PyStr(j: Json): string {
    match j
    case Null => "None"
    case Bool(b) => if b then "True" else "False"
    case Int(i) => IntText(i)
    case Float(x) => x
    case Str(s) => s
    case Arr(_) => "["
    case Obj(_) => "{"
  }

  /** int(): truncates floats toward zero, fails on None and containers. */
  function PyInt(rt: Runtime, j: Json): Option<int> {
    match j
    case Bool(b) => Some(if b then 1 else 0)
    case Int(i) => Some(i)
    case Float(x) =>
      var v := rt.floatValue(x);
      Some(if v >= 0.0 then v.Floor else -(-v).Floor)
    case Str(s) => rt.parseInt(s)
    case _ => None
  }

  /** int() drops the fraction: the result is next to the float, on the side of zero. */
  lemma PyIntTruncates(rt: Runtime, x: FloatLexeme)
    ensures var v := rt.floatValue(x); var i := PyInt(rt, Float(x));
      && i.Some?
      && (v >= 0.0 ==> 0 <= i.value && i.value as real <= v < i.value as real + 1.0)
      && (v <= 0.0 ==> i.value <= 0 && i.value as real - 1.0 < v <= i.value as real)
  {
  }

  predicate IntAtLeast(rt: Runtime, j: Json, n: int) {
    PyInt(rt, j).Some? && PyInt(rt, j).value >= n
  }

  predicate IntIs(rt: Runtime, j: Json, n: int) { PyInt(rt, j) == Some(n) }

  lemma FloatIsNotHex(x: FloatLexeme, n: nat)
    ensures !IsHex(x, n)
  {
    var i :| 0 <= i < |x| && (x[i] == '.' || x[i] == '+' || (x[i] == '-' && i > 0));
    assert !IsHexChar(x[i]);
  }

  /** Text of a digest is only ever text, except that an all-digit digest may be stored as an integer. */
  lemma HexTextSource(j: Json, n: nat)
    requires IsHex(PyStr(j), n) && n >= 6
    ensures j.Str? || j.Int?
  {
    if j.Float? { FloatIsNotHex(j.lexeme, n); }
  }
}
