/** JSON values as Python's json module holds them in memory. */
module Json {
  import opened Decimal

  datatype Option<+T> = None | Some(value: T)

  /** Characters json.dumps can put in a number. */
  predicate IsNumberChar(c: char) { IsDigit(c) || c == '-' || c == '+' || c == '.' || c == 'e' }

  /** A float keeps its lexeme. Python's repr of a finite float always has a point, or an
      exponent with its sign, so it is never the text of an integer. */
  predicate IsFloatLexeme(s: string) {
    && (forall i :: 0 <= i < |s| ==> IsNumberChar(s[i]))
    && (exists i :: 0 <= i < |s| && (s[i] == '.' || s[i] == '+' || (s[i] == '-' && i > 0)))
    && (IsDigit(s[0]) || s[0] == '-')
  }

  lemma ZeroIsFloatLexeme()
    ensures IsFloatLexeme("0.0")
  {
    assert "0.0"[1] == '.';
  }

  type FloatLexeme = s: string | IsFloatLexeme(s) ghost witness (ZeroIsFloatLexeme(); "0.0")

  /** A Python dict with string keys; insertion order is modelled by Doc in InsertionOrder. */
  type Dict = map<string, Json>

  datatype Json =
    | Null
    | Bool(b: bool)
    | Int(i: int)
    | Float(lexeme: FloatLexeme)
    | Str(s: string)
    | Arr(items: seq<Json>)
    | Obj(members: Dict)
}
