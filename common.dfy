/** Values shared by the server and the client models: optional values, results,
    parsed JSON and the string helpers both sides use (strip/trim, substring). */
module Common {

  datatype Option<T> = None | Some(value: T)

  datatype Result<T, E> = Ok(value: T) | Err(error: E)

  /** A parsed JSON value. Integers and other numbers are kept apart because the
      server distinguishes them with Python's `isinstance(x, int)`. */
  datatype Json =
    | JNull
    | JBool(b: bool)
    | JInt(i: int)
    | JFloat(r: real)
    | JStr(s: string)
    | JArr(items: seq<Json>)
    | JObj(fields: map<string, Json>)

  /** Python truthiness of a parsed JSON value, as `if not x` reads it. */
  predicate Truthy(j: Json)
  {
    match j
    case JNull => false
    case JBool(b) => b
    case JInt(i) => i != 0
    case JFloat(r) => r != 0.0
    case JStr(s) => s != ""
    case JArr(xs) => xs != []
    case JObj(m) => m != map[]
  }

  /** Whose whitespace a trim removes: Python's `str.strip()`, the whitespace Python's
      `int()` skips around a number, or JavaScript's `String.prototype.trim()`. */
  datatype Whitespace = PyStrip | IntArg | JsTrim

  /** The whitespace each kind of trim removes. All remove the ASCII controls tab to
      carriage return, the space, the no-break space, the Unicode space separators
      (category Zs) and the line and paragraph separators. `strip()` also removes the
      information separators U+001C–U+001F and U+0085. `int()` maps every non-ASCII
      whitespace character to a space before skipping ASCII whitespace, so it skips
      U+0085 but not U+001C–U+001F. `trim()` also removes the byte-order mark U+FEFF. */
  predicate IsSpace(c: char, rt: Whitespace)
  {
    || ('\t' <= c <= '\r')
    || c == ' ' || c == '\U{00A0}' || c == '\U{1680}' || ('\U{2000}' <= c <= '\U{200A}')
    || c == '\U{2028}' || c == '\U{2029}' || c == '\U{202F}' || c == '\U{205F}' || c == '\U{3000}'
    || (rt == PyStrip && '\U{001C}' <= c <= '\U{001F}')
    || (rt != JsTrim && c == '\U{0085}')
    || (rt == JsTrim && c == '\U{FEFF}')
  }

  function TrimLeft(s: string, rt: Whitespace): string
  {
    if s != [] && IsSpace(s[0], rt) then TrimLeft(s[1..], rt) else s
  }

  function TrimRight(s: string, rt: Whitespace): string
  {
    if s != [] && IsSpace(s[|s| - 1], rt) then TrimRight(s[..|s| - 1], rt) else s
  }

  /** Trimming on the left drops whitespace only, and exactly up to the first other
      character: the result is a suffix that does not start with whitespace. */
  lemma {:induction false} TrimLeftShape(s: string, rt: Whitespace)
    ensures var r := TrimLeft(s, rt);
      && |r| <= |s| && r == s[|s| - |r|..]
      && (r == [] || !IsSpace(r[0], rt))
      && forall i :: 0 <= i < |s| - |r| ==> IsSpace(s[i], rt)
    decreases |s|
  {
    if s != [] && IsSpace(s[0], rt) {
      TrimLeftShape(s[1..], rt);
    }
  }

  /** The mirror image: a prefix that does not end with whitespace. */
  lemma {:induction false} TrimRightShape(s: string, rt: Whitespace)
    ensures var r := TrimRight(s, rt);
      && |r| <= |s| && r == s[..|r|]
      && (r == [] || !IsSpace(r[|r| - 1], rt))
      && forall i :: |r| <= i < |s| ==> IsSpace(s[i], rt)
    decreases |s|
  {
    if s != [] && IsSpace(s[|s| - 1], rt) {
      TrimRightShape(s[..|s| - 1], rt);
    }
  }

  /** `s.strip()` (Python) / `s.trim()` (JavaScript): drop leading and trailing whitespace. */
  function Trim(s: string, rt: Whitespace): string
  {
    TrimRight(TrimLeft(s, rt), rt)
  }

  /** A string trims to nothing exactly when every character of it is whitespace. */
  lemma TrimEmptyIff(s: string, rt: Whitespace)
    ensures Trim(s, rt) == [] <==> forall i :: 0 <= i < |s| ==> IsSpace(s[i], rt)
  {
    var l := TrimLeft(s, rt);
    TrimLeftShape(s, rt);
    TrimRightShape(l, rt);
    if Trim(s, rt) == [] {
      assert l == [];
    } else {
      var r := Trim(s, rt);
      assert !IsSpace(r[0], rt);
      assert r[0] == l[0] == s[|s| - |l|];
    }
  }

  /** A string that neither starts nor ends with whitespace trims to itself. */
  lemma TrimUnpadded(s: string, rt: Whitespace)
    requires s == [] || (!IsSpace(s[0], rt) && !IsSpace(s[|s| - 1], rt))
    ensures Trim(s, rt) == s
  {
    assert TrimLeft(s, rt) == s;
    assert TrimRight(s, rt) == s;
  }

  /** Trimming leaves a string without outer whitespace unchanged. */
  lemma TrimIdempotent(s: string, rt: Whitespace)
    ensures Trim(Trim(s, rt), rt) == Trim(s, rt)
  {
    var t := Trim(s, rt);
    TrimLeftShape(s, rt);
    TrimRightShape(TrimLeft(s, rt), rt);
    if t != [] {
      assert TrimLeft(t, rt) == t;
      assert TrimRight(t, rt) == t;
    }
  }

  /** Python's `sub in s` on two strings. */
  predicate Contains(s: string, sub: string)
  {
    exists i :: 0 <= i <= |s| - |sub| && OccursAt(s, sub, i)
  }

  predicate OccursAt(s: string, sub: string, i: int)
    requires 0 <= i <= |s| - |sub|
  {
    s[i..i + |sub|] == sub
  }
}
