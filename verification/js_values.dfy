/**
  The few JavaScript value notions the route handlers and the `Ventas` class rely on:
  numbers with NaN and the infinities, the values a JSON request body can carry,
  truthiness, strict equality on numbers, and `String.prototype.trim`.
 */
module JsValues {

  datatype Option<+T> = None | Some(value: T)

  datatype Result<+T, +E> = Ok(value: T) | Err(error: E)

  /** A JavaScript number. Finite numbers are idealised as unbounded reals (no rounding). */
  datatype Num = Finite(x: real) | NaN | Infinity(negative: bool)

  /** A value found in a request body or a stored document field. */
  datatype Json = Undefined | Null | Bool(b: bool) | Number(n: Num) | Str(s: string) | Object

  /** `!v` is true: undefined, null, false, 0, NaN and the empty string. */
  predicate Falsy(v: Json) {
    match v
    case Undefined => true
    case Null => true
    case Bool(b) => !b
    case Number(n) => n == NaN || n == Finite(0.0)
    case Str(s) => s == ""
    case Object => false
  }

  /** `a === b` on numbers: NaN equals nothing, an infinity only itself. */
  predicate StrictEq(a: Num, b: Num) {
    match a
    case Finite(x) => b.Finite? && b.x == x
    case NaN => false
    case Infinity(neg) => b == Infinity(neg)
  }

  /** `Number.isFinite(n)` together with `n > 0`. */
  predicate PositiveFinite(n: Num) {
    n.Finite? && n.x > 0.0
  }

  /** The characters `trim` removes: ECMAScript WhiteSpace (tab, vertical tab, form feed,
      byte order mark and the space separators) and LineTerminator. */
  predicate IsSpace(c: char) {
    || '\t' <= c <= '\r'              // tab, line feed, vertical tab, form feed, carriage return
    || c == ' ' || c == '\U{A0}' || c == '\U{1680}'
    || '\U{2000}' <= c <= '\U{200A}'  // en quad .. hair space
    || c == '\U{2028}' || c == '\U{2029}' || c == '\U{202F}' || c == '\U{205F}'
    || c == '\U{3000}' || c == '\U{FEFF}'
  }

  /** Drops leading white space: the result is the longest suffix that does not start with it. */
  function TrimStart(s: string): (r: string)
    ensures |r| <= |s| && r == s[|s| - |r|..]
    ensures r == [] || !IsSpace(r[0])
    ensures forall i :: 0 <= i < |s| - |r| ==> IsSpace(s[i])
  {
    if s != [] && IsSpace(s[0]) then TrimStart(s[1..]) else s
  }

  /** Drops trailing white space: the result is the longest prefix that does not end with it. */
  function TrimEnd(s: string): (r: string)
    ensures |r| <= |s| && r == s[..|r|]
    ensures r == [] || !IsSpace(r[|r| - 1])
    ensures forall i :: |r| <= i < |s| ==> IsSpace(s[i])
  {
    if s != [] && IsSpace(s[|s| - 1]) then TrimEnd(s[..|s| - 1]) else s
  }

  /** `r` occurs in `s` at offset `k`. */
  predicate InfixAt(r: string, s: string, k: int) {
    0 <= k <= |s| - |r| && r == s[k..k + |r|]
  }

  /** `s.trim()`: a piece of `s` that neither starts nor ends with white space, and is
      obtained by dropping only white space on either side. */
  function Trim(s: string): (r: string)
    ensures r == [] || (!IsSpace(r[0]) && !IsSpace(r[|r| - 1]))
    ensures exists k :: InfixAt(r, s, k) &&
                        (forall i :: 0 <= i < k ==> IsSpace(s[i])) &&
                        (forall i :: k + |r| <= i < |s| ==> IsSpace(s[i]))
  {
    var t := TrimStart(s);
    var r := TrimEnd(t);
    var k := |s| - |t|;
    assert r == [] || (!IsSpace(r[0]) && !IsSpace(r[|r| - 1])) by {
      if r != [] {
        assert r[0] == t[0];
      }
    }
    assert InfixAt(r, s, k) && forall i :: 0 <= i < k ==> IsSpace(s[i]);
    assert forall i :: k + |r| <= i < |s| ==> IsSpace(s[i]) by {
      forall i | k + |r| <= i < |s| ensures IsSpace(s[i]) {
        assert s[i] == t[i - k];
      }
    }
    r
  }

  /** The trimmed string is empty exactly when every character is white space. */
  lemma TrimEmptyIff(s: string)
    ensures Trim(s) == "" <==> forall i :: 0 <= i < |s| ==> IsSpace(s[i])
  {
    var t := TrimStart(s);
    if Trim(s) != "" {
      assert !IsSpace(s[|s| - |t|]);
    }
  }
}
