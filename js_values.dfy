/**
 * The slice of JavaScript semantics that the push-notification handler relies on:
 * dynamically typed document values, truthiness, the `||` operator, property reads
 * through optional chaining, caught exceptions, and `String.prototype.trim`.
 */
module JsValues {

  /**
   * A JavaScript value as it can appear in a Firestore document read by the handler.
   * Finite numbers are mathematical reals, with the two infinities and NaN kept apart;
   * `-0` and `0` are not distinguished (both are falsy). `ServerTime` stands for the value written by
   * `FieldValue.serverTimestamp()`: an object whose time the model does not track.
   */
  datatype JsValue =
    | Undefined
    | Null
    | Bool(b: bool)
    | Num(x: real)
    | Infinity(negative: bool)
    | NaN
    | Str(s: string)
    | Arr(items: seq<JsValue>)
    | Obj(props: map<string, JsValue>)
    | ServerTime

  /** The fields of one document, as `snap.data()` returns them. */
  type Record = map<string, JsValue>

  /** A value caught by a `catch` clause: its `message` property and what `toString()` gives. */
  datatype Thrown = Thrown(message: JsValue, text: string)

  /** JavaScript's ToBoolean: exactly `undefined`, `null`, `false`, `0`, NaN and `""` are falsy. */
  predicate Truthy(v: JsValue)
    ensures Truthy(v) <==> v !in {Undefined, Null, Bool(false), Num(0.0), NaN, Str("")}
  {
    match v
    case Undefined => false
    case Null => false
    case Bool(b) => b
    case Num(x) => x != 0.0
    case NaN => false
    case Str(s) => s != ""
    case _ => true
  }

  /**
   * `a || b`: the left operand when it is truthy, otherwise the right one; read as a
   * condition it is the disjunction of the two operands.
   */
  function Or(a: JsValue, b: JsValue): (r: JsValue)
    ensures Truthy(a) ==> r == a
    ensures !Truthy(a) ==> r == b
    ensures Truthy(r) <==> Truthy(a) || Truthy(b)
  {
    if Truthy(a) then a else b
  }

  /** `rec.key` on a document: a missing field reads as `undefined`. */
  function Get(rec: Record, key: string): (r: JsValue)
    ensures r == Undefined <==> key !in rec || rec[key] == Undefined
  {
    if key in rec then rec[key] else Undefined
  }

  /**
   * `v?.key` for a key that no built-in prototype defines: `undefined` on `undefined`
   * and `null` (optional chaining), on primitives and arrays (no such own property),
   * and on an object without that field.
   */
  function Member(v: JsValue, key: string): (r: JsValue)
    ensures !v.Obj? ==> r == Undefined
    ensures v.Obj? && key in v.props ==> r == v.props[key]
    ensures v.Obj? && key !in v.props ==> r == Undefined
  {
    match v
    case Obj(props) => Get(props, key)
    case _ => Undefined
  }

  /** `e.message || e.toString()`: the message when it is truthy, otherwise the string form. */
  function ErrorText(e: Thrown): (r: JsValue)
    ensures Truthy(e.message) ==> r == e.message
    ensures !Truthy(e.message) ==> r == Str(e.text)
  {
    Or(e.message, Str(e.text))
  }

  /**
   * The characters `String.prototype.trim` removes: the ECMAScript WhiteSpace
   * production (tab, vertical tab, form feed, space, no-break space, the byte order
   * mark and every other Unicode "Space_Separator") and the LineTerminator production
   * (line feed, carriage return, line and paragraph separators).
   */
  predicate IsJsWhitespace(c: char)
  {
    || c == '\t' || c == '\n' || c == '\U{B}' || c == '\U{C}' || c == '\r'
    || c == ' ' || c == '\U{A0}' || c == '\U{1680}'
    || ('\U{2000}' <= c <= '\U{200A}')
    || c == '\U{2028}' || c == '\U{2029}' || c == '\U{202F}' || c == '\U{205F}'
    || c == '\U{3000}' || c == '\U{FEFF}'
  }

  /**
   * Among ASCII characters only tab, line feed, vertical tab, form feed, carriage return
   * and space are trimmed, and no character above the byte order mark is.
   */
  lemma WhitespaceRange(c: char)
    ensures c < '\U{80}' ==> (IsJsWhitespace(c) <==> c in {'\t', '\n', '\U{B}', '\U{C}', '\r', ' '})
    ensures IsJsWhitespace(c) ==> c <= '\U{FEFF}'
  {
  }

  /** How many whitespace characters `s` starts with. */
  function LeadingWhitespace(s: string): (n: nat)
    ensures n <= |s|
    ensures forall i :: 0 <= i < n ==> IsJsWhitespace(s[i])
    ensures n < |s| ==> !IsJsWhitespace(s[n])
  {
    if s != [] && IsJsWhitespace(s[0]) then 1 + LeadingWhitespace(s[1..]) else 0
  }

  /** How many whitespace characters `s` ends with. */
  function TrailingWhitespace(s: string): (n: nat)
    ensures n <= |s|
    ensures forall i :: |s| - n <= i < |s| ==> IsJsWhitespace(s[i])
    ensures n < |s| ==> !IsJsWhitespace(s[|s| - n - 1])
  {
    if s != [] && IsJsWhitespace(s[|s| - 1]) then 1 + TrailingWhitespace(s[..|s| - 1]) else 0
  }

  /** Drops leading whitespace: what is dropped is all whitespace, what is kept is a suffix. */
  function TrimStart(s: string): (r: string)
    ensures |r| <= |s| && r == s[|s| - |r|..]
    ensures forall i :: 0 <= i < |s| - |r| ==> IsJsWhitespace(s[i])
    ensures r != [] ==> !IsJsWhitespace(r[0])
  {
    s[LeadingWhitespace(s)..]
  }

  /** Drops trailing whitespace: what is dropped is all whitespace, what is kept is a prefix. */
  function TrimEnd(s: string): (r: string)
    ensures |r| <= |s| && r == s[..|r|]
    ensures forall i :: |r| <= i < |s| ==> IsJsWhitespace(s[i])
    ensures r != [] ==> !IsJsWhitespace(r[|r| - 1])
  {
    s[..|s| - TrailingWhitespace(s)]
  }

  /** `s.trim()`: neither end of the result is whitespace. */
  function Trim(s: string): (r: string)
    ensures |r| <= |s|
    ensures r != [] ==> !IsJsWhitespace(r[0]) && !IsJsWhitespace(r[|r| - 1])
  {
    TrimEnd(TrimStart(s))
  }

  /**
   * `s.trim()` keeps the slice of `s` that starts where `TrimStart` stops, and cuts off only
   * whitespace on either side of it.
   */
  lemma {:induction false} TrimIsSlice(s: string)
    ensures var a := |s| - |TrimStart(s)|;
      && a + |Trim(s)| <= |s|
      && Trim(s) == s[a..a + |Trim(s)|]
      && (forall i :: 0 <= i < a ==> IsJsWhitespace(s[i]))
      && (forall i :: a + |Trim(s)| <= i < |s| ==> IsJsWhitespace(s[i]))
  {
    var t := TrimStart(s);
    var a := |s| - |t|;
    forall i | a + |Trim(s)| <= i < |s| ensures IsJsWhitespace(s[i]) {
      assert s[i] == t[i - a];
    }
  }

  /** `s.trim() === ''` exactly when every character of `s` is whitespace. */
  lemma {:induction false} TrimEmptyIff(s: string)
    ensures Trim(s) == [] <==> forall i :: 0 <= i < |s| ==> IsJsWhitespace(s[i])
  {
    var t := TrimStart(s);
    if t != [] {
      assert s[|s| - |t|] == t[0];
    }
  }

  /** Reading `x || default` where `x` is an optional string: absent or empty gives the default. */
  lemma OrOnOptionalString(v: JsValue, default: string)
    requires v.Undefined? || v.Str?
    ensures Or(v, Str(default)) == Str(if v.Str? && v.s != "" then v.s else default)
  {
  }
}
