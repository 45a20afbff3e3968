/** The parts of JavaScript's runtime semantics that the pages depend on:
    the values a parsed JSON response can hold, truthiness (`x || y`,
    `if (x)`), property access on a possibly-null value, conversion to text
    (template literals and `alert`), and `String.prototype.trim`. */
module Js {

  datatype Option<+T> = None | Some(value: T)

  /** A value as `JSON.parse` produces it, plus `undefined`, which is what
      reading a missing property yields. Numbers are integers here. */
  datatype Value =
    | Undefined
    | Null
    | Bool(b: bool)
    | Num(n: int)
    | Str(s: string)
    | Arr(items: seq<Value>)
    | Obj(fields: map<string, Value>)

  /** A plain object: the rows of a table, the form being edited. */
  type Record = map<string, Value>

  /** JavaScript's ToBoolean: `undefined`, `null`, `false`, `0` and `""`
      are falsy; every array and every object, even an empty one, is truthy. */
  predicate Truthy(v: Value) {
    match v
    case Undefined => false
    case Null => false
    case Bool(b) => b
    case Num(n) => n != 0
    case Str(s) => s != ""
    case Arr(_) => true
    case Obj(_) => true
  }

  /** `v || fallback` */
  function Or(v: Value, fallback: Value): Value {
    if Truthy(v) then v else fallback
  }

  /** `r[key]` on a plain object. */
  function Field(r: Record, key: string): Value {
    if key in r then r[key] else Undefined
  }

  /** `v.key`: `None` when the access throws a TypeError (`v` is `null` or
      `undefined`). Lookups do not reach the prototype chain, so a primitive
      or an array has no property at all: `"x".link`, a method of every
      string, is `undefined` here. */
  function Prop(v: Value, key: string): (r: Option<Value>)
    ensures r.None? <==> v.Undefined? || v.Null?
    ensures v.Obj? ==> r == Some(Field(v.fields, key))
    ensures !v.Obj? && !v.Undefined? && !v.Null? ==> r == Some(Undefined)
  {
    match v
    case Undefined => None
    case Null => None
    case Obj(fields) => Some(Field(fields, key))
    case _ => Some(Undefined)
  }

  // ---------------------------------------------------------------------
  // Conversion to text: `${v}` and alert(v)
  // ---------------------------------------------------------------------

  predicate IsDigit(c: char) {
    '0' <= c <= '9'
  }

  function DigitChar(d: nat): (c: char)
    requires d < 10
    ensures IsDigit(c)
  {
    ['0', '1', '2', '3', '4', '5', '6', '7', '8', '9'][d]
  }

  function DigitValue(c: char): (d: nat)
    requires IsDigit(c)
    ensures d < 10 && DigitChar(d) == c
  {
    (c as int - '0' as int) as nat
  }

  /** The decimal numeral of a non-negative integer, as `String(n)` writes it. */
  function NatText(n: nat): (r: string)
    ensures |r| > 0
    ensures forall i :: 0 <= i < |r| ==> IsDigit(r[i])
    ensures n < 10 <==> |r| == 1
    ensures r[0] == '0' ==> n == 0
  {
    if n < 10 then [DigitChar(n)] else NatText(n / 10) + [DigitChar(n % 10)]
  }

  /** Reads a run of decimal digits back as a number, as a server parses an
      integer path segment. */
  function ParseNat(s: string): nat
    requires forall i :: 0 <= i < |s| ==> IsDigit(s[i])
  {
    if s == [] then 0 else ParseNat(s[..|s| - 1]) * 10 + DigitValue(s[|s| - 1])
  }

  /** An integer id written into a URL is read back as the same id. */
  lemma {:induction false} NatTextRoundTrip(n: nat)
    ensures ParseNat(NatText(n)) == n
  {
    var t := NatText(n);
    if n >= 10 {
      NatTextRoundTrip(n / 10);
      assert t[..|t| - 1] == NatText(n / 10);
    }
  }

  function IntText(n: int): string {
    if n < 0 then "-" + NatText(-n) else NatText(n)
  }

  /** `String(v)`, the text a template literal or `alert` shows. An array
      is joined with commas, its `null` and `undefined` elements as empty
      text; every object is "[object Object]". */
  function ToText(v: Value): string {
    match v
    case Undefined => "undefined"
    case Null => "null"
    case Bool(b) => if b then "true" else "false"
    case Num(n) => IntText(n)
    case Str(s) => s
    case Arr(items) => JoinText(items)
    case Obj(_) => "[object Object]"
  }

  function JoinText(items: seq<Value>): string {
    if |items| == 0 then ""
    else
      var head := if items[0].Undefined? || items[0].Null? then "" else ToText(items[0]);
      if |items| == 1 then head else head + "," + JoinText(items[1..])
  }

  // ---------------------------------------------------------------------
  // String.prototype.trim
  // ---------------------------------------------------------------------

  /** ECMAScript's WhiteSpace and LineTerminator code points. */
  predicate IsWhitespace(c: char) {
    || c == ' ' || c == '\t' || c == '\n' || c == '\r'
    || c == '\U{000B}' || c == '\U{000C}' || c == '\U{00A0}' || c == '\U{1680}'
    || ('\U{2000}' <= c <= '\U{200A}')
    || c == '\U{2028}' || c == '\U{2029}' || c == '\U{202F}' || c == '\U{205F}'
    || c == '\U{3000}' || c == '\U{FEFF}'
  }

  ghost predicate AllWhitespace(s: string) {
    forall i :: 0 <= i < |s| ==> IsWhitespace(s[i])
  }

  function TrimStart(s: string): (r: string)
    ensures r == [] || !IsWhitespace(r[0])
  {
    if s != [] && IsWhitespace(s[0]) then TrimStart(s[1..]) else s
  }

  function TrimEnd(s: string): (r: string)
    ensures r == [] || !IsWhitespace(r[|r| - 1])
  {
    if s != [] && IsWhitespace(s[|s| - 1]) then TrimEnd(s[..|s| - 1]) else s
  }

  /** `s.trim()` */
  function Trim(s: string): string {
    TrimEnd(TrimStart(s))
  }

  /** `!s.trim()`: the text is empty once its edges are trimmed. */
  predicate Blank(s: string) {
    Trim(s) == ""
  }

  lemma {:induction false} TrimStartEmptyIff(s: string)
    ensures TrimStart(s) == [] <==> AllWhitespace(s)
  {
    if s != [] && IsWhitespace(s[0]) {
      TrimStartEmptyIff(s[1..]);
      assert AllWhitespace(s[1..]) ==> AllWhitespace(s) by {
        if AllWhitespace(s[1..]) {
          forall i | 0 <= i < |s| ensures IsWhitespace(s[i]) {
            if i > 0 { assert s[i] == s[1..][i - 1]; }
          }
        }
      }
    }
  }

  lemma {:induction false} TrimEndEmptyIfNonWhitespaceHead(s: string)
    requires s != [] && !IsWhitespace(s[0])
    ensures TrimEnd(s) != []
  {
    if IsWhitespace(s[|s| - 1]) {
      TrimEndEmptyIfNonWhitespaceHead(s[..|s| - 1]);
    }
  }

  /** A text is blank exactly when every character of it is whitespace. */
  lemma BlankIff(s: string)
    ensures Blank(s) <==> AllWhitespace(s)
  {
    TrimStartEmptyIff(s);
    if TrimStart(s) != [] {
      TrimEndEmptyIfNonWhitespaceHead(TrimStart(s));
    }
  }
}
