/**
 * The slice of JavaScript value semantics the server relies on: the values a
 * parsed JSON request body can hold, truthiness (`||`, `if (x)`), reading a
 * property (which throws on `undefined`/`null`), the string conversion done
 * by template literals, and the string quoting done by `JSON.stringify`.
 */
module JsValues {
  import opened Wrappers

  /** A value produced by parsing a JSON body, plus `undefined`.
      Numbers are restricted to integers. */
  datatype Value =
    | Undefined
    | Null
    | Bool(b: bool)
    | Num(n: int)
    | Str(s: string)
    | Obj(fields: map<string, Value>)
    | Arr(items: seq<Value>)
  {
    /** `undefined` or `null`: the values whose properties cannot be read. */
    predicate Nullish() {
      Undefined? || Null?
    }

    /** JavaScript's ToBoolean on these values. */
    predicate Truthy() {
      match this
      case Undefined => false
      case Null => false
      case Bool(b) => b
      case Num(n) => n != 0
      case Str(s) => s != ""
      case Obj(_) => true
      case Arr(_) => true
    }
  }

  /** What a statement can throw. `Error` is `new Error(message)`; `TypeError`
      is the engine's error for reading a property of `undefined`/`null`
      (its wording is the engine's and is not modelled). */
  datatype Thrown = Error(message: string) | TypeError

  /** Reading `v.key` (also the destructuring `const { key } = v`). */
  function Member(v: Value, key: string): (r: Result<Value, Thrown>)
    ensures r.Failure? <==> v.Nullish()
    ensures r.Failure? ==> r.error == TypeError
    ensures v.Obj? && key in v.fields ==> r == Success(v.fields[key])
    ensures v.Obj? && key !in v.fields ==> r == Success(Undefined)
    ensures !v.Obj? && !v.Nullish() ==> r == Success(Undefined)
  {
    match v
    case Undefined => Failure(TypeError)
    case Null => Failure(TypeError)
    case Obj(fields) => Success(if key in fields then fields[key] else Undefined)
    case _ => Success(Undefined)
  }

  /** Optional chaining `v?.key`: `undefined` when `v` is nullish. */
  function OptionalMember(v: Value, key: string): (r: Value)
    ensures v.Nullish() ==> r == Undefined
    ensures !v.Nullish() ==> Member(v, key) == Success(r)
  {
    if v.Nullish() then Undefined else Member(v, key).value
  }

  predicate IsDigit(c: char) {
    '0' <= c <= '9'
  }

  function DigitChar(d: nat): (c: char)
    requires d < 10
    ensures IsDigit(c) && DigitValue(c) == d
  {
    "0123456789"[d]
  }

  /** Decimal digits of a natural number, most significant first. */
  function NatToDecimal(n: nat): (r: string)
    ensures r != []
    ensures forall i :: 0 <= i < |r| ==> IsDigit(r[i])
    ensures r[0] == '0' ==> n == 0
    decreases n
  {
    if n < 10 then [DigitChar(n)] else NatToDecimal(n / 10) + [DigitChar(n % 10)]
  }

  function DigitValue(c: char): nat
    requires IsDigit(c)
  {
    (c as int) - ('0' as int)
  }

  /** The number a string of decimal digits denotes; the reading direction of
      `NatToDecimal`. */
  function DecimalValue(s: string): nat
    requires forall i :: 0 <= i < |s| ==> IsDigit(s[i])
  {
    if s == [] then 0 else DecimalValue(s[..|s| - 1]) * 10 + DigitValue(s[|s| - 1])
  }

  /** Writing a number in decimal and reading it back gives the number. */
  lemma {:induction false} DecimalRoundTrip(n: nat)
    ensures DecimalValue(NatToDecimal(n)) == n
    decreases n
  {
    if n >= 10 {
      var prefix := NatToDecimal(n / 10);
      var r := prefix + [DigitChar(n % 10)];
      assert r[..|r| - 1] == prefix;
      DecimalRoundTrip(n / 10);
    }
  }

  /** The text JavaScript gives an integer: an optional minus, then digits. */
  function IntToDecimal(n: int): (r: string)
    ensures n < 0 ==> r == "-" + NatToDecimal(-n)
    ensures n >= 0 ==> r == NatToDecimal(n)
  {
    if n < 0 then "-" + NatToDecimal(-n) else NatToDecimal(n)
  }

  /** String conversion done by a template literal `${v}`: arrays are joined
      with commas, `null` and `undefined` elements giving the empty string. */
  function JsString(v: Value): (r: string)
    ensures v.Str? ==> r == v.s
    ensures v.Undefined? ==> r == "undefined"
    ensures v.Null? ==> r == "null"
    ensures v.Obj? ==> r == "[object Object]"
    decreases v, 1
  {
    match v
    case Undefined => "undefined"
    case Null => "null"
    case Bool(b) => if b then "true" else "false"
    case Num(n) => IntToDecimal(n)
    case Str(s) => s
    case Obj(_) => "[object Object]"
    case Arr(items) => Join(items)
  }

  /** `Array.prototype.join(",")` on the elements of an array. */
  function Join(items: seq<Value>): (r: string)
    ensures items == [] ==> r == ""
    ensures |items| == 1 && items[0].Nullish() ==> r == ""
    decreases items, 0
  {
    if items == [] then ""
    else
      var first := if items[0].Nullish() then "" else JsString(items[0]);
      if |items| == 1 then first else first + "," + Join(items[1..])
  }

  function HexDigit(d: nat): char
    requires d < 16
  {
    "0123456789abcdef"[d]
  }

  /** Characters `JSON.stringify` leaves as they are inside a string. */
  predicate IsPlainJsonChar(c: char) {
    c as int >= 0x20 && c != '"' && c != '\\'
  }

  /** How `JSON.stringify` writes one character inside a string literal. */
  function EscapeChar(c: char): (r: string)
    ensures r != []
    ensures forall i :: 0 <= i < |r| ==> r[i] as int >= 0x20
    ensures IsPlainJsonChar(c) <==> r == [c]
    ensures !IsPlainJsonChar(c) ==> |r| >= 2
  {
    if c == '"' then "\\\""
    else if c == '\\' then "\\\\"
    else if c as int == 0x08 then "\\b"
    else if c as int == 0x09 then "\\t"
    else if c as int == 0x0A then "\\n"
    else if c as int == 0x0C then "\\f"
    else if c as int == 0x0D then "\\r"
    else if c as int < 0x20 then "\\u00" + [HexDigit(c as int / 16), HexDigit(c as int % 16)]
    else [c]
  }

  /** The characters between the quotes of `JSON.stringify(s)`. */
  function JsonEscape(s: string): (r: string)
    ensures |r| >= |s|
    ensures forall i :: 0 <= i < |r| ==> r[i] as int >= 0x20
    decreases |s|
  {
    if s == [] then [] else EscapeChar(s[0]) + JsonEscape(s[1..])
  }

  /** `JSON.stringify(s)` for a string `s`. */
  function JsonQuote(s: string): (r: string)
    ensures |r| >= 2 && r[0] == '"' && r[|r| - 1] == '"'
    ensures r[1..|r| - 1] == JsonEscape(s)
  {
    "\"" + JsonEscape(s) + "\""
  }

  /** A string with no quote, backslash or control character is written verbatim. */
  lemma {:induction false} JsonEscapePlain(s: string)
    requires forall i :: 0 <= i < |s| ==> IsPlainJsonChar(s[i])
    ensures JsonEscape(s) == s
    decreases |s|
  {
    if s != [] {
      JsonEscapePlain(s[1..]);
    }
  }

}
