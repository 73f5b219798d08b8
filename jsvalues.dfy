/** The JSON values that the ledger's records hold, and the JavaScript
    coercions the backend applies to them: truthiness (`!x`, `x || d`),
    `Number(x)` / `isNaN(x)`, `String(x)` (template literals) and `>=`.
    Numbers are integers here; a missing field is `None`, JavaScript's
    `undefined`. */
module JsValues {

  datatype Option<+T> = None | Some(value: T)

  /** A scalar stored in a record field. */
  datatype Value = Text(s: string) | Number(n: int) | Flag(b: bool) | Null

  /** A plain object: field name to value. Object spread `{...a, ...b}` is
      the map union `a + b`, where the right operand wins. */
  type Record = map<string, Value>

  /** `record.key`, with `None` for `undefined`. */
  function Field(r: Record, key: string): Option<Value>
  {
    if key in r then Some(r[key]) else None
  }

  /** JavaScript truthiness: `undefined`, `null`, `false`, `0` and `""` are falsy. */
  predicate Truthy(v: Option<Value>)
  {
    match v
    case None => false
    case Some(Text(s)) => s != ""
    case Some(Number(n)) => n != 0
    case Some(Flag(b)) => b
    case Some(Null) => false
  }

  predicate IsDigit(c: char)
  {
    '0' <= c <= '9'
  }

  predicate AllDigits(s: string)
  {
    forall i :: 0 <= i < |s| ==> IsDigit(s[i])
  }

  function DigitValue(c: char): (d: nat)
    requires IsDigit(c)
    ensures d < 10
  {
    (c as int) - ('0' as int)
  }

  function DigitChar(d: nat): (c: char)
    requires d < 10
    ensures IsDigit(c) && DigitValue(c) == d
  {
    (('0' as int) + d) as char
  }

  /** The value of a string of decimal digits, read left to right. */
  function DigitsValue(s: string): nat
    requires AllDigits(s)
    decreases |s|
  {
    if s == [] then 0 else DigitsValue(s[..|s| - 1]) * 10 + DigitValue(s[|s| - 1])
  }

  /** `Number(s)` for a string: the empty string is 0, an optional sign
      followed by decimal digits is that integer, anything else is NaN. */
  function ParseNumber(s: string): Option<int>
  {
    if s == "" then Some(0)
    else if s[0] == '-' && |s| > 1 && AllDigits(s[1..]) then Some(-(DigitsValue(s[1..]) as int))
    else if s[0] == '+' && |s| > 1 && AllDigits(s[1..]) then Some(DigitsValue(s[1..]))
    else if AllDigits(s) then Some(DigitsValue(s))
    else None
  }

  /** `Number(v)`; `None` is NaN. */
  function ToNumber(v: Option<Value>): Option<int>
  {
    match v
    case None => None
    case Some(Null) => Some(0)
    case Some(Flag(b)) => Some(if b then 1 else 0)
    case Some(Number(n)) => Some(n)
    case Some(Text(s)) => ParseNumber(s)
  }

  /** The decimal digits of a natural number, most significant first. */
  function NatToText(n: nat): (r: string)
    ensures |r| > 0 && AllDigits(r)
    ensures DigitsValue(r) == n
    decreases n
  {
    if n < 10 then [DigitChar(n)]
    else
      var p := NatToText(n / 10);
      var r := p + [DigitChar(n % 10)];
      assert r[..|r| - 1] == p;
      r
  }

  /** `String(n)` for an integer. */
  function IntToText(n: int): string
  {
    if n < 0 then "-" + NatToText(-n) else NatToText(n)
  }

  /** `String(v)`, as a template literal `${v}` renders it. */
  function ToText(v: Option<Value>): string
  {
    match v
    case None => "undefined"
    case Some(Null) => "null"
    case Some(Flag(b)) => if b then "true" else "false"
    case Some(Number(n)) => IntToText(n)
    case Some(Text(s)) => s
  }

  /** The rendering of a number reads back as the same number: `String`
      and `Number` agree on every integer. */
  lemma {:induction false} NumberTextRoundTrip(n: int)
    ensures ToNumber(Some(Text(ToText(Some(Number(n)))))) == Some(n)
  {
    var s := IntToText(n);
    if n < 0 {
      var d := NatToText(-n);
      assert s[0] == '-' && s[1..] == d;
    } else {
      var d := NatToText(n);
      assert s == d && IsDigit(d[0]);
    }
  }

  /** String order: `a < b` for two strings, by Unicode scalar value. */
  predicate TextLess(a: string, b: string)
    decreases |a|
  {
    if a == [] then b != []
    else if b == [] then false
    else if a[0] != b[0] then a[0] < b[0]
    else TextLess(a[1..], b[1..])
  }

  /** `x >= y`: two strings compare as strings, anything else as numbers,
      and a comparison involving NaN is false. */
  predicate AtLeast(x: Option<Value>, y: Option<Value>)
  {
    if x.Some? && x.value.Text? && y.Some? && y.value.Text? then
      !TextLess(x.value.s, y.value.s)
    else
      var nx := ToNumber(x);
      var ny := ToNumber(y);
      nx.Some? && ny.Some? && nx.value >= ny.value
  }

  /** JavaScript `x + n` for a number `n`: a string on the left concatenates. */
  function PlusNumber(x: Value, n: int): (r: Value)
    ensures x.Text? ==> r == Text(x.s + ToText(Some(Number(n))))
    ensures !x.Text? ==> r.Number? && ToNumber(Some(x)).Some?
    ensures !x.Text? ==> r.n == ToNumber(Some(x)).value + n
  {
    match x
    case Text(s) => Text(s + IntToText(n))
    case Number(m) => Number(m + n)
    case Flag(b) => Number((if b then 1 else 0) + n)
    case Null => Number(n)
  }
}
