/**
 * JSON values as the interpreter handles them, and the two JavaScript
 * conversions it relies on: truthiness (`if (x)`, `x || {}`) and the unary
 * `+` that turns a value into a number.  Numbers are integers here.
 */
module JsonValues {
  import opened Wrappers

  datatype Json =
    | JNull
    | JBool(b: bool)
    | JNum(n: int)
    | JStr(s: string)
    | JArr(items: seq<Json>)
    | JObj(fields: map<string, Json>)

  /** The empty object `{}`. */
  const Empty: Json := JObj(map[])

  /** JavaScript truthiness: `null`, `false`, `0` and `""` are falsy; arrays and objects are truthy. */
  predicate Truthy(j: Json) {
    match j
    case JNull => false
    case JBool(b) => b
    case JNum(n) => n != 0
    case JStr(s) => s != ""
    case JArr(_) => true
    case JObj(_) => true
  }

  /** `typeof j === 'object'`, which holds for `null`, arrays and objects. */
  predicate IsObjectLike(j: Json) {
    j.JNull? || j.JArr? || j.JObj?
  }

  /** `data || {}`, where `data` may be `undefined`. */
  function OrEmpty(data: Option<Json>): (r: Json)
    ensures Truthy(r)
    ensures data.Some? && Truthy(data.value) ==> r == data.value
    ensures !(data.Some? && Truthy(data.value)) ==> r == Empty
  {
    if data.Some? && Truthy(data.value) then data.value else Empty
  }

  // ---------------------------------------------------------------------
  // Decimal text

  function DigitChar(d: nat): (c: char)
    requires d < 10
    ensures '0' <= c <= '9'
  {
    (48 + d) as char
  }

  function DigitValue(c: char): (r: Option<nat>)
    ensures r.Some? <==> '0' <= c <= '9'
    ensures r.Some? ==> r.value < 10 && DigitChar(r.value) == c
  {
    if '0' <= c <= '9' then Some(c as int - 48) else None
  }

  /** The decimal text of `n`, as `String(n)` writes it. */
  function NatToString(n: nat): (s: string)
    ensures |s| >= 1
    ensures forall i | 0 <= i < |s| :: '0' <= s[i] <= '9'
  {
    if n < 10 then [DigitChar(n)] else NatToString(n / 10) + [DigitChar(n % 10)]
  }

  /** The value of a non-empty run of decimal digits (leading zeros allowed); `None` otherwise. */
  function ParseDigits(s: string): Option<nat>
  {
    if |s| == 0 then None
    else
      match DigitValue(s[|s| - 1])
      case None => None
      case Some(d) =>
        if |s| == 1 then Some(d)
        else
          match ParseDigits(s[..|s| - 1])
          case None => None
          case Some(p) => Some(10 * p + d)
  }

  /** Reading back the text of a natural number gives the number. */
  lemma {:induction false} DigitsRoundTrip(n: nat)
    ensures ParseDigits(NatToString(n)) == Some(n)
  {
    if n >= 10 {
      var s := NatToString(n);
      var prefix := NatToString(n / 10);
      assert s == prefix + [DigitChar(n % 10)];
      assert s[..|s| - 1] == prefix;
      DigitsRoundTrip(n / 10);
    }
  }

  /** Different numbers have different texts. */
  lemma NatToStringInjective(a: nat, b: nat)
    requires NatToString(a) == NatToString(b)
    ensures a == b
  {
    DigitsRoundTrip(a);
    DigitsRoundTrip(b);
  }

  /** The text of an integer, with a leading `-` when it is negative. */
  function IntToString(n: int): string
  {
    if n < 0 then "-" + NatToString(-n) else NatToString(n)
  }

  /**
   * `+s` for a string: the empty string is 0, an optional sign followed by
   * decimal digits is that integer, anything else is NaN (`None`).
   */
  function StringToNumber(s: string): Option<int>
  {
    if s == "" then Some(0)
    else if s[0] == '-' then
      match ParseDigits(s[1..])
      case None => None
      case Some(n) => Some(-(n as int))
    else if s[0] == '+' then
      match ParseDigits(s[1..])
      case None => None
      case Some(n) => Some(n)
    else
      match ParseDigits(s)
      case None => None
      case Some(n) => Some(n)
  }

  /** The JavaScript unary `+`: `None` is NaN. */
  function ToNumber(j: Json): Option<int>
  {
    match j
    case JNull => Some(0)
    case JBool(b) => Some(if b then 1 else 0)
    case JNum(n) => Some(n)
    case JStr(s) => StringToNumber(s)
    case JArr(_) => None
    case JObj(_) => None
  }

  /** The text of a natural number reads back as that number. */
  lemma NatTextRoundTrip(n: nat)
    ensures StringToNumber(NatToString(n)) == Some(n)
  {
    var s := NatToString(n);
    assert s != "" && '0' <= s[0] <= '9';
    DigitsRoundTrip(n);
  }

  /** The text of a negative number, `-` and its digits, reads back as that number. */
  lemma NegativeTextRoundTrip(n: nat)
    ensures StringToNumber("-" + NatToString(n)) == Some(-(n as int))
  {
    var s := "-" + NatToString(n);
    assert s != "" && s[0] == '-' && s[1..] == NatToString(n);
    DigitsRoundTrip(n);
  }

  /** Converting the text of an integer back to a number gives the integer. */
  lemma NumberTextRoundTrip(n: int)
    ensures ToNumber(JStr(IntToString(n))) == Some(n)
  {
    if n < 0 {
      assert IntToString(n) == "-" + NatToString(-n);
      NegativeTextRoundTrip(-n);
    } else {
      assert IntToString(n) == NatToString(n);
      NatTextRoundTrip(n);
    }
  }
}
