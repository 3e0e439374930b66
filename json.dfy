/** The JSON values a request body parses to, with the few JavaScript
    conversions the router applies to them: truthiness, `String(v)` and
    the conversion to a number. Numbers are integers. */
module Json {
  import opened Wrappers
  import opened Text
  import opened WeatherTypes

  datatype Json =
    | JNull
    | JBool(b: bool)
    | JNum(n: int)
    | JStr(s: string)
    | JArr(items: seq<Json>)
    | JObj(members: map<string, Json>)

  /** `obj.key` on the members of an object; `None` is `undefined`. */
  function Get(members: map<string, Json>, key: string): (v: Option<Json>)
    ensures v.Some? <==> key in members
  {
    if key in members then Some(members[key]) else None
  }

  /** JavaScript truthiness of a possibly undefined value. */
  predicate Truthy(v: Option<Json>) {
    match v
    case None => false
    case Some(JNull) => false
    case Some(JBool(b)) => b
    case Some(JNum(n)) => n != 0
    case Some(JStr(s)) => s != ""
    case Some(_) => true
  }

  /** `parts.join(sep)`. */
  function JoinWith(parts: seq<string>, sep: string): string
    decreases |parts|
  {
    if parts == [] then ""
    else if |parts| == 1 then parts[0]
    else parts[0] + sep + JoinWith(parts[1..], sep)
  }

  /** A value JavaScript cannot convert to a primitive: an object with an own
      `toString` member (no JSON value is callable, and the inherited
      `valueOf` returns the object itself), or an array holding one. */
  predicate Unconvertible(v: Json)
    decreases v
  {
    match v
    case JObj(members) => "toString" in members
    case JArr(items) => exists i :: 0 <= i < |items| && Unconvertible(items[i])
    case _ => false
  }

  /** `String(v)`, as a template literal prints it: arrays print their
      elements joined by commas, with `null` elements printing as nothing;
      `None` is the `TypeError` of a value with no primitive form. */
  function JsString(v: Json): Option<string>
    decreases v
  {
    match v
    case JNull => Some("null")
    case JBool(b) => Some(if b then "true" else "false")
    case JNum(n) => Some(IntToString(n))
    case JStr(s) => Some(s)
    case JArr(items) =>
      var texts := seq(|items|, i requires 0 <= i < |items| =>
        if items[i].JNull? then Some("") else JsString(items[i]));
      if forall i :: 0 <= i < |texts| ==> texts[i].Some? then
        Some(JoinWith(seq(|texts|, i requires 0 <= i < |texts| => texts[i].GetOr("")), ","))
      else None
    case JObj(members) => if "toString" in members then None else Some("[object Object]")
  }

  /** `String(v)` for a value that may be `undefined`. */
  function StringOf(v: Option<Json>): (s: Option<string>)
    ensures v.None? ==> s == Some("undefined")
    ensures v.Some? && v.value.JStr? ==> s == Some(v.value.s)
  {
    match v
    case None => Some("undefined")
    case Some(j) => JsString(j)
  }

  // ---------------------------------------------------------------------
  // conversion to a number

  predicate IsDigit(c: char) {
    '0' <= c <= '9'
  }

  predicate IsDigits(s: string) {
    s != [] && forall i :: 0 <= i < |s| ==> IsDigit(s[i])
  }

  /** The value of a string of decimal digits. */
  function DigitsValue(s: string): nat
    requires forall i :: 0 <= i < |s| ==> IsDigit(s[i])
    decreases |s|
  {
    if s == [] then 0
    else
      assert IsDigit(s[|s| - 1]);
      var d: nat := s[|s| - 1] as int - '0' as int;
      DigitsValue(s[..|s| - 1]) * 10 + d
  }

  /** `Number(s)` for a string: surrounding whitespace is ignored, the empty
      string is 0, an optional sign followed by decimal digits is that
      integer, and anything else is NaN. */
  function StringToNumber(s: string): Num {
    TrimmedToNumber(Trim(s))
  }

  /** `Number(s)` for a string with nothing left to trim. */
  function TrimmedToNumber(t: string): Num {
    if t == [] then Finite(0)
    else if t[0] == '-' && IsDigits(t[1..]) then Finite(0 - DigitsValue(t[1..]) as int)
    else if t[0] == '+' && IsDigits(t[1..]) then Finite(DigitsValue(t[1..]))
    else if IsDigits(t) then Finite(DigitsValue(t))
    else NaN
  }

  /** `Number(v)`: null and false are 0, true is 1, a string is parsed, an
      array is converted through its string form, an object without an own
      `toString` is NaN; `None` is the `TypeError` of an unconvertible value. */
  function ToNumber(v: Json): Option<Num> {
    match v
    case JNull => Some(Finite(0))
    case JBool(b) => Some(Finite(if b then 1 else 0))
    case JNum(n) => Some(Finite(n))
    case JStr(s) => Some(StringToNumber(s))
    case JArr(_) =>
      (match JsString(v)
       case None => None
       case Some(s) => Some(StringToNumber(s)))
    case JObj(members) => if "toString" in members then None else Some(NaN)
  }

  // ---------------------------------------------------------------------
  // properties

  lemma {:induction false} NatToStringDigits(n: nat)
    ensures IsDigits(NatToString(n))
    ensures DigitsValue(NatToString(n)) == n
    decreases n
  {
    if n >= 10 {
      NatToStringDigits(n / 10);
      var s := NatToString(n);
      assert s[..|s| - 1] == NatToString(n / 10);
    }
  }

  /** Printing an integer and converting the text back gives the integer. */
  lemma IntToStringRoundTrip(n: int)
    ensures StringToNumber(IntToString(n)) == Finite(n)
  {
    if n < 0 {
      NegativeRoundTrip(n);
    } else {
      var s := NatToString(n);
      NatToStringDigits(n);
      assert IsDigit(s[0]) && IsDigit(s[|s| - 1]);
      TrimUnspaced(s);
    }
  }

  lemma NegativeRoundTrip(n: int)
    requires n < 0
    ensures StringToNumber(IntToString(n)) == Finite(n)
  {
    NegativeText(n);
    MinusDigits(IntToString(n), -n);
  }

  /** A minus sign before the digits of `m` is `-m`. */
  lemma MinusDigits(t: string, m: nat)
    requires t != [] && t[0] == '-' && IsDigits(t[1..]) && DigitsValue(t[1..]) == m
    ensures TrimmedToNumber(t) == Finite(0 - m)
  {
  }

  /** The printed form of a negative integer is a minus sign before the
      digits of its magnitude, with nothing to trim. */
  lemma NegativeText(n: int)
    requires n < 0
    ensures var s := IntToString(n);
      s != [] && s[0] == '-' && IsDigits(s[1..]) && DigitsValue(s[1..]) == -n
      && StringToNumber(s) == TrimmedToNumber(s)
  {
    var digits := NatToString(-n);
    NatToStringDigits(-n);
    var s := IntToString(n);
    assert s == "-" + digits;
    assert IsDigit(digits[|digits| - 1]);
    assert s[|s| - 1] == digits[|digits| - 1];
    TrimUnspaced(s);
    assert s[1..] == digits;
  }

  /** Printing fails exactly on the unconvertible values. */
  lemma {:induction false} JsStringFails(v: Json)
    ensures JsString(v).None? <==> Unconvertible(v)
    decreases v
  {
    match v
    case JArr(items) =>
      var texts := seq(|items|, i requires 0 <= i < |items| =>
        if items[i].JNull? then Some("") else JsString(items[i]));
      forall i | 0 <= i < |items|
        ensures texts[i].None? <==> Unconvertible(items[i])
      {
        JsStringFails(items[i]);
      }
    case _ =>
  }

  /** The conversion to a number fails exactly on the unconvertible values. */
  lemma ToNumberFails(v: Json)
    ensures ToNumber(v).None? <==> Unconvertible(v)
  {
    JsStringFails(v);
  }

  /** A string holding a printed integer, as `days: "5"`, converts to it;
      so does a one-element array of that integer. */
  lemma NumericStringsConvert(n: int)
    ensures ToNumber(JStr(IntToString(n))) == Some(Finite(n))
    ensures ToNumber(JArr([JNum(n)])) == Some(Finite(n))
  {
    IntToStringRoundTrip(n);
    SingletonText(JNum(n));
  }

  /** A one-element array prints as its element, unless that is `null`. */
  lemma SingletonText(v: Json)
    requires !v.JNull?
    ensures JsString(JArr([v])) == JsString(v)
  {
    var texts := seq(1, i requires 0 <= i < 1 => if [v][i].JNull? then Some("") else JsString([v][i]));
    assert texts == [JsString(v)];
  }
}
