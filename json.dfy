/** Decoded JSON values, as webhook payloads and configuration files hand them
    to the program, and the Python built-in conversions the modelled code
    applies to them: `int(x)`, `float(x)`, `str(x)`, truthiness, and the
    number `datetime.utcfromtimestamp` accepts. */
module Json {
  import opened Results

  datatype Json =
    | JNull
    | JBool(b: bool)
    | JInt(i: int)
    | JFloat(f: real)
    | JStr(s: string)
    | JList(items: seq<Json>)
    | JObject(entries: seq<(string, Json)>)

  /** Python truthiness (`if x`, `x or y`). */
  predicate Truthy(x: Json) {
    match x
    case JNull => false
    case JBool(b) => b
    case JInt(i) => i != 0
    case JFloat(f) => f != 0.0
    case JStr(s) => s != ""
    case JList(items) => items != []
    case JObject(entries) => entries != []
  }

  // ----- decimal text -----

  predicate IsDigit(c: char) { '0' <= c <= '9' }

  predicate AllDigits(s: string) {
    forall i :: 0 <= i < |s| ==> IsDigit(s[i])
  }

  /** The number written by a string of decimal digits, most significant first. */
  function DigitsValue(s: string): nat
    requires AllDigits(s)
    decreases |s|
  {
    if |s| == 0 then 0
    else DigitsValue(s[..|s| - 1]) * 10 + (s[|s| - 1] as int - '0' as int)
  }

  function DigitChar(d: nat): (c: char)
    requires d < 10
    ensures IsDigit(c) && c as int - '0' as int == d
  {
    ('0' as int + d) as char
  }

  /** Python's `str(n)` for a non-negative integer. */
  function NatToString(n: nat): (s: string)
    decreases n
  {
    if n < 10 then [DigitChar(n)] else NatToString(n / 10) + [DigitChar(n % 10)]
  }

  /** Python's `str(i)` for an integer. */
  function IntToString(i: int): string {
    if i < 0 then "-" + NatToString(-i) else NatToString(i)
  }

  /** Python's `int(s)` on the strings this model accepts: an optional
      sign followed by ASCII decimal digits. Python also accepts
      surrounding whitespace, underscores between digits and non-ASCII
      digits; those strings are `None` here. */
  function ParseInt(s: string): Option<int> {
    if |s| > 1 && (s[0] == '-' || s[0] == '+') && AllDigits(s[1..]) then
      var d: int := DigitsValue(s[1..]);
      Some(if s[0] == '-' then -d else d)
    else if |s| > 0 && AllDigits(s) then
      Some(DigitsValue(s))
    else
      None
  }

  function Pow10(n: nat): (p: nat)
    ensures p >= 1
  {
    if n == 0 then 1 else 10 * Pow10(n - 1)
  }

  /** The position of the first '.' in `s`, or `|s|` when there is none. */
  function DotIndex(s: string): (k: nat)
    ensures k <= |s|
    ensures k < |s| ==> s[k] == '.'
    ensures forall j :: 0 <= j < k ==> s[j] != '.'
  {
    if |s| == 0 then 0
    else if s[0] == '.' then 0
    else 1 + DotIndex(s[1..])
  }

  /** The value of an unsigned decimal `ddd.ddd` (either side of the point may
      be empty, not both). */
  function UnsignedDecimal(s: string): Option<real> {
    var k := DotIndex(s);
    var whole := s[..k];
    if k == |s| then
      if |whole| > 0 && AllDigits(whole) then Some(DigitsValue(whole) as real) else None
    else
      var frac := s[k + 1..];
      if AllDigits(whole) && AllDigits(frac) && |whole| + |frac| > 0 then
        Some(DigitsValue(whole) as real + DigitsValue(frac) as real / Pow10(|frac|) as real)
      else None
  }

  /** Python's `float(s)` on the strings this model accepts: an optional
      sign and an unsigned decimal. Python also accepts surrounding
      whitespace, underscores, exponents, 'inf' and 'nan'; those strings
      are `None` here. */
  function ParseDecimal(s: string): Option<real> {
    if |s| > 0 && (s[0] == '-' || s[0] == '+') then
      match UnsignedDecimal(s[1..])
      case Some(r) => Some(if s[0] == '-' then -r else r)
      case None => None
    else
      UnsignedDecimal(s)
  }

  // ----- conversions -----

  /** Python's `int(f)` on a float: truncation toward zero. */
  function TruncateToZero(f: real): (t: int)
    ensures f >= 0.0 ==> 0.0 <= f - t as real < 1.0
    ensures f < 0.0 ==> 0.0 <= t as real - f < 1.0
  {
    if f >= 0.0 then f.Floor else -((-f).Floor)
  }

  /** `int(x)`; `None` where Python raises TypeError or ValueError. */
  function IntOf(x: Json): (r: Option<int>)
    ensures x.JInt? ==> r == Some(x.i)
    ensures x.JNull? || x.JList? || x.JObject? ==> r.None?
  {
    match x
    case JBool(b) => Some(if b then 1 else 0)
    case JInt(i) => Some(i)
    case JFloat(f) => Some(TruncateToZero(f))
    case JStr(s) => ParseInt(s)
    case _ => None
  }

  /** `float(x)`; `None` where Python raises. */
  function FloatOf(x: Json): (r: Option<real>)
    ensures x.JInt? ==> r == Some(x.i as real)
    ensures x.JNull? || x.JList? || x.JObject? ==> r.None?
  {
    match x
    case JBool(b) => Some(if b then 1.0 else 0.0)
    case JInt(i) => Some(i as real)
    case JFloat(f) => Some(f)
    case JStr(s) => ParseDecimal(s)
    case _ => None
  }

  /** The first and the past-the-last whole second since the epoch that
      `datetime.utcfromtimestamp` turns into a date: 0001-01-01 00:00:00 and
      10000-01-01 00:00:00. */
  const FirstSecond: int := -62135596800
  const EndSecond: int := 253402300800

  /** The timestamps that give a date of years 1 to 9999 once rounded to
      whole microseconds, half to even; outside them `utcfromtimestamp`
      raises ValueError or OverflowError. */
  predicate InDateRange(t: real) {
    FirstSecond as real - 0.0000005 <= t < EndSecond as real - 0.0000005
  }

  /** The values `datetime.utcfromtimestamp(x)` accepts: a number (a string
      or None is a TypeError) whose date lies in years 1 to 9999. */
  predicate IsTimestamp(x: Json) {
    match x
    case JBool(_) => true
    case JInt(i) => FirstSecond <= i < EndSecond
    case JFloat(f) => InDateRange(f)
    case _ => false
  }

  /** The seconds since the epoch `datetime.utcfromtimestamp(x)` reads. */
  function TimestampOf(x: Json): (r: Option<real>)
    ensures r.Some? <==> IsTimestamp(x)
  {
    if !IsTimestamp(x) then None
    else match x
      case JBool(b) => Some(if b then 1.0 else 0.0)
      case JInt(i) => Some(i as real)
      case JFloat(f) => Some(f)
      case _ => None
  }

  /** A number is read as itself exactly when its date lies in years 1 to
      9999; `True` and `False` are 1 and 0. Every timestamp read is in range. */
  lemma TimestampOfNumber(x: Json)
    ensures TimestampOf(x).Some? ==> InDateRange(TimestampOf(x).value)
    ensures x.JBool? ==> TimestampOf(x) == Some(if x.b then 1.0 else 0.0)
    ensures x.JInt? ==> TimestampOf(x) == (if InDateRange(x.i as real) then Some(x.i as real) else None)
    ensures x.JFloat? ==> TimestampOf(x) == (if InDateRange(x.f) then Some(x.f) else None)
    ensures !(x.JBool? || x.JInt? || x.JFloat?) ==> TimestampOf(x).None?
  {
  }

  /** A timestamp in seconds is read; the same instant in milliseconds lies
      past year 9999 and raises. */
  lemma MillisecondTimestampRaises()
    ensures TimestampOf(JInt(1700000000)) == Some(1700000000.0)
    ensures TimestampOf(JInt(1700000000000)).None?
  {
  }

  /** `str(x)`. Strings are themselves and integers and booleans are printed
      as Python prints them; `repr` stands for Python's printing of floats,
      lists and dicts. */
  function StrOf(x: Json, repr: Json -> string): (s: string)
    ensures x.JStr? ==> s == x.s
    ensures x.JInt? ==> ParseInt(s) == Some(x.i)
  {
    match x
    case JStr(s) => s
    case JInt(i) => IntRoundTrip(i); IntToString(i)
    case JBool(b) => if b then "True" else "False"
    case JNull => "None"
    case _ => repr(x)
  }

  // ----- round trip of the integer text -----

  lemma {:induction false} DigitsValueSnoc(s: string, c: char)
    requires AllDigits(s) && IsDigit(c)
    ensures AllDigits(s + [c])
    ensures DigitsValue(s + [c]) == DigitsValue(s) * 10 + (c as int - '0' as int)
  {
    assert (s + [c])[..|s + [c]| - 1] == s;
  }

  lemma {:induction false} NatRoundTrip(n: nat)
    ensures |NatToString(n)| > 0 && AllDigits(NatToString(n))
    ensures DigitsValue(NatToString(n)) == n
    decreases n
  {
    if n < 10 {
      assert NatToString(n) == [DigitChar(n)];
      assert NatToString(n)[..0] == [];
    } else {
      NatRoundTrip(n / 10);
      DigitsValueSnoc(NatToString(n / 10), DigitChar(n % 10));
    }
  }

  /** `int(str(i)) == i`. */
  lemma IntRoundTrip(i: int)
    ensures ParseInt(IntToString(i)) == Some(i)
  {
    if i < 0 {
      NatRoundTrip(-i);
      var s := IntToString(i);
      assert s[1..] == NatToString(-i);
    } else {
      NatRoundTrip(i);
    }
  }
}
