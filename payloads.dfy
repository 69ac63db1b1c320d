/** How the event constructors read a webhook payload dict. Every field is
    read in one of three ways, each with its own failure:

      - `data[key]` then a conversion: KeyError when the key is absent, and
        the conversion's error when it does not accept the value;
      - `data.get(key)` handed straight to a conversion (`None` included);
      - `check_for_none(kind, data.get(key), default)`: `None` gives the
        default, anything else is converted.

    A constructor makes its reads in source order and raises the error of
    the first one that fails. */
module Payloads {
  import opened Results
  import opened Json
  import opened Unknowns

  type Payload = map<string, Json>

  /** `data.get(key)`. */
  function Get(data: Payload, key: string): (x: Json)
    ensures key !in data ==> x == JNull
  {
    if key in data then data[key] else JNull
  }

  datatype Coercion = AsIs | AsInt | AsFloat | AsStr | AsTimestamp

  /** What a read looks at when its key gives nothing: `data.get(k, data.get(alt))`
      falls back when `k` is absent, `data.get(k) or data.get(alt)` when the
      value of `k` is falsy. */
  datatype Fallback = NoFallback | IfAbsent(alt: string) | IfFalsy(alt: string)

  datatype Mode = Subscript | Lookup | CheckForNone

  datatype Read = Read(key: string, fallback: Fallback, mode: Mode, coerce: Coercion)

  datatype PayloadError = KeyMissing(key: string) | BadValue(key: string)

  /** The conversion accepts the value. */
  predicate Coercible(c: Coercion, x: Json) {
    match c
    case AsIs => true
    case AsInt => IntOf(x).Some?
    case AsFloat => FloatOf(x).Some?
    case AsStr => true
    case AsTimestamp => IsTimestamp(x)
  }

  /** The value a read hands to its conversion (a subscript has no fallback). */
  function Source(data: Payload, r: Read): (x: Json)
    ensures r.mode == Subscript || r.fallback == NoFallback ==> x == Get(data, r.key)
  {
    if r.mode == Subscript then Get(data, r.key)
    else match r.fallback
    case NoFallback => Get(data, r.key)
    case IfAbsent(alt) => if r.key in data then data[r.key] else Get(data, alt)
    case IfFalsy(alt) => if Truthy(Get(data, r.key)) then Get(data, r.key) else Get(data, alt)
  }

  /** The exception a read raises, if any. */
  function ReadError(data: Payload, r: Read): (e: Option<PayloadError>)
    ensures r.mode == Subscript && r.key !in data ==> e == Some(KeyMissing(r.key))
    ensures e.None? && r.mode == CheckForNone && Source(data, r) != JNull ==> Coercible(r.coerce, Source(data, r))
    ensures e.None? && r.mode != CheckForNone ==> Coercible(r.coerce, Source(data, r))
    ensures e.Some? ==> e.value.key == r.key
  {
    var x := Source(data, r);
    match r.mode
    case Subscript =>
      if r.key !in data then Some(KeyMissing(r.key))
      else if Coercible(r.coerce, x) then None
      else Some(BadValue(r.key))
    case Lookup =>
      if Coercible(r.coerce, x) then None else Some(BadValue(r.key))
    case CheckForNone =>
      if x == JNull || Coercible(r.coerce, x) then None else Some(BadValue(r.key))
  }

  // ----- the values of reads that succeed -----

  /** `data[key]` kept as it is. */
  function RawValue(data: Payload, r: Read): (x: Json)
    requires r.mode == Subscript && ReadError(data, r).None?
    ensures x == data[r.key]
  {
    Source(data, r)
  }

  /** `data.get(key)` kept as it is. */
  function RawLookup(data: Payload, r: Read): (x: Json)
    requires r.mode == Lookup && r.fallback == NoFallback
    ensures x == Get(data, r.key)
  {
    Source(data, r)
  }

  /** `int(data[key])`. */
  function RequiredInt(data: Payload, r: Read): (i: int)
    requires r.mode == Subscript && r.coerce == AsInt && ReadError(data, r).None?
    ensures IntOf(data[r.key]) == Some(i)
  {
    IntOf(Source(data, r)).value
  }

  /** `float(data[key])`. */
  function RequiredFloat(data: Payload, r: Read): (f: real)
    requires r.mode == Subscript && r.coerce == AsFloat && ReadError(data, r).None?
    ensures FloatOf(data[r.key]) == Some(f)
  {
    FloatOf(Source(data, r)).value
  }

  /** The seconds `datetime.utcfromtimestamp` is given. */
  function RequiredTimestamp(data: Payload, r: Read): (t: real)
    requires r.mode != CheckForNone && r.coerce == AsTimestamp && ReadError(data, r).None?
    ensures TimestampOf(Source(data, r)) == Some(t)
  {
    TimestampOf(Source(data, r)).value
  }

  /** `check_for_none(int, ..., default)`. */
  function IntOrDefault(data: Payload, r: Read, default: Val<int>): (v: Val<int>)
    requires r.mode == CheckForNone && r.coerce == AsInt && ReadError(data, r).None?
    ensures Source(data, r) == JNull ==> v == default
    ensures Source(data, r) != JNull ==> v == Known(IntOf(Source(data, r)).value)
  {
    var x := Source(data, r);
    if x == JNull then default else Known(IntOf(x).value)
  }

  /** `check_for_none(int, ..., 0)`: the ids that default to zero. */
  function IntOrZero(data: Payload, r: Read): (i: int)
    requires r.mode == CheckForNone && r.coerce == AsInt && ReadError(data, r).None?
    ensures Source(data, r) == JNull ==> i == 0
    ensures Source(data, r) != JNull ==> IntOf(Source(data, r)) == Some(i)
  {
    var x := Source(data, r);
    if x == JNull then 0 else IntOf(x).value
  }

  /** `check_for_none(float, ..., default)`. */
  function FloatOrDefault(data: Payload, r: Read, default: Val<real>): (v: Val<real>)
    requires r.mode == CheckForNone && r.coerce == AsFloat && ReadError(data, r).None?
    ensures Source(data, r) == JNull ==> v == default
    ensures Source(data, r) != JNull ==> v == Known(FloatOf(Source(data, r)).value)
  {
    var x := Source(data, r);
    if x == JNull then default else Known(FloatOf(x).value)
  }

  /** `check_for_none(str, ..., default)`; never fails. */
  function StrOrDefault(data: Payload, r: Read, default: Val<string>, repr: Json -> string): (v: Val<string>)
    requires r.mode == CheckForNone && r.coerce == AsStr
    ensures Source(data, r) == JNull ==> v == default
    ensures Source(data, r).JStr? ==> v == Known(Source(data, r).s)
  {
    var x := Source(data, r);
    if x == JNull then default else Known(StrOf(x, repr))
  }
}
