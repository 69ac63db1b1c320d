/** The config readers a filter constructor uses (`parse_as_type`,
    `parse_as_set`, `parse_as_list`, `parse_as_time`, `parse_as_dict`) and
    the limits they produce. Each reader takes its key out of the filter's
    config; a missing key or an explicit `null` means the limit is unset. A
    value the reader cannot convert makes the constructor raise. */
module FilterParams {
  import opened Results
  import opened Json

  /** A compiled `GymUtils.create_regex` pattern, known by its source text. */
  type Pattern = string

  /** A parsed limit, by the kind of reader that produced it. */
  datatype Limit =
    | Ids(ids: set<int>)
    | Syms(syms: set<string>)
    | IdList(idList: seq<int>)
    | Int(i: int)
    | Float(f: real)
    | Flag(b: bool)
    | Patterns(patterns: set<Pattern>)
    | Names(names: seq<string>)
    | Clock(t: int)
    | StrMap(m: map<string, string>)

  /** Converts every item of a list, failing when any item fails. */
  function ParseEach<T>(f: Json -> Option<T>, items: seq<Json>): (r: Option<seq<T>>)
    ensures r.Some? <==> forall i :: 0 <= i < |items| ==> f(items[i]).Some?
    ensures r.Some? ==> |r.value| == |items|
                        && forall i :: 0 <= i < |items| ==> Some(r.value[i]) == f(items[i])
    decreases |items|
  {
    if items == [] then Some([])
    else
      var last := items[|items| - 1];
      match (ParseEach(f, items[..|items| - 1]), f(last))
      case (Some(front), Some(x)) => Some(front + [x])
      case _ => None
  }

  /** `parse_as_set(f, key, data)` on the popped value: unset for `None`, the
      set of converted items for a list, an error for anything else. */
  function ParseSet<T>(f: Json -> Option<T>, x: Json): (r: Result<Option<set<T>>, ()>)
    ensures x == JNull ==> r == Success(None)
    ensures r.Success? && r.value.Some? ==>
              x.JList? && forall i :: 0 <= i < |x.items| ==> f(x.items[i]).Some? && f(x.items[i]).value in r.value.value
    ensures r.Success? && r.value.Some? ==>
              forall v :: v in r.value.value ==> exists i :: 0 <= i < |x.items| && f(x.items[i]) == Some(v)
    ensures x.JList? ==> (r.Failure? <==> exists i :: 0 <= i < |x.items| && f(x.items[i]).None?)
    ensures !x.JList? && x != JNull ==> r.Failure?
  {
    match x
    case JNull => Success(None)
    case JList(items) =>
      (match ParseEach(f, items)
       case Some(vs) => Success(Some(set i | 0 <= i < |vs| :: vs[i]))
       case None => Failure(()))
    case _ => Failure(())
  }

  /** `parse_as_list(f, key, data)`: as `ParseSet`, keeping order and repeats. */
  function ParseList<T>(f: Json -> Option<T>, x: Json): (r: Result<Option<seq<T>>, ()>)
    ensures x == JNull ==> r == Success(None)
    ensures r.Success? && r.value.Some? ==>
              x.JList? && |r.value.value| == |x.items|
              && forall i :: 0 <= i < |x.items| ==> Some(r.value.value[i]) == f(x.items[i])
    ensures x.JList? ==> (r.Failure? <==> exists i :: 0 <= i < |x.items| && f(x.items[i]).None?)
    ensures !x.JList? && x != JNull ==> r.Failure?
  {
    match x
    case JNull => Success(None)
    case JList(items) =>
      (match ParseEach(f, items)
       case Some(vs) => Success(Some(vs))
       case None => Failure(()))
    case _ => Failure(())
  }

  /** `parse_as_type(kind, key, data)`: unset for `None`, else `kind(value)`. */
  function ParseType<T>(kind: Json -> Option<T>, x: Json): (r: Result<Option<T>, ()>)
    ensures x == JNull ==> r == Success(None)
    ensures x != JNull ==> (r.Success? <==> kind(x).Some?)
    ensures x != JNull && r.Success? ==> r.value == kind(x)
  {
    if x == JNull then Success(None)
    else match kind(x)
      case Some(v) => Success(Some(v))
      case None => Failure(())
  }

  /** `bool(x)`, which never fails. */
  function BoolOf(x: Json): (r: Option<bool>)
    ensures r == Some(Truthy(x))
  {
    Some(Truthy(x))
  }

  /** The string-to-string dict `parse_as_dict(str, str, key, data)` reads
      from an object (a later entry overrides an earlier one with its key). */
  function StrDict(entries: seq<(string, Json)>, repr: Json -> string): (m: map<string, string>)
    ensures m.Keys == set i | 0 <= i < |entries| :: entries[i].0
    decreases |entries|
  {
    if entries == [] then map[]
    else
      var last := entries[|entries| - 1];
      var front := StrDict(entries[..|entries| - 1], repr);
      assert forall i :: 0 <= i < |entries| - 1 ==> entries[..|entries| - 1][i] == entries[i];
      front[last.0 := StrOf(last.1, repr)]
  }
}
