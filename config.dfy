/** Configuration dicts as the alarm and filter constructors receive them:
    decoded JSON objects, kept as their entries in insertion order so that
    "the first leftover key" means what it means for a Python dict.

    The constructors take recognised keys out with `dict.pop(key, default)`
    and then reject whatever is left. Every key popped is a distinct literal,
    so a pop reads the dict as it was given; what is left afterwards is the
    entries whose key was never popped. Both are stated here once. */
module Config {
  import opened Results
  import opened Json

  type Entries = seq<(string, Json)>

  /** The value stored under `key`, if any (the first entry, should a decoded
      object carry a key twice). */
  function Find(e: Entries, key: string): (r: Option<Json>)
    ensures r.Some? <==> exists i :: 0 <= i < |e| && e[i].0 == key
    ensures r.Some? ==> exists i :: 0 <= i < |e| && e[i] == (key, r.value)
    decreases |e|
  {
    if e == [] then None
    else if e[0].0 == key then Some(e[0].1)
    else
      var r := Find(e[1..], key);
      assert forall i :: 0 <= i < |e[1..]| ==> e[1..][i] == e[i + 1];
      r
  }

  /** `d.pop(key, default)` as far as the popped value goes. */
  function PopOr(e: Entries, key: string, default: Json): (v: Json)
    ensures (exists i :: 0 <= i < |e| && e[i].0 == key) ==> Some(v) == Find(e, key)
    ensures (forall i :: 0 <= i < |e| ==> e[i].0 != key) ==> v == default
  {
    Find(e, key).GetOr(default)
  }

  /** `v` is the value configured under `key`, or `dflt` when there is none. */
  predicate From(e: Entries, key: string, v: Json, dflt: Json) {
    (Find(e, key).Some? ==> v == Find(e, key).value) && (Find(e, key).None? ==> v == dflt)
  }

  /** Changing the value stored under one key changes no other key's value. */
  lemma {:induction false} FindOtherKey(e: Entries, i: nat, v: Json, key: string)
    requires i < |e| && e[i].0 != key
    ensures Find(e[i := (e[i].0, v)], key) == Find(e, key)
    decreases |e|
  {
    if e[0].0 != key && i > 0 {
      assert e[i := (e[i].0, v)][1..] == e[1..][i - 1 := (e[i].0, v)];
      FindOtherKey(e[1..], i - 1, v, key);
    }
  }

  /** Changing a value leaves the keys, and so the first unrecognised one,
      as they were. */
  lemma {:induction false} UnrecognizedIgnoresValues(e: Entries, i: nat, v: Json, known: set<string>)
    requires i < |e|
    ensures FirstUnrecognized(e[i := (e[i].0, v)], known) == FirstUnrecognized(e, known)
    decreases |e|
  {
    if e[0].0 in known && i > 0 {
      assert e[i := (e[i].0, v)][1..] == e[1..][i - 1 := (e[i].0, v)];
      UnrecognizedIgnoresValues(e[1..], i - 1, v, known);
    }
  }

  /** The first key, in insertion order, that is not among the recognised ones. */
  function FirstUnrecognized(e: Entries, known: set<string>): (r: Option<string>)
    ensures r.None? <==> forall i :: 0 <= i < |e| ==> e[i].0 in known
    ensures r.Some? ==> r.value !in known
    decreases |e|
  {
    if e == [] then None
    else if e[0].0 !in known then Some(e[0].0)
    else
      var r := FirstUnrecognized(e[1..], known);
      assert forall i :: 0 <= i < |e[1..]| ==> e[1..][i] == e[i + 1];
      r
  }

  /** The key reported is the first entry's key outside the recognised set. */
  lemma {:induction false} FirstUnrecognizedIsFirst(e: Entries, known: set<string>)
    requires FirstUnrecognized(e, known).Some?
    ensures exists i :: 0 <= i < |e| && e[i].0 == FirstUnrecognized(e, known).value
                        && forall j :: 0 <= j < i ==> e[j].0 in known
    decreases |e|
  {
    if e[0].0 in known {
      FirstUnrecognizedIsFirst(e[1..], known);
      var k := FirstUnrecognized(e, known).value;
      var i :| 0 <= i < |e[1..]| && e[1..][i].0 == k
               && forall j :: 0 <= j < i ==> e[1..][j].0 in known;
      assert e[i + 1].0 == k;
      forall j | 0 <= j < i + 1 ensures e[j].0 in known {
        if j > 0 { assert e[j] == e[1..][j - 1]; }
      }
    } else {
      assert e[0].0 == FirstUnrecognized(e, known).value;
    }
  }

  /** The keys of the entries whose key is not recognised, in order: what a
      dict still holds after every recognised key has been popped. */
  function Leftover(e: Entries, known: set<string>): (r: seq<string>)
    ensures forall i :: 0 <= i < |r| ==> r[i] !in known
    ensures r == [] <==> FirstUnrecognized(e, known).None?
    ensures r != [] ==> r[0] == FirstUnrecognized(e, known).value
    decreases |e|
  {
    if e == [] then []
    else if e[0].0 !in known then [e[0].0] + Leftover(e[1..], known)
    else Leftover(e[1..], known)
  }

  /** `for key in data: raise ...`: the loop that rejects what is left,
      reporting the first key outside the recognised ones. */
  method CheckLeftover(e: Entries, known: set<string>) returns (r: Option<string>)
    ensures r == FirstUnrecognized(e, known)
  {
    var j := 0;
    while j < |e|
      invariant 0 <= j <= |e|
      invariant FirstUnrecognized(e, known) == FirstUnrecognized(e[j..], known)
    {
      if e[j].0 !in known {
        return Some(e[j].0);
      }
      assert e[j..][1..] == e[j + 1..];
      j := j + 1;
    }
    return None;
  }
}
