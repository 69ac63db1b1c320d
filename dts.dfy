/** The decisions inside `generate_dts`, the dict of text substitutions an
    event offers to alert templates. Most entries are formatting; these are
    the entries that choose between values. */
module Dts {
  import opened Unknowns

  /** `dts = custom_dts.copy(); dts.update(builtin)`: every key of either,
      the built-in value winning on a clash. */
  function MergeDts<V>(custom: map<string, V>, builtin: map<string, V>): (dts: map<string, V>)
    ensures dts.Keys == custom.Keys + builtin.Keys
    ensures forall k :: k in builtin ==> dts[k] == builtin[k]
    ensures forall k :: k in custom && k !in builtin ==> dts[k] == custom[k]
  {
    custom + builtin
  }

  /** A tri-state flag read from a possibly unknown number: `x > 0` when
      known, `Unknown.REGULAR` otherwise (`spawn_verified`, `sponsored`,
      `ex_eligible`). */
  function Positive(x: Val<int>): (b: Val<bool>)
    ensures b.Known? <==> x.Known?
    ensures b == Known(true) <==> x.Known? && x.v > 0
    ensures b == Known(false) <==> x.Known? && x.v <= 0
    ensures x.Unknown? ==> b == Unknown(Regular)
  {
    match x
    case Known(v) => Known(v > 0)
    case Unknown(_) => Unknown(Regular)
  }

  /** `'' if x != expected else emoji`: the text shows only on that exact
      known value (an unknown value never equals a number). */
  function EmojiIfEquals(x: Val<int>, expected: int, emoji: string): (s: string)
    ensures s != "" ==> x == Known(expected)
    ensures x == Known(expected) ==> s == emoji
  {
    if x == Known(expected) then emoji else ""
  }

  /** `boosted_weather_or_empty`: empty when no weather boosts (id 0),
      otherwise the weather's name or, when that is unknown, empty. */
  function BoostedWeatherOrEmpty(boosted: Val<int>, name: Val<string>): (s: string)
    ensures boosted == Known(0) ==> s == ""
    ensures boosted != Known(0) ==> s == OrEmpty(name)
  {
    if boosted == Known(0) then "" else OrEmpty(name)
  }

  /** `boosted_or_empty` of a monster: the boosted text exactly when a
      weather is known to boost it. */
  function MonBoostedOrEmpty(boosted: Val<int>, boostedText: string): (s: string)
    ensures boosted.Known? && boosted.v != 0 ==> s == boostedText
    ensures boosted.Unknown? || boosted.v == 0 ==> s == ""
  {
    if boosted.Known? && boosted.v != 0 then boostedText else ""
  }

  /** `boosted_or_empty` of a raid: the boosted text exactly when the boss
      is at level 25. */
  function RaidBoostedOrEmpty(bossLevel: int, boostedText: string): (s: string)
    ensures bossLevel == 25 ==> s == boostedText
    ensures bossLevel != 25 ==> s == ""
  {
    if bossLevel == 25 then boostedText else ""
  }

  /** `types`: both type names joined by '/' when the second is known, else
      the first alone (printed as its sentinel when unknown). */
  function TypesText(type1: Val<string>, type2: Val<string>): (s: string)
    ensures type2.Known? ==> s == Show(type1) + "/" + type2.v
    ensures type2.Unknown? ==> s == Show(type1)
  {
    if type2.Known? then Show(type1) + "/" + type2.v else Show(type1)
  }

  /** `big_karp`: 'big' for a Magikarp (129) known to weigh at least 13.13. */
  function BigKarp(monster: int, weight: Val<real>): (s: string)
    ensures s == "big" <==> monster == 129 && weight.Known? && weight.v >= 13.13
    ensures s != "big" ==> s == ""
  {
    if monster == 129 && weight.Known? && weight.v >= 13.13 then "big" else ""
  }

  /** `tiny_rat`: 'tiny' for a Rattata (19) known to weigh at most 2.41. */
  function TinyRat(monster: int, weight: Val<real>): (s: string)
    ensures s == "tiny" <==> monster == 19 && weight.Known? && weight.v <= 2.41
    ensures s != "tiny" ==> s == ""
  {
    if monster == 19 && weight.Known? && weight.v <= 2.41 then "tiny" else ""
  }
}
