/** The static tables and helper functions the events consult (Pokemon base
    stats, move data, PvP rankings, weather boosts, gender symbols, the
    clock). Their contents are data files outside this model, so each one is
    a parameter: a value of `Tables` fixes all of them at once. */
module Helpers {
  import opened Json
  import opened Unknowns

  /** One league's part of `PvpUtils.get_pvp_info`: rank product, the
      monster ranked, its CP, level, candy and stardust cost. */
  datatype League = League(product: Val<real>, monId: int, cp: Val<int>, level: Val<real>,
                           candy: Val<int>, stardust: Val<int>)

  /** What `get_move_type`, `get_move_damage`, `get_move_dps`,
      `get_move_duration` and `get_move_energy` report for a move id. */
  datatype Move = Move(typeId: Val<int>, damage: Val<int>, dps: Val<real>, duration: Val<int>,
                       energy: Val<int>)

  datatype Tables = Tables(
    /** `is_weather_boosted(weather, monster, form)` for a known weather id. */
    weatherBoosts: (int, int, int) -> bool,
    /** `get_pvp_info(monster, form, atk, def, sta, level)`: great and ultra league. */
    pvpInfo: (int, int, int, int, int, Val<int>) -> (League, League),
    /** `get_pokemon_size(monster, height, weight)`. */
    pokemonSize: (int, real, real) -> int,
    /** `get_base_types(monster, form)`. */
    baseTypes: (int, int) -> (Val<int>, Val<int>),
    /** `MonUtils.get_shiny_status(monster, form)`. */
    shinyStatus: (int, int) -> bool,
    /** `get_gender_sym(gender)`. */
    genderSym: Val<int> -> Val<string>,
    /** The five move helpers. */
    move: Val<int> -> Move,
    /** `get_seconds_remaining(time)` against the current clock. */
    secondsRemaining: real -> int,
    /** `str(x)` for floats, lists and dicts. */
    repr: Json -> string)

  /** `is_weather_boosted` on a possibly unknown weather: an unknown weather
      boosts nothing. */
  predicate Boosts(t: Tables, weather: Val<int>, monster: int, form: int) {
    weather.Known? && t.weatherBoosts(weather.v, monster, form)
  }

  /** `boosted_weather_id`: unknown with the weather, the weather itself when
      it boosts the monster, and 0 otherwise. */
  function BoostedWeather(t: Tables, weather: Val<int>, monster: int, form: int): (b: Val<int>)
    ensures weather.Unknown? ==> b == Unknown(Tiny)
    ensures Boosts(t, weather, monster, form) ==> b == weather
    ensures weather.Known? && !Boosts(t, weather, monster, form) ==> b == Known(0)
  {
    var b := if weather.Known? then Known(0) else Unknown(Tiny);
    if Boosts(t, weather, monster, form) then weather else b
  }
}
