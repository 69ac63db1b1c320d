/** A monster sighting (`MonEvent`): the webhook payload turned into typed
    fields, the fields derived from them, and the one later update, the
    weather taken from the cache. */
module MonEvents {
  import opened Results
  import opened Json
  import opened Unknowns
  import opened Payloads
  import opened Helpers
  import opened Dts

  // ----- the payload reads, in the order the constructor makes them -----

  const EncounterId := Read("encounter_id", NoFallback, Subscript, AsIs)
  const PokemonId := Read("pokemon_id", NoFallback, Subscript, AsInt)
  const Form := Read("form", NoFallback, CheckForNone, AsInt)
  const DisappearTime := Read("disappear_time", NoFallback, Subscript, AsTimestamp)
  const SpawnStart := Read("spawn_start", NoFallback, CheckForNone, AsInt)
  const SpawnEnd := Read("spawn_end", NoFallback, CheckForNone, AsInt)
  const Verified := Read("verified", IfAbsent("disappear_time_verified"), CheckForNone, AsInt)
  const SpawnpointId := Read("spawnpoint_id", NoFallback, CheckForNone, AsStr)
  const Latitude := Read("latitude", NoFallback, Subscript, AsFloat)
  const Longitude := Read("longitude", NoFallback, Subscript, AsFloat)
  const Weather := Read("weather", NoFallback, CheckForNone, AsInt)
  const PokemonLevel := Read("pokemon_level", NoFallback, CheckForNone, AsInt)
  const Cp := Read("cp", NoFallback, CheckForNone, AsInt)
  const Attack := Read("individual_attack", NoFallback, CheckForNone, AsInt)
  const Defense := Read("individual_defense", NoFallback, CheckForNone, AsInt)
  const Stamina := Read("individual_stamina", NoFallback, CheckForNone, AsInt)
  const Move1 := Read("move_1", NoFallback, CheckForNone, AsInt)
  const Move2 := Read("move_2", NoFallback, CheckForNone, AsInt)
  const BaseCatch := Read("base_catch", IfAbsent("capture_1"), CheckForNone, AsFloat)
  const GreatCatch := Read("great_catch", IfAbsent("capture_2"), CheckForNone, AsFloat)
  const UltraCatch := Read("ultra_catch", IfAbsent("capture_3"), CheckForNone, AsFloat)
  const AtkGrade := Read("atk_grade", NoFallback, CheckForNone, AsStr)
  const DefGrade := Read("def_grade", NoFallback, CheckForNone, AsStr)
  const Gender := Read("gender", NoFallback, CheckForNone, AsInt)
  const Height := Read("height", NoFallback, CheckForNone, AsFloat)
  const Weight := Read("weight", NoFallback, CheckForNone, AsFloat)
  const Costume := Read("costume", NoFallback, CheckForNone, AsInt)
  const Rarity := Read("rarity", NoFallback, CheckForNone, AsInt)
  const DisplayPokemonId := Read("display_pokemon_id", NoFallback, CheckForNone, AsInt)
  const DisplayForm := Read("display_form", NoFallback, CheckForNone, AsInt)
  const DisplayCostume := Read("display_costume", NoFallback, CheckForNone, AsInt)
  const DisplayGender := Read("display_gender", NoFallback, CheckForNone, AsInt)

  /** The exception `MonEvent(data)` raises: that of the first read, in
      the order above, that fails. */
  function MonFailure(data: Payload): (r: Option<PayloadError>)
    ensures r.None? <==> MonReadsOk(data)
    ensures "encounter_id" !in data ==> r == Some(KeyMissing("encounter_id"))
    ensures r.Some? && r.value.KeyMissing? ==>
              r.value.key in {"encounter_id", "pokemon_id", "disappear_time", "latitude", "longitude"}
  {
    ReadError(data, EncounterId)
      .OrElse(ReadError(data, PokemonId))
      .OrElse(ReadError(data, Form))
      .OrElse(ReadError(data, DisappearTime))
      .OrElse(ReadError(data, SpawnStart))
      .OrElse(ReadError(data, SpawnEnd))
      .OrElse(ReadError(data, Verified))
      .OrElse(ReadError(data, SpawnpointId))
      .OrElse(ReadError(data, Latitude))
      .OrElse(ReadError(data, Longitude))
      .OrElse(ReadError(data, Weather))
      .OrElse(ReadError(data, PokemonLevel))
      .OrElse(ReadError(data, Cp))
      .OrElse(ReadError(data, Attack))
      .OrElse(ReadError(data, Defense))
      .OrElse(ReadError(data, Stamina))
      .OrElse(ReadError(data, Move1))
      .OrElse(ReadError(data, Move2))
      .OrElse(ReadError(data, BaseCatch))
      .OrElse(ReadError(data, GreatCatch))
      .OrElse(ReadError(data, UltraCatch))
      .OrElse(ReadError(data, AtkGrade))
      .OrElse(ReadError(data, DefGrade))
      .OrElse(ReadError(data, Gender))
      .OrElse(ReadError(data, Height))
      .OrElse(ReadError(data, Weight))
      .OrElse(ReadError(data, Costume))
      .OrElse(ReadError(data, Rarity))
      .OrElse(ReadError(data, DisplayPokemonId))
      .OrElse(ReadError(data, DisplayForm))
      .OrElse(ReadError(data, DisplayCostume))
      .OrElse(ReadError(data, DisplayGender))
  }

  /** Every read succeeds. */
  predicate MonReadsOk(data: Payload) {
    && ReadError(data, EncounterId).None?
    && ReadError(data, PokemonId).None?
    && ReadError(data, Form).None?
    && ReadError(data, DisappearTime).None?
    && ReadError(data, SpawnStart).None?
    && ReadError(data, SpawnEnd).None?
    && ReadError(data, Verified).None?
    && ReadError(data, SpawnpointId).None?
    && ReadError(data, Latitude).None?
    && ReadError(data, Longitude).None?
    && ReadError(data, Weather).None?
    && ReadError(data, PokemonLevel).None?
    && ReadError(data, Cp).None?
    && ReadError(data, Attack).None?
    && ReadError(data, Defense).None?
    && ReadError(data, Stamina).None?
    && ReadError(data, Move1).None?
    && ReadError(data, Move2).None?
    && ReadError(data, BaseCatch).None?
    && ReadError(data, GreatCatch).None?
    && ReadError(data, UltraCatch).None?
    && ReadError(data, AtkGrade).None?
    && ReadError(data, DefGrade).None?
    && ReadError(data, Gender).None?
    && ReadError(data, Height).None?
    && ReadError(data, Weight).None?
    && ReadError(data, Costume).None?
    && ReadError(data, Rarity).None?
    && ReadError(data, DisplayPokemonId).None?
    && ReadError(data, DisplayForm).None?
    && ReadError(data, DisplayCostume).None?
    && ReadError(data, DisplayGender).None?
  }

  // ----- the derived fields -----

  /** IV percentage, `100 * (atk + def + sta) / 45`, as an exact real. */
  function IvPercent(atk: int, def: int, sta: int): real {
    100.0 * (atk + def + sta) as real / 45.0
  }

  /** With every IV in 0..15 the percentage lies in [0, 100]. */
  lemma IvInRange(atk: int, def: int, sta: int)
    requires 0 <= atk <= 15 && 0 <= def <= 15 && 0 <= sta <= 15
    ensures 0.0 <= IvPercent(atk, def, sta) <= 100.0
  {
  }

  /** The percentage is 100 exactly for 15/15/15. */
  lemma IvPerfect(atk: int, def: int, sta: int)
    requires 0 <= atk <= 15 && 0 <= def <= 15 && 0 <= sta <= 15
    ensures IvPercent(atk, def, sta) == 100.0 <==> atk == 15 && def == 15 && sta == 15
  {
  }

  /** `iv`: known exactly when all three IVs are. */
  function IvOf(atk: Val<int>, def: Val<int>, sta: Val<int>): (iv: Val<real>)
    ensures iv.Known? <==> AllKnown3(atk, def, sta)
    ensures iv.Known? ==> iv.v == IvPercent(atk.v, def.v, sta.v)
    ensures iv.Unknown? ==> iv.size == Small
  {
    if AllKnown3(atk, def, sta) then Known(IvPercent(atk.v, def.v, sta.v)) else Unknown(Small)
  }

  /** The league entry used when the IVs are not all known: every figure
      unknown, and the monster ranked is the monster itself. */
  function NoLeague(monster: int): League {
    League(Unknown(Small), monster, Unknown(Small), Unknown(Small), Unknown(Small), Unknown(Small))
  }

  /** The great and ultra league entries. */
  function PvpOf(t: Tables, monster: int, form: int, atk: Val<int>, def: Val<int>, sta: Val<int>,
                 level: Val<int>): (leagues: (League, League))
    ensures !AllKnown3(atk, def, sta) ==> leagues == (NoLeague(monster), NoLeague(monster))
    ensures !AllKnown3(atk, def, sta) ==> leagues.0.monId == monster && leagues.1.monId == monster
    ensures AllKnown3(atk, def, sta) ==> leagues == t.pvpInfo(monster, form, atk.v, def.v, sta.v, level)
  {
    if AllKnown3(atk, def, sta) then t.pvpInfo(monster, form, atk.v, def.v, sta.v, level)
    else (NoLeague(monster), NoLeague(monster))
  }

  /** `size_id`: known only when height and weight both are. */
  function SizeOf(t: Tables, monster: int, height: Val<real>, weight: Val<real>): (size: Val<int>)
    ensures size.Known? <==> height.Known? && weight.Known?
    ensures size.Known? ==> size.v == t.pokemonSize(monster, height.v, weight.v)
    ensures size.Unknown? ==> size.size == Small
  {
    if height.Known? && weight.Known? then Known(t.pokemonSize(monster, height.v, weight.v))
    else Unknown(Small)
  }

  // ----- the event -----

  class MonEvent {
    const tables: Tables

    const encId: Json
    const monsterId: int
    const formId: int
    const disappearTime: real
    const timeLeft: int
    const spawnStart: Val<int>
    const spawnEnd: Val<int>
    const spawnVerified: Val<int>
    const spawnpointId: Val<string>
    const lat: real
    const lng: real
    var distance: Val<real>
    var direction: Val<string>
    var weatherId: Val<int>
    var boostedWeatherId: Val<int>
    const monLvl: Val<int>
    const cp: Val<int>
    const atkIv: Val<int>
    const defIv: Val<int>
    const staIv: Val<int>
    const iv: Val<real>
    const great: League
    const ultra: League
    const quickId: Val<int>
    const quick: Move
    const chargeId: Val<int>
    const charge: Move
    const baseCatch: Val<real>
    const greatCatch: Val<real>
    const ultraCatch: Val<real>
    const atkGrade: Val<string>
    const defGrade: Val<string>
    const gender: Val<string>
    const height: Val<real>
    const weight: Val<real>
    const sizeId: Val<int>
    const types: (Val<int>, Val<int>)
    const canBeShiny: bool
    const costumeId: int
    const rarityId: Val<int>
    const displayMonsterId: int
    const displayFormId: int
    const displayCostumeId: int
    const displayGender: Val<string>
    const name: int
    var geofence: Val<string>
    var customDts: map<string, string>

    /** The rules tying the derived fields to the fields they come from. */
    predicate Valid()
      reads this
    {
      && iv == IvOf(atkIv, defIv, staIv)
      && (great, ultra) == PvpOf(tables, monsterId, formId, atkIv, defIv, staIv, monLvl)
      && sizeId == SizeOf(tables, monsterId, height, weight)
      && boostedWeatherId == BoostedWeather(tables, weatherId, monsterId, formId)
    }

    /** Every field the constructor reads from `data` holds the value its
        read gives: `int(data[...])`, `check_for_none(kind, data.get(...),
        default)` with the source's default, or a table lookup on those. */
    predicate ReadFrom(data: Payload)
      reads this
      requires MonReadsOk(data)
    {
      && encId == RawValue(data, EncounterId)
      && monsterId == RequiredInt(data, PokemonId)
      && formId == IntOrZero(data, Form)
      && disappearTime == RequiredTimestamp(data, DisappearTime)
      && timeLeft == tables.secondsRemaining(disappearTime)
      && spawnStart == IntOrDefault(data, SpawnStart, Unknown(Regular))
      && spawnEnd == IntOrDefault(data, SpawnEnd, Unknown(Regular))
      && spawnVerified == IntOrDefault(data, Verified, Unknown(Regular))
      && spawnpointId == StrOrDefault(data, SpawnpointId, Unknown(Regular), tables.repr)
      && lat == RequiredFloat(data, Latitude)
      && lng == RequiredFloat(data, Longitude)
      && monLvl == IntOrDefault(data, PokemonLevel, Unknown(Tiny))
      && cp == IntOrDefault(data, Cp, Unknown(Tiny))
      && atkIv == IntOrDefault(data, Attack, Unknown(Tiny))
      && defIv == IntOrDefault(data, Defense, Unknown(Tiny))
      && staIv == IntOrDefault(data, Stamina, Unknown(Tiny))
      && quickId == IntOrDefault(data, Move1, Unknown(Tiny)) && quick == tables.move(quickId)
      && chargeId == IntOrDefault(data, Move2, Unknown(Tiny)) && charge == tables.move(chargeId)
      && baseCatch == FloatOrDefault(data, BaseCatch, Unknown(Tiny))
      && greatCatch == FloatOrDefault(data, GreatCatch, Unknown(Tiny))
      && ultraCatch == FloatOrDefault(data, UltraCatch, Unknown(Tiny))
      && atkGrade == StrOrDefault(data, AtkGrade, Unknown(Tiny), tables.repr)
      && defGrade == StrOrDefault(data, DefGrade, Unknown(Tiny), tables.repr)
      && gender == tables.genderSym(IntOrDefault(data, Gender, Unknown(Tiny)))
      && height == FloatOrDefault(data, Height, Unknown(Small))
      && weight == FloatOrDefault(data, Weight, Unknown(Small))
      && types == tables.baseTypes(monsterId, formId)
      && canBeShiny == tables.shinyStatus(monsterId, formId)
      && costumeId == IntOrZero(data, Costume)
      && rarityId == IntOrDefault(data, Rarity, Unknown(Tiny))
      && displayMonsterId == IntOrZero(data, DisplayPokemonId)
      && displayFormId == IntOrZero(data, DisplayForm)
      && displayCostumeId == IntOrZero(data, DisplayCostume)
      && displayGender == tables.genderSym(IntOrDefault(data, DisplayGender, Unknown(Tiny)))
      && name == monsterId
    }

    /** `MonEvent(data)` on a payload every read of which succeeds. */
    constructor (data: Payload, t: Tables)
      requires MonReadsOk(data)
      ensures Valid() && tables == t && ReadFrom(data)
      ensures weatherId == IntOrDefault(data, Weather, Unknown(Tiny))
      ensures Source(data, Weather) == JNull ==> weatherId == Unknown(Tiny)
      ensures Source(data, Weather) != JNull ==> weatherId.Known? && IntOf(Source(data, Weather)) == Some(weatherId.v)
      ensures distance == Unknown(Small) && direction == Unknown(Tiny)
      ensures geofence == Unknown(Regular) && customDts == map[] && name == monsterId
    {
      var mon := RequiredInt(data, PokemonId);
      var form := IntOrZero(data, Form);
      var weather := IntOrDefault(data, Weather, Unknown(Tiny));
      var lvl := IntOrDefault(data, PokemonLevel, Unknown(Tiny));
      var a := IntOrDefault(data, Attack, Unknown(Tiny));
      var d := IntOrDefault(data, Defense, Unknown(Tiny));
      var s := IntOrDefault(data, Stamina, Unknown(Tiny));
      var h := FloatOrDefault(data, Height, Unknown(Small));
      var w := FloatOrDefault(data, Weight, Unknown(Small));
      var leagues := PvpOf(t, mon, form, a, d, s, lvl);
      var moveQuick := IntOrDefault(data, Move1, Unknown(Tiny));
      var moveCharge := IntOrDefault(data, Move2, Unknown(Tiny));
      var disappear := RequiredTimestamp(data, DisappearTime);

      tables := t;
      encId := RawValue(data, EncounterId);
      monsterId := mon;
      formId := form;
      disappearTime := disappear;
      timeLeft := t.secondsRemaining(disappear);
      spawnStart := IntOrDefault(data, SpawnStart, Unknown(Regular));
      spawnEnd := IntOrDefault(data, SpawnEnd, Unknown(Regular));
      spawnVerified := IntOrDefault(data, Verified, Unknown(Regular));
      spawnpointId := StrOrDefault(data, SpawnpointId, Unknown(Regular), t.repr);
      lat := RequiredFloat(data, Latitude);
      lng := RequiredFloat(data, Longitude);
      distance := Unknown(Small);
      direction := Unknown(Tiny);
      weatherId := weather;
      boostedWeatherId := BoostedWeather(t, weather, mon, form);
      monLvl := lvl;
      cp := IntOrDefault(data, Cp, Unknown(Tiny));
      atkIv := a;
      defIv := d;
      staIv := s;
      iv := IvOf(a, d, s);
      great := leagues.0;
      ultra := leagues.1;
      quickId := moveQuick;
      quick := t.move(moveQuick);
      chargeId := moveCharge;
      charge := t.move(moveCharge);
      baseCatch := FloatOrDefault(data, BaseCatch, Unknown(Tiny));
      greatCatch := FloatOrDefault(data, GreatCatch, Unknown(Tiny));
      ultraCatch := FloatOrDefault(data, UltraCatch, Unknown(Tiny));
      atkGrade := StrOrDefault(data, AtkGrade, Unknown(Tiny), t.repr);
      defGrade := StrOrDefault(data, DefGrade, Unknown(Tiny), t.repr);
      gender := t.genderSym(IntOrDefault(data, Gender, Unknown(Tiny)));
      height := h;
      weight := w;
      sizeId := SizeOf(t, mon, h, w);
      types := t.baseTypes(mon, form);
      canBeShiny := t.shinyStatus(mon, form);
      costumeId := IntOrZero(data, Costume);
      rarityId := IntOrDefault(data, Rarity, Unknown(Tiny));
      displayMonsterId := IntOrZero(data, DisplayPokemonId);
      displayFormId := IntOrZero(data, DisplayForm);
      displayCostumeId := IntOrZero(data, DisplayCostume);
      displayGender := t.genderSym(IntOrDefault(data, DisplayGender, Unknown(Tiny)));
      name := mon;
      geofence := Unknown(Regular);
      customDts := map[];
    }

    /** Builds the event, or reports the exception the first failing read raises. */
    static method FromPayload(data: Payload, t: Tables) returns (r: Result<MonEvent, PayloadError>)
      ensures r.Failure? <==> MonFailure(data).Some?
      ensures r.Failure? ==> r.error == MonFailure(data).value
      ensures r.Success? ==> fresh(r.value) && r.value.Valid() && r.value.tables == t
      ensures r.Success? ==> MonReadsOk(data) && r.value.ReadFrom(data)
      ensures r.Success? ==> r.value.weatherId == IntOrDefault(data, Weather, Unknown(Tiny))
      ensures r.Success? ==> r.value.distance == Unknown(Small) && r.value.direction == Unknown(Tiny)
      ensures r.Success? ==> r.value.geofence == Unknown(Regular) && r.value.customDts == map[]
    {
      var failure := MonFailure(data);
      if failure.Some? {
        return Failure(failure.value);
      }
      var e := new MonEvent(data, t);
      return Success(e);
    }

    /** `update_with_cache`: a weather known to the cache replaces the
        event's weather and re-decides the boost; nothing else changes, and
        nothing at all when the cache knows no weather here. */
    method UpdateWithCache(cachedWeather: Val<int>)
      requires Valid()
      modifies this`weatherId, this`boostedWeatherId
      ensures Valid()
      ensures cachedWeather.Known? ==> weatherId == cachedWeather
      ensures cachedWeather.Unknown? ==>
                weatherId == old(weatherId) && boostedWeatherId == old(boostedWeatherId)
    {
      if cachedWeather.Known? {
        weatherId := cachedWeather;
        boostedWeatherId := if weatherId.Known? then Known(0) else Unknown(Tiny);
        if Boosts(tables, weatherId, monsterId, formId) {
          boostedWeatherId := weatherId;
        }
      }
    }

    // ----- the decisions of generate_dts -----

    /** `spawn_verified`. */
    function SpawnVerifiedDts(): (b: Val<bool>)
      reads this
      ensures b.Known? <==> spawnVerified.Known?
      ensures b == Known(true) <==> spawnVerified.Known? && spawnVerified.v > 0
    {
      Positive(spawnVerified)
    }

    /** `spawn_verified_emoji_or_empty` and `spawn_unverified_emoji_or_empty`:
        the emoji only on a known 1 (verified) or a known 0 (unverified). */
    function SpawnEmojis(emoji: string): (pair: (string, string))
      reads this
      ensures pair.0 != "" ==> spawnVerified == Known(1)
      ensures pair.1 != "" ==> spawnVerified == Known(0)
      ensures pair.0 == "" || pair.1 == ""
    {
      (EmojiIfEquals(spawnVerified, 1, emoji), EmojiIfEquals(spawnVerified, 0, emoji))
    }

    /** `boosted_or_empty`. */
    function BoostedOrEmpty(boostedText: string): (s: string)
      reads this
      requires Valid()
      ensures s == boostedText || s == ""
      ensures boostedText != "" ==>
                (s != "" <==> Boosts(tables, weatherId, monsterId, formId) && weatherId.v != 0)
    {
      MonBoostedOrEmpty(boostedWeatherId, boostedText)
    }

    /** The built-in DTS decisions laid over the filter's custom DTS.
        `spawnVerifiedEmoji` is `get_spawn_verified_emoji(spawn_verified)`,
        the emoji both spawn entries show when they show one. */
    function DecidedDts(boostedText: string, spawnVerifiedEmoji: string, type1: Val<string>,
                        type2: Val<string>, weatherName: Val<string>): (dts: map<string, string>)
      reads this
      requires Valid()
      ensures "big_karp" in dts && "tiny_rat" in dts && "boosted_or_empty" in dts && "types" in dts
      ensures forall k :: k in customDts ==> k in dts
      ensures dts["big_karp"] == "big" <==> monsterId == 129 && weight.Known? && weight.v >= 13.13
      ensures dts["tiny_rat"] == "tiny" <==> monsterId == 19 && weight.Known? && weight.v <= 2.41
      ensures dts["boosted_or_empty"] == BoostedOrEmpty(boostedText)
    {
      MergeDts(customDts, map[
        "spawn_verified_emoji_or_empty" := SpawnEmojis(spawnVerifiedEmoji).0,
        "spawn_unverified_emoji_or_empty" := SpawnEmojis(spawnVerifiedEmoji).1,
        "boosted_weather_or_empty" := BoostedWeatherOrEmpty(boostedWeatherId, weatherName),
        "boosted_or_empty" := BoostedOrEmpty(boostedText),
        "types" := TypesText(type1, type2),
        "big_karp" := BigKarp(monsterId, weight),
        "tiny_rat" := TinyRat(monsterId, weight)])
    }
  }

  /** What each optional field of an event built from `data` holds, in
      terms of the payload itself: `None` or an absent key gives the
      source's default, any other value its conversion. `verified` looks
      at its older key only when the newer one is absent. */
  lemma {:induction false} MonFieldsFromPayload(e: MonEvent, data: Payload)
    requires MonReadsOk(data) && e.ReadFrom(data)
    ensures "encounter_id" in data && e.encId == data["encounter_id"]
    ensures "pokemon_id" in data && IntOf(data["pokemon_id"]) == Some(e.monsterId)
    ensures "disappear_time" in data && TimestampOf(data["disappear_time"]) == Some(e.disappearTime)
    ensures "latitude" in data && FloatOf(data["latitude"]) == Some(e.lat)
    ensures "longitude" in data && FloatOf(data["longitude"]) == Some(e.lng)
    ensures Get(data, "form") == JNull ==> e.formId == 0
    ensures Get(data, "form") != JNull ==> IntOf(data["form"]) == Some(e.formId)
    ensures var v := if "verified" in data then data["verified"] else Get(data, "disappear_time_verified");
      && (v == JNull ==> e.spawnVerified == Unknown(Regular))
      && (v != JNull ==> IntOf(v) == Some(e.spawnVerified.v) && e.spawnVerified.Known?)
    ensures Get(data, "spawnpoint_id") == JNull ==> e.spawnpointId == Unknown(Regular)
    ensures Get(data, "spawnpoint_id").JStr? ==> e.spawnpointId == Known(data["spawnpoint_id"].s)
  {
  }

  /** The catch rates of an event built from `data`: each looks at its
      older key only when the newer one is absent. */
  lemma {:induction false} MonCatchRatesFromPayload(e: MonEvent, data: Payload)
    requires MonReadsOk(data) && e.ReadFrom(data)
    ensures var v := if "base_catch" in data then data["base_catch"] else Get(data, "capture_1");
      && (v == JNull ==> e.baseCatch == Unknown(Tiny))
      && (v != JNull ==> e.baseCatch.Known? && FloatOf(v) == Some(e.baseCatch.v))
    ensures var v := if "great_catch" in data then data["great_catch"] else Get(data, "capture_2");
      && (v == JNull ==> e.greatCatch == Unknown(Tiny))
      && (v != JNull ==> e.greatCatch.Known? && FloatOf(v) == Some(e.greatCatch.v))
    ensures var v := if "ultra_catch" in data then data["ultra_catch"] else Get(data, "capture_3");
      && (v == JNull ==> e.ultraCatch == Unknown(Tiny))
      && (v != JNull ==> e.ultraCatch.Known? && FloatOf(v) == Some(e.ultraCatch.v))
  {
    assert Source(data, BaseCatch) == if "base_catch" in data then data["base_catch"] else Get(data, "capture_1");
    assert Source(data, GreatCatch) == if "great_catch" in data then data["great_catch"] else Get(data, "capture_2");
    assert Source(data, UltraCatch) == if "ultra_catch" in data then data["ultra_catch"] else Get(data, "capture_3");
  }

  /** The grades, IVs, size measures, moves and gender of an event built
      from `data`. */
  lemma {:induction false} MonStatsFromPayload(e: MonEvent, data: Payload)
    requires MonReadsOk(data) && e.ReadFrom(data)
    ensures Get(data, "atk_grade") == JNull ==> e.atkGrade == Unknown(Tiny)
    ensures Get(data, "atk_grade").JStr? ==> e.atkGrade == Known(data["atk_grade"].s)
    ensures Get(data, "def_grade") == JNull ==> e.defGrade == Unknown(Tiny)
    ensures Get(data, "def_grade").JStr? ==> e.defGrade == Known(data["def_grade"].s)
    ensures Get(data, "individual_attack") == JNull ==> e.atkIv == Unknown(Tiny)
    ensures Get(data, "individual_defense") == JNull ==> e.defIv == Unknown(Tiny)
    ensures Get(data, "individual_stamina") == JNull ==> e.staIv == Unknown(Tiny)
    ensures Get(data, "individual_attack") != JNull ==>
      e.atkIv.Known? && IntOf(data["individual_attack"]) == Some(e.atkIv.v)
    ensures Get(data, "individual_defense") != JNull ==>
      e.defIv.Known? && IntOf(data["individual_defense"]) == Some(e.defIv.v)
    ensures Get(data, "individual_stamina") != JNull ==>
      e.staIv.Known? && IntOf(data["individual_stamina"]) == Some(e.staIv.v)
    ensures Get(data, "height") == JNull ==> e.height == Unknown(Small)
    ensures Get(data, "height") != JNull ==> e.height.Known? && FloatOf(data["height"]) == Some(e.height.v)
    ensures Get(data, "weight") == JNull ==> e.weight == Unknown(Small)
    ensures Get(data, "weight") != JNull ==> e.weight.Known? && FloatOf(data["weight"]) == Some(e.weight.v)
    ensures Get(data, "move_1") == JNull ==> e.quickId == Unknown(Tiny) && e.quick == e.tables.move(Unknown(Tiny))
    ensures Get(data, "move_2") == JNull ==> e.chargeId == Unknown(Tiny) && e.charge == e.tables.move(Unknown(Tiny))
    ensures e.gender == e.tables.genderSym(if Get(data, "gender") == JNull then Unknown(Tiny)
                                           else Known(IntOf(data["gender"]).value))
  {
  }

  /** Whatever the cache reports, the boost rule still holds and only the
      weather pair can have changed: after an update, `boosted_weather_id`
      is the weather when it boosts the monster and 0 for any other known
      weather. */
  lemma UpdateKeepsBoostRule(e: MonEvent)
    requires e.Valid()
    ensures e.boostedWeatherId.Unknown? <==> e.weatherId.Unknown?
    ensures e.weatherId.Known? ==>
              (e.boostedWeatherId == e.weatherId || e.boostedWeatherId == Known(0))
  {
  }

  /** If any IV is unknown, every PvP figure is unknown and both leagues
      rank the monster itself. */
  lemma MissingIvsBlankPvp(e: MonEvent)
    requires e.Valid() && !AllKnown3(e.atkIv, e.defIv, e.staIv)
    ensures e.iv == Unknown(Small)
    ensures e.great.monId == e.monsterId && e.ultra.monId == e.monsterId
    ensures e.great.product.Unknown? && e.great.cp.Unknown? && e.great.level.Unknown?
    ensures e.great.candy.Unknown? && e.great.stardust.Unknown?
    ensures e.ultra.product.Unknown? && e.ultra.cp.Unknown? && e.ultra.level.Unknown?
    ensures e.ultra.candy.Unknown? && e.ultra.stardust.Unknown?
  {
  }
}
