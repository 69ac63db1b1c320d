/** A raid (`RaidEvent`): the webhook payload turned into typed fields, the
    boss level the weather decides, and the later update from the cache
    (weather and the gym's free slots). */
module RaidEvents {
  import opened Results
  import opened Json
  import opened Unknowns
  import opened Payloads
  import opened Helpers
  import opened Dts
  import opened Text

  // ----- the payload reads, in the order the constructor makes them -----

  const GymId := Read("gym_id", NoFallback, Lookup, AsIs)
  /** `data.get('end') or data.get('raid_end')` (RocketMap or Monocle). */
  const End := Read("end", IfFalsy("raid_end"), Lookup, AsTimestamp)
  const Latitude := Read("latitude", NoFallback, Subscript, AsFloat)
  const Longitude := Read("longitude", NoFallback, Subscript, AsFloat)
  const Level := Read("level", NoFallback, Subscript, AsInt)
  const PokemonId := Read("pokemon_id", NoFallback, Subscript, AsInt)
  const Form := Read("form", NoFallback, CheckForNone, AsInt)
  const Cp := Read("cp", NoFallback, Subscript, AsInt)
  const Gender := Read("gender", NoFallback, CheckForNone, AsInt)
  const Evolution := Read("evolution", NoFallback, CheckForNone, AsInt)
  const Costume := Read("costume", NoFallback, CheckForNone, AsInt)
  const Weather := Read("weather", NoFallback, CheckForNone, AsInt)
  const Move1 := Read("move_1", NoFallback, CheckForNone, AsInt)
  const Move2 := Read("move_2", NoFallback, CheckForNone, AsInt)
  const GymName := Read("name", NoFallback, CheckForNone, AsStr)
  const Description := Read("description", NoFallback, CheckForNone, AsStr)
  const Url := Read("url", NoFallback, CheckForNone, AsStr)
  const Sponsor := Read("sponsor", NoFallback, CheckForNone, AsInt)
  const Park := Read("park", NoFallback, CheckForNone, AsStr)
  const ExEligible := Read("is_ex_raid_eligible", NoFallback, CheckForNone, AsInt)
  /** `data.get('team_id', data.get('team'))`. */
  const Team := Read("team_id", IfAbsent("team"), CheckForNone, AsInt)

  /** The exception `RaidEvent(data)` raises: that of the first read, in
      the order above, that fails. */
  function RaidFailure(data: Payload): (r: Option<PayloadError>)
    ensures r.None? <==> RaidReadsOk(data)
    ensures ReadError(data, End).None? && "latitude" !in data ==> r == Some(KeyMissing("latitude"))
    ensures r.Some? && r.value.KeyMissing? ==> r.value.key in {"latitude", "longitude", "level", "pokemon_id", "cp"}
  {
    ReadError(data, GymId)
      .OrElse(ReadError(data, End))
      .OrElse(ReadError(data, Latitude))
      .OrElse(ReadError(data, Longitude))
      .OrElse(ReadError(data, Level))
      .OrElse(ReadError(data, PokemonId))
      .OrElse(ReadError(data, Form))
      .OrElse(ReadError(data, Cp))
      .OrElse(ReadError(data, Gender))
      .OrElse(ReadError(data, Evolution))
      .OrElse(ReadError(data, Costume))
      .OrElse(ReadError(data, Weather))
      .OrElse(ReadError(data, Move1))
      .OrElse(ReadError(data, Move2))
      .OrElse(ReadError(data, GymName))
      .OrElse(ReadError(data, Description))
      .OrElse(ReadError(data, Url))
      .OrElse(ReadError(data, Sponsor))
      .OrElse(ReadError(data, Park))
      .OrElse(ReadError(data, ExEligible))
      .OrElse(ReadError(data, Team))
  }

  /** Every read succeeds. */
  predicate RaidReadsOk(data: Payload) {
    && ReadError(data, GymId).None?
    && ReadError(data, End).None?
    && ReadError(data, Latitude).None?
    && ReadError(data, Longitude).None?
    && ReadError(data, Level).None?
    && ReadError(data, PokemonId).None?
    && ReadError(data, Form).None?
    && ReadError(data, Cp).None?
    && ReadError(data, Gender).None?
    && ReadError(data, Evolution).None?
    && ReadError(data, Costume).None?
    && ReadError(data, Weather).None?
    && ReadError(data, Move1).None?
    && ReadError(data, Move2).None?
    && ReadError(data, GymName).None?
    && ReadError(data, Description).None?
    && ReadError(data, Url).None?
    && ReadError(data, Sponsor).None?
    && ReadError(data, Park).None?
    && ReadError(data, ExEligible).None?
    && ReadError(data, Team).None?
  }

  /** Where the two reads with a fallback look: the end time under 'end'
      unless that is falsy, then under 'raid_end'; the team under 'team_id'
      unless that key is absent, then under 'team'. */
  lemma Fallbacks(data: Payload)
    ensures Truthy(Get(data, "end")) ==> Source(data, End) == Get(data, "end")
    ensures !Truthy(Get(data, "end")) ==> Source(data, End) == Get(data, "raid_end")
    ensures "team_id" in data ==> Source(data, Team) == data["team_id"]
    ensures "team_id" !in data ==> Source(data, Team) == Get(data, "team")
  {
  }

  // ----- the derived fields -----

  /** `check_for_none(str, ..., default).strip()`: a sentinel has no spaces
      to strip, so only a known string changes. */
  function StripKnown(x: Val<string>): (r: Val<string>)
    ensures r.Known? <==> x.Known?
    ensures x.Known? ==> r.v == Strip(x.v)
    ensures x.Unknown? ==> r == x
  {
    if x.Known? then Known(Strip(x.v)) else x
  }

  /** `guard_count`: the six gym places less the free ones, when the number
      of free ones is known. */
  function GuardCount(slots: Val<int>): (g: Val<int>)
    ensures slots.Known? ==> g == Known(6 - slots.v)
    ensures slots.Unknown? ==> g == Unknown(Tiny)
  {
    if slots.Known? then Known(6 - slots.v) else Unknown(Tiny)
  }

  // ----- the event -----

  class RaidEvent {
    const tables: Tables

    const gymId: Json
    const raidEnd: real
    const timeLeft: int
    const lat: real
    const lng: real
    var distance: Val<real>
    var direction: Val<string>
    const raidLvl: int
    const monId: int
    const formId: int
    const cp: int
    const types: (Val<int>, Val<int>)
    var bossLevel: int
    const gender: Val<string>
    const canBeShiny: bool
    const evolutionId: int
    const costumeId: int
    var weatherId: Val<int>
    var boostedWeatherId: Val<int>
    const quickId: Val<int>
    const quick: Move
    const chargeId: Val<int>
    const charge: Move
    const gymName: Val<string>
    const gymDescription: Val<string>
    const gymImage: Val<string>
    var slotsAvailable: Val<int>
    var guardCount: Val<int>
    const sponsorId: Val<int>
    const park: Val<string>
    const exEligible: Val<int>
    const currentTeamId: Val<int>
    const name: Json
    var geofence: Val<string>
    var customDts: map<string, string>

    /** The rules every raid keeps: the boost rule for the current weather,
        a boss at level 25 whenever that weather boosts it (and otherwise at
        20 or 25), and the guard count derived from the free slots. */
    predicate Valid()
      reads this
    {
      && boostedWeatherId == BoostedWeather(tables, weatherId, monId, formId)
      && (bossLevel == 20 || bossLevel == 25)
      && (Boosts(tables, weatherId, monId, formId) ==> bossLevel == 25)
      && guardCount == GuardCount(slotsAvailable)
    }

    /** Every field the constructor reads from `data` holds the value its
        read gives, with the source's defaults for `None`, or a table lookup
        on those. */
    predicate ReadFrom(data: Payload)
      reads this
      requires RaidReadsOk(data)
    {
      && gymId == RawLookup(data, GymId) && name == gymId
      && raidEnd == RequiredTimestamp(data, End)
      && timeLeft == tables.secondsRemaining(raidEnd)
      && lat == RequiredFloat(data, Latitude)
      && lng == RequiredFloat(data, Longitude)
      && raidLvl == RequiredInt(data, Level)
      && monId == RequiredInt(data, PokemonId)
      && formId == IntOrZero(data, Form)
      && cp == RequiredInt(data, Cp)
      && types == tables.baseTypes(monId, formId)
      && gender == tables.genderSym(IntOrDefault(data, Gender, Unknown(Tiny)))
      && canBeShiny == tables.shinyStatus(monId, formId)
      && evolutionId == IntOrZero(data, Evolution)
      && costumeId == IntOrZero(data, Costume)
      && quickId == IntOrDefault(data, Move1, Unknown(Tiny)) && quick == tables.move(quickId)
      && chargeId == IntOrDefault(data, Move2, Unknown(Tiny)) && charge == tables.move(chargeId)
      && gymName == StripKnown(StrOrDefault(data, GymName, Unknown(Regular), tables.repr))
      && gymDescription == StripKnown(StrOrDefault(data, Description, Unknown(Regular), tables.repr))
      && gymImage == StrOrDefault(data, Url, Unknown(Regular), tables.repr)
      && sponsorId == IntOrDefault(data, Sponsor, Unknown(Tiny))
      && park == StrOrDefault(data, Park, Unknown(Regular), tables.repr)
      && exEligible == IntOrDefault(data, ExEligible, Unknown(Regular))
      && currentTeamId == IntOrDefault(data, Team, Unknown(Tiny))
    }

    /** `RaidEvent(data)` on a payload every read of which succeeds. */
    constructor (data: Payload, t: Tables)
      requires RaidReadsOk(data)
      ensures Valid() && tables == t && ReadFrom(data)
      ensures weatherId == IntOrDefault(data, Weather, Unknown(Tiny))
      ensures bossLevel == 25 <==> Boosts(tables, weatherId, monId, formId)
      ensures slotsAvailable == Unknown(Tiny) && guardCount == Unknown(Tiny)
      ensures Source(data, Weather) == JNull ==> weatherId == Unknown(Tiny)
      ensures Source(data, Weather) != JNull ==> weatherId.Known? && IntOf(Source(data, Weather)) == Some(weatherId.v)
      ensures distance == Unknown(Small) && direction == Unknown(Tiny)
      ensures geofence == Unknown(Regular) && customDts == map[]
    {
      var mon := RequiredInt(data, PokemonId);
      var form := IntOrZero(data, Form);
      var weather := IntOrDefault(data, Weather, Unknown(Tiny));
      var end := RequiredTimestamp(data, End);
      var moveQuick := IntOrDefault(data, Move1, Unknown(Tiny));
      var moveCharge := IntOrDefault(data, Move2, Unknown(Tiny));
      var level := if Boosts(t, weather, mon, form) then 25 else 20;

      tables := t;
      gymId := RawLookup(data, GymId);
      raidEnd := end;
      timeLeft := t.secondsRemaining(end);
      lat := RequiredFloat(data, Latitude);
      lng := RequiredFloat(data, Longitude);
      distance := Unknown(Small);
      direction := Unknown(Tiny);
      raidLvl := RequiredInt(data, Level);
      monId := mon;
      formId := form;
      cp := RequiredInt(data, Cp);
      types := t.baseTypes(mon, form);
      bossLevel := level;
      gender := t.genderSym(IntOrDefault(data, Gender, Unknown(Tiny)));
      canBeShiny := t.shinyStatus(mon, form);
      evolutionId := IntOrZero(data, Evolution);
      costumeId := IntOrZero(data, Costume);
      weatherId := weather;
      boostedWeatherId := BoostedWeather(t, weather, mon, form);
      quickId := moveQuick;
      quick := t.move(moveQuick);
      chargeId := moveCharge;
      charge := t.move(moveCharge);
      gymName := StripKnown(StrOrDefault(data, GymName, Unknown(Regular), t.repr));
      gymDescription := StripKnown(StrOrDefault(data, Description, Unknown(Regular), t.repr));
      gymImage := StrOrDefault(data, Url, Unknown(Regular), t.repr);
      slotsAvailable := Unknown(Tiny);
      guardCount := Unknown(Tiny);
      sponsorId := IntOrDefault(data, Sponsor, Unknown(Tiny));
      park := StrOrDefault(data, Park, Unknown(Regular), t.repr);
      exEligible := IntOrDefault(data, ExEligible, Unknown(Regular));
      currentTeamId := IntOrDefault(data, Team, Unknown(Tiny));
      name := RawLookup(data, GymId);
      geofence := Unknown(Regular);
      customDts := map[];
    }

    /** Builds the event, or reports the exception the first failing read raises. */
    static method FromPayload(data: Payload, t: Tables) returns (r: Result<RaidEvent, PayloadError>)
      ensures r.Failure? <==> RaidFailure(data).Some?
      ensures r.Failure? ==> r.error == RaidFailure(data).value
      ensures r.Success? ==> fresh(r.value) && r.value.Valid() && r.value.tables == t
      ensures r.Success? ==> RaidReadsOk(data) && r.value.ReadFrom(data)
      ensures r.Success? ==> r.value.weatherId == IntOrDefault(data, Weather, Unknown(Tiny))
      ensures r.Success? ==> r.value.slotsAvailable == Unknown(Tiny) && r.value.guardCount == Unknown(Tiny)
      ensures r.Success? ==> r.value.distance == Unknown(Small) && r.value.direction == Unknown(Tiny)
      ensures r.Success? ==> r.value.geofence == Unknown(Regular) && r.value.customDts == map[]
    {
      var failure := RaidFailure(data);
      if failure.Some? {
        return Failure(failure.value);
      }
      var e := new RaidEvent(data, t);
      return Success(e);
    }

    /** `update_with_cache`: a weather known to the cache replaces the
        raid's weather, re-decides the boost and raises the boss to level 25
        when it boosts (a boss already at 25 stays there); the free slots are
        always replaced by the cache's figure and the guard count follows. */
    method UpdateWithCache(cachedWeather: Val<int>, cachedSlots: Val<int>)
      requires Valid()
      modifies this`weatherId, this`boostedWeatherId, this`bossLevel, this`slotsAvailable, this`guardCount
      ensures Valid()
      ensures bossLevel >= old(bossLevel)
      ensures cachedWeather.Known? ==> weatherId == cachedWeather
      ensures cachedWeather.Known? ==>
                (bossLevel == 25 <==> old(bossLevel) == 25 || Boosts(tables, cachedWeather, monId, formId))
      ensures cachedWeather.Known? && !Boosts(tables, cachedWeather, monId, formId) ==>
                boostedWeatherId == Known(0) && bossLevel == old(bossLevel)
      ensures cachedWeather.Unknown? ==>
                && weatherId == old(weatherId)
                && boostedWeatherId == old(boostedWeatherId)
                && bossLevel == old(bossLevel)
      ensures slotsAvailable == cachedSlots
      ensures cachedSlots.Known? ==> guardCount == Known(6 - cachedSlots.v)
      ensures cachedSlots.Unknown? ==> guardCount == Unknown(Tiny)
    {
      if cachedWeather.Known? {
        weatherId := cachedWeather;
        boostedWeatherId := if weatherId.Known? then Known(0) else Unknown(Tiny);
        if Boosts(tables, weatherId, monId, formId) {
          boostedWeatherId := weatherId;
          bossLevel := 25;
        }
      }
      slotsAvailable := cachedSlots;
      guardCount := if slotsAvailable.Known? then Known(6 - slotsAvailable.v) else Unknown(Tiny);
    }

    // ----- the decisions of generate_dts -----

    /** `boosted_or_empty`: the boosted text exactly when the boss is at level 25. */
    function BoostedOrEmpty(boostedText: string): (s: string)
      reads this
      requires Valid()
      ensures s == boostedText || s == ""
      ensures Boosts(tables, weatherId, monId, formId) ==> s == boostedText
      ensures boostedText != "" ==> (s != "" <==> bossLevel == 25)
    {
      RaidBoostedOrEmpty(bossLevel, boostedText)
    }

    /** `sponsored`: `sponsor_id > 0` when the sponsor is known, else unknown. */
    function Sponsored(): (b: Val<bool>)
      reads this
      ensures b.Known? <==> sponsorId.Known?
      ensures b == Known(true) <==> sponsorId.Known? && sponsorId.v > 0
      ensures sponsorId.Unknown? ==> b == Unknown(Regular)
    {
      Positive(sponsorId)
    }

    /** `ex_eligible`: `ex_eligible > 0` when known, else unknown. */
    function ExEligibleDts(): (b: Val<bool>)
      reads this
      ensures b.Known? <==> exEligible.Known?
      ensures b == Known(true) <==> exEligible.Known? && exEligible.v > 0
      ensures exEligible.Unknown? ==> b == Unknown(Regular)
    {
      Positive(exEligible)
    }
  }

  /** The boost rule survives any update: an unknown boosted weather goes
      with an unknown weather, and a known weather is either the boosted
      one or leaves the boosted id at 0. */
  lemma RaidBoostRule(e: RaidEvent)
    requires e.Valid()
    ensures e.boostedWeatherId.Unknown? <==> e.weatherId.Unknown?
    ensures e.weatherId.Known? ==>
              (e.boostedWeatherId == e.weatherId || e.boostedWeatherId == Known(0))
    ensures e.boostedWeatherId.Known? && e.boostedWeatherId.v != 0 ==> e.bossLevel == 25
  {
  }

  /** What each optional field of a raid built from `data` holds, in terms
      of the payload itself: `None` or an absent key gives the source's
      default, any other value its conversion; the gym's name and
      description are stripped of surrounding whitespace. */
  lemma {:induction false} RaidFieldsFromPayload(e: RaidEvent, data: Payload)
    requires RaidReadsOk(data) && e.ReadFrom(data)
    ensures e.gymId == Get(data, "gym_id") && e.name == e.gymId
    ensures TimestampOf(if Truthy(Get(data, "end")) then data["end"] else Get(data, "raid_end")) == Some(e.raidEnd)
    ensures "latitude" in data && FloatOf(data["latitude"]) == Some(e.lat)
    ensures "longitude" in data && FloatOf(data["longitude"]) == Some(e.lng)
    ensures "level" in data && IntOf(data["level"]) == Some(e.raidLvl)
    ensures "pokemon_id" in data && IntOf(data["pokemon_id"]) == Some(e.monId)
    ensures "cp" in data && IntOf(data["cp"]) == Some(e.cp)
    ensures var v := if "team_id" in data then data["team_id"] else Get(data, "team");
      && (v == JNull ==> e.currentTeamId == Unknown(Tiny))
      && (v != JNull ==> e.currentTeamId.Known? && IntOf(v) == Some(e.currentTeamId.v))
    ensures Get(data, "form") == JNull ==> e.formId == 0
    ensures Get(data, "form") != JNull ==> IntOf(data["form"]) == Some(e.formId)
    ensures Get(data, "evolution") == JNull ==> e.evolutionId == 0
    ensures Get(data, "evolution") != JNull ==> IntOf(data["evolution"]) == Some(e.evolutionId)
    ensures Get(data, "costume") == JNull ==> e.costumeId == 0
    ensures Get(data, "costume") != JNull ==> IntOf(data["costume"]) == Some(e.costumeId)
    ensures Get(data, "sponsor") == JNull ==> e.sponsorId == Unknown(Tiny)
    ensures Get(data, "sponsor") != JNull ==> e.sponsorId.Known? && IntOf(data["sponsor"]) == Some(e.sponsorId.v)
    ensures Get(data, "is_ex_raid_eligible") == JNull ==> e.exEligible == Unknown(Regular)
    ensures Get(data, "is_ex_raid_eligible") != JNull ==>
      e.exEligible.Known? && IntOf(data["is_ex_raid_eligible"]) == Some(e.exEligible.v)
    ensures Get(data, "park") == JNull ==> e.park == Unknown(Regular)
    ensures Get(data, "park").JStr? ==> e.park == Known(data["park"].s)
    ensures Get(data, "url") == JNull ==> e.gymImage == Unknown(Regular)
    ensures Get(data, "url").JStr? ==> e.gymImage == Known(data["url"].s)
    ensures Get(data, "name") == JNull ==> e.gymName == Unknown(Regular)
    ensures Get(data, "name").JStr? ==> e.gymName == Known(Strip(data["name"].s))
    ensures Get(data, "description") == JNull ==> e.gymDescription == Unknown(Regular)
    ensures Get(data, "description").JStr? ==> e.gymDescription == Known(Strip(data["description"].s))
    ensures Get(data, "move_1") == JNull ==> e.quickId == Unknown(Tiny) && e.quick == e.tables.move(Unknown(Tiny))
    ensures Get(data, "move_2") == JNull ==> e.chargeId == Unknown(Tiny) && e.charge == e.tables.move(Unknown(Tiny))
  {
  }
}
