/** `RaidFilter`: a filter for raids, built from one entry of the filters
    file. The constructor reads one config key per parameter, in a fixed
    order, registers a condition for each attribute limit it finds, and then
    rejects whatever key it did not recognise. `to_dict` reports a subset
    of the limits under names of its own. */
module RaidFilters {
  import opened Results
  import opened Json
  import opened Unknowns
  import opened Config
  import opened FilterParams
  import opened RaidEvents

  /** The parameters, named after their config keys. */
  datatype Param =
    | Monsters | MonstersExclude | Types | MinDist | MaxDist | MinTimeLeft | MaxTimeLeft
    | MinRaidLvl | MaxRaidLvl | FormIds | ExcludeForms | CostumeIds | ExcludeCostumes
    | CanBeShiny | Genders | MinCp | MaxCp | QuickMoves | ChargeMoves | GymNameContains
    | GymNameExcludes | Sponsored | ParkContains | IsExEligible | CurrentTeams | Weather
    | Geofences | ExcludeGeofences | MinTime | MaxTime | CustomDts | IsMissingInfo

  /** The config key each parameter is read from. */
  function Key(p: Param): string {
    match p
    case Monsters => "monsters"
    case MonstersExclude => "monsters_exclude"
    case Types => "types"
    case MinDist => "min_dist"
    case MaxDist => "max_dist"
    case MinTimeLeft => "min_time_left"
    case MaxTimeLeft => "max_time_left"
    case MinRaidLvl => "min_raid_lvl"
    case MaxRaidLvl => "max_raid_lvl"
    case FormIds => "form_ids"
    case ExcludeForms => "exclude_forms"
    case CostumeIds => "costume_ids"
    case ExcludeCostumes => "exclude_costumes"
    case CanBeShiny => "can_be_shiny"
    case Genders => "genders"
    case MinCp => "min_cp"
    case MaxCp => "max_cp"
    case QuickMoves => "quick_moves"
    case ChargeMoves => "charge_moves"
    case GymNameContains => "gym_name_contains"
    case GymNameExcludes => "gym_name_excludes"
    case Sponsored => "sponsored"
    case ParkContains => "park_contains"
    case IsExEligible => "is_ex_eligible"
    case CurrentTeams => "current_teams"
    case Weather => "weather"
    case Geofences => "geofences"
    case ExcludeGeofences => "exclude_geofences"
    case MinTime => "min_time"
    case MaxTime => "max_time"
    case CustomDts => "custom_dts"
    case IsMissingInfo => "is_missing_info"
  }

  /** The parameters in the order the constructor reads them. */
  const Params: seq<Param> := [
    Monsters, MonstersExclude, Types, MinDist, MaxDist, MinTimeLeft, MaxTimeLeft,
    MinRaidLvl, MaxRaidLvl, FormIds, ExcludeForms, CostumeIds, ExcludeCostumes,
    CanBeShiny, Genders, MinCp, MaxCp, QuickMoves, ChargeMoves, GymNameContains,
    GymNameExcludes, Sponsored, ParkContains, IsExEligible, CurrentTeams, Weather,
    Geofences, ExcludeGeofences, MinTime, MaxTime, CustomDts, IsMissingInfo]

  /** The keys a raid filter accepts. */
  const Recognized: set<string> := set p | p in Params :: Key(p)

  /** The lookups the readers apply to each item (monster names, type
      names, gender names, move names, regular expressions, team names,
      weather names, times of day). Their tables live outside this model. */
  datatype Parsers = Parsers(
    monsterId: Json -> Option<int>,
    typeId: Json -> Option<int>,
    genderSym: Json -> Option<string>,
    moveId: Json -> Option<int>,
    createRegex: Json -> Option<Pattern>,
    teamId: Json -> Option<int>,
    weatherId: Json -> Option<int>,
    time: Json -> Option<int>,
    repr: Json -> string)

  datatype FilterError =
    | BadParameter(key: string)     // a reader raised on the value under `key`
    | Unrecognized(key: string)     // "'key' is not a recognized parameter for Raid filters"

  function AsIds(r: Result<Option<set<int>>, ()>): Result<Option<Limit>, ()> {
    match r
    case Success(Some(s)) => Success(Some(Ids(s)))
    case Success(None) => Success(None)
    case Failure(_) => Failure(())
  }

  function AsLimit<T>(r: Result<Option<T>, ()>, wrap: T -> Limit): Result<Option<Limit>, ()> {
    match r
    case Success(Some(v)) => Success(Some(wrap(v)))
    case Success(None) => Success(None)
    case Failure(_) => Failure(())
  }

  function StrParse(repr: Json -> string): Json -> Option<string> {
    x => Some(StrOf(x, repr))
  }

  /** What the reader of `p` makes of the value popped for it (`JNull` when
      the key is absent). */
  function ParseParam(ps: Parsers, p: Param, x: Json): (r: Result<Option<Limit>, ()>)
    ensures x == JNull && p != CustomDts ==> r == Success(None)
    ensures p == CustomDts ==> r.Success? ==> r.value.Some? && r.value.value.StrMap?
  {
    match p
    case Monsters => AsIds(ParseSet(ps.monsterId, x))
    case MonstersExclude => AsIds(ParseSet(ps.monsterId, x))
    case Types => AsLimit(ParseList(ps.typeId, x), l => IdList(l))
    case MinDist => AsLimit(ParseType(FloatOf, x), f => Float(f))
    case MaxDist => AsLimit(ParseType(FloatOf, x), f => Float(f))
    case MinTimeLeft => AsLimit(ParseType(IntOf, x), i => Int(i))
    case MaxTimeLeft => AsLimit(ParseType(IntOf, x), i => Int(i))
    case MinRaidLvl => AsLimit(ParseType(IntOf, x), i => Int(i))
    case MaxRaidLvl => AsLimit(ParseType(IntOf, x), i => Int(i))
    case FormIds => AsIds(ParseSet(IntOf, x))
    case ExcludeForms => AsIds(ParseSet(IntOf, x))
    case CostumeIds => AsIds(ParseSet(IntOf, x))
    case ExcludeCostumes => AsIds(ParseSet(IntOf, x))
    case CanBeShiny => AsLimit(ParseType(BoolOf, x), b => Flag(b))
    case Genders => AsLimit(ParseSet(ps.genderSym, x), s => Syms(s))
    case MinCp => AsLimit(ParseType(IntOf, x), i => Int(i))
    case MaxCp => AsLimit(ParseType(IntOf, x), i => Int(i))
    case QuickMoves => AsIds(ParseSet(ps.moveId, x))
    case ChargeMoves => AsIds(ParseSet(ps.moveId, x))
    case GymNameContains => AsLimit(ParseSet(ps.createRegex, x), s => Patterns(s))
    case GymNameExcludes => AsLimit(ParseSet(ps.createRegex, x), s => Patterns(s))
    case Sponsored => AsLimit(ParseType(BoolOf, x), b => Flag(b))
    case ParkContains => AsLimit(ParseSet(ps.createRegex, x), s => Patterns(s))
    case IsExEligible => AsLimit(ParseType(BoolOf, x), b => Flag(b))
    case CurrentTeams => AsIds(ParseSet(ps.teamId, x))
    case Weather => AsIds(ParseSet(ps.weatherId, x))
    case Geofences => AsLimit(ParseList(StrParse(ps.repr), x), l => Names(l))
    case ExcludeGeofences => AsLimit(ParseList(StrParse(ps.repr), x), l => Names(l))
    case MinTime => AsLimit(ParseType(ps.time, x), t => Clock(t))
    case MaxTime => AsLimit(ParseType(ps.time, x), t => Clock(t))
    case CustomDts =>
      (match x
       case JNull => Success(Some(StrMap(map[])))
       case JObject(entries) => Success(Some(StrMap(StrDict(entries, ps.repr))))
       case _ => Failure(()))
    case IsMissingInfo => AsLimit(ParseType(BoolOf, x), b => Flag(b))
  }

  /** The reader of `p` applied to what `data.pop(key, None)` gives for it. */
  function Parsed(e: Entries, ps: Parsers, p: Param): Result<Option<Limit>, ()> {
    ParseParam(ps, p, PopOr(e, Key(p), JNull))
  }

  /** All the readers of one config, as one function of the parameter. */
  function Reader(e: Entries, ps: Parsers): Param -> Result<Option<Limit>, ()> {
    p => Parsed(e, ps, p)
  }

  /** Reading the parameters `todo` in order on top of the limits `acc`
      already read: the first reader that raises names its key. */
  function ReadParams(read: Param -> Result<Option<Limit>, ()>, todo: seq<Param>, acc: map<Param, Limit>)
    : (r: Result<map<Param, Limit>, FilterError>)
    ensures r.Success? ==> forall p :: p in acc ==> p in r.value
    ensures r.Success? ==> forall p :: p in r.value ==> p in acc || p in todo
    ensures r.Failure? ==> exists p :: p in todo && r.error == BadParameter(Key(p))
    decreases |todo|
  {
    if todo == [] then Success(acc)
    else
      var p := todo[0];
      match read(p)
      case Failure(_) => Failure(BadParameter(Key(p)))
      case Success(None) => ReadParams(read, todo[1..], acc)
      case Success(Some(l)) => ReadParams(read, todo[1..], acc[p := l])
  }

  /** A raid filter: its name and the limits that were set. */
  datatype RaidFilter = RaidFilter(name: string, limits: map<Param, Limit>)

  /** `RaidFilter(mgr, name, data)`, declaratively: every reader in order,
      then the leftover check. */
  function Build(name: string, e: Entries, ps: Parsers): (r: Result<RaidFilter, FilterError>)
    ensures r.Success? ==> r.value.name == name && Consistent(Reader(e, ps), r.value.limits)
    ensures r.Success? ==> forall i :: 0 <= i < |e| ==> e[i].0 in Recognized
    ensures r.Failure? && r.error.Unrecognized? ==>
              && ReadParams(Reader(e, ps), Params, map[]).Success?
              && FirstUnrecognized(e, Recognized) == Some(r.error.key)
              && r.error.key !in Recognized
    ensures r.Failure? && r.error.BadParameter? ==>
              exists i :: 0 <= i < |Params| && r.error.key == Key(Params[i]) && Reader(e, ps)(Params[i]).Failure?
  {
    match ReadParams(Reader(e, ps), Params, map[])
    case Failure(err) =>
      ReadParamsFails(Reader(e, ps), Params, map[]);
      Failure(err)
    case Success(limits) =>
      ReadParamsLimits(Reader(e, ps), Params, map[]);
      match FirstUnrecognized(e, Recognized)
      case Some(k) => Failure(Unrecognized(k))
      case None => Success(RaidFilter(name, limits))
  }

  /** Every limit held is what its reader made of the config. */
  predicate Consistent(read: Param -> Result<Option<Limit>, ()>, limits: map<Param, Limit>) {
    forall p :: p in limits ==> read(p) == Success(Some(limits[p]))
  }

  /** Reading `todo` succeeds exactly when every reader in it accepts its value. */
  lemma {:induction false} ReadParamsSucceeds(read: Param -> Result<Option<Limit>, ()>, todo: seq<Param>,
                                              acc: map<Param, Limit>)
    ensures ReadParams(read, todo, acc).Success? <==> forall i :: 0 <= i < |todo| ==> read(todo[i]).Success?
    decreases |todo|
  {
    if todo != [] {
      assert forall i :: 0 <= i < |todo| - 1 ==> todo[1..][i] == todo[i + 1];
      var p := todo[0];
      if read(p).Success? {
        ReadParamsSucceeds(read, todo[1..], if read(p).value.Some? then acc[p := read(p).value.value] else acc);
      }
    }
  }

  /** A successful read keeps the limits consistent with the config and
      adds exactly the parameters of `todo` that are set. */
  lemma {:induction false} ReadParamsLimits(read: Param -> Result<Option<Limit>, ()>, todo: seq<Param>,
                                            acc: map<Param, Limit>)
    requires Consistent(read, acc)
    requires ReadParams(read, todo, acc).Success?
    ensures Consistent(read, ReadParams(read, todo, acc).value)
    ensures forall p :: p in ReadParams(read, todo, acc).value <==>
                          p in acc || (p in todo && read(p).Success? && read(p).value.Some?)
    decreases |todo|
  {
    if todo != [] {
      var p := todo[0];
      assert forall q :: q in todo <==> q == p || q in todo[1..];
      if read(p).value.Some? {
        ReadParamsLimits(read, todo[1..], acc[p := read(p).value.value]);
      } else {
        ReadParamsLimits(read, todo[1..], acc);
      }
    }
  }

  /** A failed read names the key of the first reader that raised. */
  lemma {:induction false} ReadParamsFails(read: Param -> Result<Option<Limit>, ()>, todo: seq<Param>,
                                           acc: map<Param, Limit>)
    requires ReadParams(read, todo, acc).Failure?
    ensures exists i :: 0 <= i < |todo| && ReadParams(read, todo, acc).error == BadParameter(Key(todo[i]))
                        && read(todo[i]).Failure?
                        && forall j :: 0 <= j < i ==> read(todo[j]).Success?
    decreases |todo|
  {
    var p := todo[0];
    if read(p).Success? {
      var acc' := if read(p).value.Some? then acc[p := read(p).value.value] else acc;
      assert ReadParams(read, todo, acc) == ReadParams(read, todo[1..], acc');
      ReadParamsFails(read, todo[1..], acc');
      var i :| 0 <= i < |todo[1..]| && ReadParams(read, todo[1..], acc').error == BadParameter(Key(todo[1..][i]))
               && read(todo[1..][i]).Failure?
               && forall j :: 0 <= j < i ==> read(todo[1..][j]).Success?;
      assert todo[1..][i] == todo[i + 1];
      forall j | 0 <= j < i + 1 ensures read(todo[j]).Success? {
        if j > 0 { assert todo[j] == todo[1..][j - 1]; }
      }
      assert ReadParams(read, todo, acc).error == BadParameter(Key(todo[i + 1])) && read(todo[i + 1]).Failure?;
    } else {
      assert ReadParams(read, todo, acc).error == BadParameter(Key(todo[0]));
    }
  }

  /** Construction succeeds exactly when every reader accepts its value and
      no key is left over; the filter then holds a limit for exactly the
      parameters that are set, each as its reader made it. */
  lemma BuildSpec(name: string, e: Entries, ps: Parsers)
    ensures var read := Reader(e, ps);
            Build(name, e, ps).Success? <==>
              (forall i :: 0 <= i < |Params| ==> read(Params[i]).Success?)
              && forall i :: 0 <= i < |e| ==> e[i].0 in Recognized
    ensures var read := Reader(e, ps);
            Build(name, e, ps).Success? ==>
              && Consistent(read, Build(name, e, ps).value.limits)
              && forall p :: p in Build(name, e, ps).value.limits <==>
                               p in Params && read(p).Success? && read(p).value.Some?
  {
    var read := Reader(e, ps);
    ReadParamsSucceeds(read, Params, map[]);
    if ReadParams(read, Params, map[]).Success? {
      ReadParamsLimits(read, Params, map[]);
    }
  }

  /** The readers in turn: stops at the first one that raises, and keeps
      the limits that are set. */
  method ReadAll(read: Param -> Result<Option<Limit>, ()>, todo: seq<Param>) returns (r: Result<map<Param, Limit>, FilterError>)
    ensures r == ReadParams(read, todo, map[])
  {
    var limits: map<Param, Limit> := map[];
    var i := 0;
    while i < |todo|
      invariant 0 <= i <= |todo|
      invariant ReadParams(read, todo[i..], limits) == ReadParams(read, todo, map[])
    {
      var p := todo[i];
      var parsed := read(p);
      if parsed.Failure? {
        return Failure(BadParameter(Key(p)));
      }
      if parsed.value.Some? {
        limits := limits[p := parsed.value.value];
      }
      assert todo[i..][1..] == todo[i + 1..];
      i := i + 1;
    }
    assert todo[i..] == [];
    return Success(limits);
  }

  /** The constructor: pops each parameter in turn, keeping the limits that
      are set, then raises on the first key left over. */
  method Create(name: string, e: Entries, ps: Parsers) returns (r: Result<RaidFilter, FilterError>)
    ensures r == Build(name, e, ps)
    ensures r.Success? ==> forall i :: 0 <= i < |e| ==> e[i].0 in Recognized
    ensures r.Failure? && r.error.Unrecognized? ==> r.error.key !in Recognized
  {
    var limits := ReadAll(Reader(e, ps), Params);
    if limits.Failure? {
      return Failure(limits.error);
    }
    var leftover := CheckLeftover(e, Recognized);
    if leftover.Some? {
      return Failure(Unrecognized(leftover.value));
    }
    return Success(RaidFilter(name, limits.value));
  }

  // ----- the conditions -----

  /** The event attributes the conditions look at. */
  datatype Attr =
    | MonId | TypeIds | Distance | TimeLeft | RaidLvl | FormId | CostumeId | Shiny | Gender
    | Cp | QuickId | ChargeId | GymName | SponsorId | Park | ExEligible | CurrentTeamId
    | WeatherId

  /** The comparisons: `limit <= value`, `limit >= value`, `value in limit`,
      `value not in limit`, some item of the value in the limit list,
      `(value > 0) == limit`, `value == limit`, some pattern matches, no
      pattern matches. */
  datatype Op = Le | Ge | Contains | Excludes | AnyIn | SponsorIs | Eq | MatchAny | MatchNone

  datatype Condition = Condition(attr: Attr, op: Op, limit: Option<Limit>)

  /** The attribute and comparison each attribute parameter registers
      (parameters that are not attribute conditions have none). */
  function Registers(p: Param): (r: Option<(Attr, Op)>)
    ensures r.None? <==> p in {Geofences, ExcludeGeofences, MinTime, MaxTime, CustomDts, IsMissingInfo}
    ensures r.Some? && r.value.1 == Le <==> p in {MinDist, MinTimeLeft, MinRaidLvl, MinCp}
    ensures r.Some? && r.value.1 == Ge <==> p in {MaxDist, MaxTimeLeft, MaxRaidLvl, MaxCp}
    ensures r.Some? && (r.value.1 == Le || r.value.1 == Ge) ==> r.value.0 in {Distance, TimeLeft, RaidLvl, Cp}
  {
    match p
    case Monsters => Some((MonId, Contains))
    case MonstersExclude => Some((MonId, Excludes))
    case Types => Some((TypeIds, AnyIn))
    case MinDist => Some((Distance, Le))
    case MaxDist => Some((Distance, Ge))
    case MinTimeLeft => Some((TimeLeft, Le))
    case MaxTimeLeft => Some((TimeLeft, Ge))
    case MinRaidLvl => Some((RaidLvl, Le))
    case MaxRaidLvl => Some((RaidLvl, Ge))
    case FormIds => Some((FormId, Contains))
    case ExcludeForms => Some((FormId, Excludes))
    case CostumeIds => Some((CostumeId, Contains))
    case ExcludeCostumes => Some((CostumeId, Excludes))
    case CanBeShiny => Some((Shiny, Eq))
    case Genders => Some((Gender, Contains))
    case MinCp => Some((Cp, Le))
    case MaxCp => Some((Cp, Ge))
    case QuickMoves => Some((QuickId, Contains))
    case ChargeMoves => Some((ChargeId, Contains))
    case GymNameContains => Some((GymName, MatchAny))
    case GymNameExcludes => Some((GymName, MatchNone))
    case Sponsored => Some((SponsorId, SponsorIs))
    case ParkContains => Some((Park, MatchAny))
    case IsExEligible => Some((ExEligible, Eq))
    case CurrentTeams => Some((CurrentTeamId, Contains))
    case Weather => Some((WeatherId, Contains))
    case _ => None
  }

  /** The condition table of a filter, in registration order. */
  function ConditionsOf(limits: map<Param, Limit>, todo: seq<Param>): (cs: seq<Condition>)
    ensures |cs| <= |todo|
    ensures forall c :: c in cs ==> exists p :: Registers(p) == Some((c.attr, c.op))
                                                && c.limit == (if p in limits then Some(limits[p]) else None)
    decreases |todo|
  {
    if todo == [] then []
    else
      var rest := ConditionsOf(limits, todo[1..]);
      var p := todo[0];
      match Registers(p)
      case None => rest
      case Some(ao) => [Condition(ao.0, ao.1, if p in limits then Some(limits[p]) else None)] + rest
  }

  function Conditions(f: RaidFilter): seq<Condition> {
    ConditionsOf(f.limits, Params)
  }

  /** An attribute's value. */
  datatype Value = VInt(i: int) | VReal(r: real) | VBool(b: bool) | VStr(s: string) | VInts(items: seq<int>)

  function NumberOf(x: Value): Option<real> {
    match x
    case VInt(i) => Some(i as real)
    case VReal(r) => Some(r)
    case VBool(b) => Some(if b then 1.0 else 0.0)
    case _ => None
  }

  function LimitNumber(l: Limit): Option<real> {
    match l
    case Int(i) => Some(i as real)
    case Float(f) => Some(f)
    case _ => None
  }

  /** `eval_func(limit, value)` for a known value. `matches(pattern, text)`
      is `GymUtils.match_regex_dict` on one pattern. */
  predicate Holds(op: Op, l: Limit, v: Value, matches: (Pattern, string) -> bool)
    ensures Holds(op, l, v, matches) && (op == Le || op == Ge) ==> LimitNumber(l).Some? && NumberOf(v).Some?
    ensures Holds(op, l, v, matches) && op == Contains ==> (l.Ids? && v.VInt?) || (l.Syms? && v.VStr?)
    ensures Holds(op, l, v, matches) && (op == MatchAny || op == MatchNone) ==> l.Patterns? && v.VStr?
    ensures l.Int? && v.VInt? && op == Le ==> (Holds(op, l, v, matches) <==> l.i <= v.i)
    ensures l.Int? && v.VInt? && op == Ge ==> (Holds(op, l, v, matches) <==> l.i >= v.i)
    ensures l.Patterns? && v.VStr? && op == MatchNone ==>
              (Holds(op, l, v, matches) <==> !exists pat :: pat in l.patterns && matches(pat, v.s))
  {
    match op
    case Le => LimitNumber(l).Some? && NumberOf(v).Some? && LimitNumber(l).value <= NumberOf(v).value
    case Ge => LimitNumber(l).Some? && NumberOf(v).Some? && LimitNumber(l).value >= NumberOf(v).value
    case Contains => InLimit(l, v)
    case Excludes => !InLimit(l, v)
    case AnyIn => l.IdList? && v.VInts? && exists i :: 0 <= i < |v.items| && v.items[i] in l.idList
    case SponsorIs => l.Flag? && v.VInt? && ((v.i > 0) == l.b)
    case Eq => l.Flag? && NumberOf(v) == Some(if l.b then 1.0 else 0.0)
    case MatchAny => l.Patterns? && v.VStr? && exists pat :: pat in l.patterns && matches(pat, v.s)
    case MatchNone => l.Patterns? && v.VStr? && forall pat :: pat in l.patterns ==> !matches(pat, v.s)
  }

  /** `value in limit` for the set-valued limits. */
  predicate InLimit(l: Limit, v: Value) {
    (l.Ids? && v.VInt? && v.i in l.ids) || (l.Syms? && v.VStr? && v.s in l.syms)
  }

  datatype Outcome = Pass | Fail | Missing

  function KnownInt(x: Val<int>): Val<Value> {
    match x
    case Known(i) => Known(VInt(i))
    case Unknown(s) => Unknown(s)
  }

  function KnownStr(x: Val<string>): Val<Value> {
    match x
    case Known(s) => Known(VStr(s))
    case Unknown(s) => Unknown(s)
  }

  function KnownIds(t: (Val<int>, Val<int>)): seq<int> {
    (if t.0.Known? then [t.0.v] else []) + (if t.1.Known? then [t.1.v] else [])
  }

  /** `getattr(event, attr)`. */
  function Attribute(ev: RaidEvent, a: Attr): (x: Val<Value>)
    reads ev
    ensures x.Unknown? ==>
              a in {Distance, Gender, QuickId, ChargeId, GymName, SponsorId, Park, ExEligible, CurrentTeamId, WeatherId}
    ensures a == Distance ==> (x.Known? <==> ev.distance.Known?)
    ensures a == WeatherId ==> (x.Known? <==> ev.weatherId.Known?)
    ensures a == RaidLvl ==> x == Known(VInt(ev.raidLvl))
  {
    match a
    case MonId => Known(VInt(ev.monId))
    case TypeIds => Known(VInts(KnownIds(ev.types)))
    case Distance => (match ev.distance case Known(d) => Known(VReal(d)) case Unknown(s) => Unknown(s))
    case TimeLeft => Known(VInt(ev.timeLeft))
    case RaidLvl => Known(VInt(ev.raidLvl))
    case FormId => Known(VInt(ev.formId))
    case CostumeId => Known(VInt(ev.costumeId))
    case Shiny => Known(VBool(ev.canBeShiny))
    case Gender => KnownStr(ev.gender)
    case Cp => Known(VInt(ev.cp))
    case QuickId => KnownInt(ev.quickId)
    case ChargeId => KnownInt(ev.chargeId)
    case GymName => KnownStr(ev.gymName)
    case SponsorId => KnownInt(ev.sponsorId)
    case Park => KnownStr(ev.park)
    case ExEligible => KnownInt(ev.exEligible)
    case CurrentTeamId => KnownInt(ev.currentTeamId)
    case WeatherId => KnownInt(ev.weatherId)
  }

  /** One condition against an event: an unset limit checks nothing, an
      unknown attribute is missing information, otherwise the comparison
      decides. */
  function Evaluate(c: Condition, ev: RaidEvent, matches: (Pattern, string) -> bool): (o: Outcome)
    reads ev
    ensures c.limit.None? ==> o == Pass
    ensures c.limit.Some? && Attribute(ev, c.attr).Unknown? ==> o == Missing
    ensures c.limit.Some? && Attribute(ev, c.attr).Known? ==>
              (o == Pass <==> Holds(c.op, c.limit.value, Attribute(ev, c.attr).v, matches))
  {
    if c.limit.None? then Pass
    else match Attribute(ev, c.attr)
      case Unknown(_) => Missing
      case Known(v) => if Holds(c.op, c.limit.value, v, matches) then Pass else Fail
  }

  /** Whether the event passes the attribute conditions and the missing
      information rule: no condition fails, and when `is_missing_info` is
      set it says whether some condition lacked its attribute. */
  predicate Passes(f: RaidFilter, ev: RaidEvent, matches: (Pattern, string) -> bool)
    reads ev
    ensures IsMissingInfo !in f.limits ==>
              (Passes(f, ev, matches) <==>
                 forall i :: 0 <= i < |Conditions(f)| ==> Evaluate(Conditions(f)[i], ev, matches) != Fail)
    ensures IsMissingInfo in f.limits && f.limits[IsMissingInfo] == Flag(false) ==>
              (Passes(f, ev, matches) <==>
                 forall i :: 0 <= i < |Conditions(f)| ==> Evaluate(Conditions(f)[i], ev, matches) == Pass)
    ensures IsMissingInfo in f.limits && f.limits[IsMissingInfo] == Flag(true) ==>
              (Passes(f, ev, matches) <==>
                 && (forall i :: 0 <= i < |Conditions(f)| ==> Evaluate(Conditions(f)[i], ev, matches) != Fail)
                 && exists i :: 0 <= i < |Conditions(f)| && Evaluate(Conditions(f)[i], ev, matches) == Missing)
  {
    var cs := Conditions(f);
    && (forall i :: 0 <= i < |cs| ==> Evaluate(cs[i], ev, matches) != Fail)
    && (IsMissingInfo in f.limits && f.limits[IsMissingInfo].Flag? ==>
          f.limits[IsMissingInfo].b == exists i :: 0 <= i < |cs| && Evaluate(cs[i], ev, matches) == Missing)
  }

  // ----- to_dict -----

  /** The names `to_dict` reports, in the order it inserts them. */
  const Exports: seq<(string, Param)> := [
    ("monster_ids", Monsters), ("type_ids", Types), ("min_dist", MinDist),
    ("max_dist", MaxDist), ("min_lvl", MinRaidLvl), ("max_lvl", MaxRaidLvl),
    ("forms", FormIds), ("genders", Genders), ("can_be_shiny", CanBeShiny),
    ("weather_ids", Weather), ("gym_name_contains", GymNameContains),
    ("gym_name_excludes", GymNameExcludes), ("sponsored", Sponsored),
    ("park_contains", ParkContains), ("geofences", Geofences),
    ("exclude_geofences", ExcludeGeofences), ("is_missing_info", IsMissingInfo)]

  /** The settings dict after the conditional inserts of `todo`: a name is
      present exactly when its limit is set, holding that limit. */
  function ExportFrom(limits: map<Param, Limit>, todo: seq<(string, Param)>): (settings: map<string, Limit>)
    ensures forall k :: k in settings <==> exists i :: 0 <= i < |todo| && todo[i].0 == k && todo[i].1 in limits
    ensures forall k :: k in settings ==>
              exists i :: 0 <= i < |todo| && todo[i].0 == k && todo[i].1 in limits && settings[k] == limits[todo[i].1]
    decreases |todo|
  {
    if todo == [] then map[]
    else
      var front := todo[..|todo| - 1];
      var last := todo[|todo| - 1];
      var rest := ExportFrom(limits, front);
      assert forall i :: 0 <= i < |front| ==> front[i] == todo[i];
      if last.1 in limits then rest[last.0 := limits[last.1]] else rest
  }

  /** `to_dict`. */
  function ToDict(f: RaidFilter): (settings: map<string, Limit>)
    ensures forall i :: 0 <= i < |Exports| && Exports[i].1 in f.limits ==> Exports[i].0 in settings
    ensures forall k :: k in settings ==> exists i :: 0 <= i < |Exports| && Exports[i].0 == k && Exports[i].1 in f.limits
  {
    ExportFrom(f.limits, Exports)
  }

  /** Changing or dropping a limit that no insert of `todo` reports leaves
      the settings as they were. */
  lemma {:induction false} ExportFromIgnores(limits: map<Param, Limit>, todo: seq<(string, Param)>, p: Param, l: Limit)
    requires forall i :: 0 <= i < |todo| ==> todo[i].1 != p
    ensures ExportFrom(limits[p := l], todo) == ExportFrom(limits, todo)
    ensures ExportFrom(limits - {p}, todo) == ExportFrom(limits, todo)
    decreases |todo|
  {
    if todo != [] {
      ExportFromIgnores(limits, todo[..|todo| - 1], p, l);
    }
  }

  /** The limits `to_dict` leaves out. */
  const Unexported: set<Param> := {MonstersExclude, MinTimeLeft, MaxTimeLeft, MinCp, MaxCp, CostumeIds,
                                   ExcludeCostumes, QuickMoves, ChargeMoves, CurrentTeams, IsExEligible}

  lemma ExportsSkipUnexported()
    ensures forall i :: 0 <= i < |Exports| ==> Exports[i].1 !in Unexported
  {
  }

  /** `to_dict` does not see the excluded monsters, time left, CP,
      costumes, moves, teams or raid eligibility limits: setting, changing
      or dropping one leaves its result unchanged. */
  lemma ToDictOmits(f: RaidFilter, p: Param, l: Limit)
    requires p in Unexported
    ensures ToDict(RaidFilter(f.name, f.limits[p := l])) == ToDict(f)
    ensures ToDict(RaidFilter(f.name, f.limits - {p})) == ToDict(f)
  {
    ExportsSkipUnexported();
    ExportFromIgnores(f.limits, Exports, p, l);
  }

  /** No parameter is read under the names `to_dict` gives the monster and
      raid level limits. */
  lemma KeysDifferFromExportNames(p: Param)
    ensures Key(p) != "monster_ids" && Key(p) != "min_lvl" && Key(p) != "max_lvl"
  {
    match p
    case Monsters =>
    case MonstersExclude =>
    case Types =>
    case MinDist =>
    case MaxDist =>
    case MinTimeLeft =>
    case MaxTimeLeft =>
    case MinRaidLvl =>
    case MaxRaidLvl =>
    case FormIds =>
    case ExcludeForms =>
    case CostumeIds =>
    case ExcludeCostumes =>
    case CanBeShiny =>
    case Genders =>
    case MinCp =>
    case MaxCp =>
    case QuickMoves =>
    case ChargeMoves =>
    case GymNameContains =>
    case GymNameExcludes =>
    case Sponsored =>
    case ParkContains =>
    case IsExEligible =>
    case CurrentTeams =>
    case Weather =>
    case Geofences =>
    case ExcludeGeofences =>
    case MinTime =>
    case MaxTime =>
    case CustomDts =>
    case IsMissingInfo =>
  }

  /** The constructor rejects those names. */
  lemma ExportNamesUnrecognized()
    ensures "monster_ids" !in Recognized && "min_lvl" !in Recognized && "max_lvl" !in Recognized
  {
    if "monster_ids" in Recognized {
      var p :| p in Params && Key(p) == "monster_ids";
      KeysDifferFromExportNames(p);
    }
    if "min_lvl" in Recognized {
      var p :| p in Params && Key(p) == "min_lvl";
      KeysDifferFromExportNames(p);
    }
    if "max_lvl" in Recognized {
      var p :| p in Params && Key(p) == "max_lvl";
      KeysDifferFromExportNames(p);
    }
  }

  /** A set limit is reported under its export name. */
  lemma Exported(limits: map<Param, Limit>, todo: seq<(string, Param)>, i: nat)
    requires i < |todo| && todo[i].1 in limits
    ensures todo[i].0 in ExportFrom(limits, todo)
  {
  }

  /** `to_dict` reports the monster and raid level limits under those
      names, so its result is not a config the constructor accepts. */
  lemma ToDictNotReadable(f: RaidFilter)
    ensures Monsters in f.limits ==> "monster_ids" in ToDict(f)
    ensures MinRaidLvl in f.limits ==> "min_lvl" in ToDict(f)
    ensures MaxRaidLvl in f.limits ==> "max_lvl" in ToDict(f)
  {
    assert Exports[0] == ("monster_ids", Monsters);
    assert Exports[4] == ("min_lvl", MinRaidLvl);
    assert Exports[5] == ("max_lvl", MaxRaidLvl);
    if Monsters in f.limits {
      Exported(f.limits, Exports, 0);
    }
    if MinRaidLvl in f.limits {
      Exported(f.limits, Exports, 4);
    }
    if MaxRaidLvl in f.limits {
      Exported(f.limits, Exports, 5);
    }
  }

  // ----- what a passing raid satisfies -----

  /** The condition parameter `p` registers, with the filter's limit for it. */
  function ConditionFor(limits: map<Param, Limit>, p: Param): Condition
    requires Registers(p).Some?
  {
    Condition(Registers(p).value.0, Registers(p).value.1, if p in limits then Some(limits[p]) else None)
  }

  /** Every parameter of `todo` that registers a condition has it in the table. */
  lemma {:induction false} ConditionsOfComplete(limits: map<Param, Limit>, todo: seq<Param>, p: Param)
    requires p in todo && Registers(p).Some?
    ensures ConditionFor(limits, p) in ConditionsOf(limits, todo)
    decreases |todo|
  {
    if todo[0] != p {
      ConditionsOfComplete(limits, todo[1..], p);
    }
  }

  /** Every parameter is read. */
  lemma EveryParamRead(p: Param)
    ensures p in Params
  {
  }

  /** A raid that passes meets each limit set on an attribute it knows. */
  lemma PassesMeetsLimits(f: RaidFilter, ev: RaidEvent, matches: (Pattern, string) -> bool, p: Param)
    requires Passes(f, ev, matches)
    requires p in f.limits && Registers(p).Some?
    requires Attribute(ev, Registers(p).value.0).Known?
    ensures Holds(Registers(p).value.1, f.limits[p], Attribute(ev, Registers(p).value.0).v, matches)
  {
    EveryParamRead(p);
    ConditionsOfComplete(f.limits, Params, p);
    var cs := Conditions(f);
    var i :| 0 <= i < |cs| && cs[i] == ConditionFor(f.limits, p);
    assert Evaluate(cs[i], ev, matches) != Fail;
  }

  /** Every limit set on an attribute the raid knows is met. */
  predicate MeetsKnownLimits(f: RaidFilter, ev: RaidEvent, matches: (Pattern, string) -> bool)
    reads ev
  {
    forall p :: p in f.limits && Registers(p).Some? && Attribute(ev, Registers(p).value.0).Known? ==>
      Holds(Registers(p).value.1, f.limits[p], Attribute(ev, Registers(p).value.0).v, matches)
  }

  lemma PassingMeetsKnownLimits(f: RaidFilter, ev: RaidEvent, matches: (Pattern, string) -> bool)
    requires Passes(f, ev, matches)
    ensures MeetsKnownLimits(f, ev, matches)
  {
    forall p | p in f.limits && Registers(p).Some? && Attribute(ev, Registers(p).value.0).Known?
      ensures Holds(Registers(p).value.1, f.limits[p], Attribute(ev, Registers(p).value.0).v, matches)
    {
      PassesMeetsLimits(f, ev, matches, p);
    }
  }

  /** A raid whose attributes are all known where a limit is set, and which
      meets every such limit, passes when `is_missing_info` is unset. */
  lemma MeetingLimitsPasses(f: RaidFilter, ev: RaidEvent, matches: (Pattern, string) -> bool)
    requires IsMissingInfo !in f.limits
    requires forall p :: p in f.limits && Registers(p).Some? ==> Attribute(ev, Registers(p).value.0).Known?
    requires MeetsKnownLimits(f, ev, matches)
    ensures Passes(f, ev, matches)
  {
    var cs := Conditions(f);
    forall i | 0 <= i < |cs| ensures Evaluate(cs[i], ev, matches) != Fail {
      var c := cs[i];
      assert c in cs;
      var p :| Registers(p) == Some((c.attr, c.op))
               && c.limit == (if p in f.limits then Some(f.limits[p]) else None);
      if p in f.limits {
        assert Attribute(ev, c.attr).Known?;
        assert Holds(c.op, c.limit.value, Attribute(ev, c.attr).v, matches);
      }
    }
  }

  /** Raid level and CP bounds are inclusive: `min <= value <= max` for
      each bound that is set. */
  lemma LevelAndCpBounds(f: RaidFilter, ev: RaidEvent, matches: (Pattern, string) -> bool)
    requires MeetsKnownLimits(f, ev, matches)
    ensures MinRaidLvl in f.limits ==> LimitNumber(f.limits[MinRaidLvl]).Some?
                                       && LimitNumber(f.limits[MinRaidLvl]).value <= ev.raidLvl as real
    ensures MaxRaidLvl in f.limits ==> LimitNumber(f.limits[MaxRaidLvl]).Some?
                                       && LimitNumber(f.limits[MaxRaidLvl]).value >= ev.raidLvl as real
    ensures MinCp in f.limits ==> LimitNumber(f.limits[MinCp]).Some?
                                  && LimitNumber(f.limits[MinCp]).value <= ev.cp as real
    ensures MaxCp in f.limits ==> LimitNumber(f.limits[MaxCp]).Some?
                                  && LimitNumber(f.limits[MaxCp]).value >= ev.cp as real
  {
    assert Registers(MinRaidLvl) == Some((RaidLvl, Le)) && Registers(MaxRaidLvl) == Some((RaidLvl, Ge));
    assert Registers(MinCp) == Some((Cp, Le)) && Registers(MaxCp) == Some((Cp, Ge));
  }

  /** Time left and distance bounds are inclusive too; distance is checked
      only once it is known. */
  lemma TimeAndDistanceBounds(f: RaidFilter, ev: RaidEvent, matches: (Pattern, string) -> bool)
    requires MeetsKnownLimits(f, ev, matches)
    ensures MinTimeLeft in f.limits ==> LimitNumber(f.limits[MinTimeLeft]).Some?
                                        && LimitNumber(f.limits[MinTimeLeft]).value <= ev.timeLeft as real
    ensures MaxTimeLeft in f.limits ==> LimitNumber(f.limits[MaxTimeLeft]).Some?
                                        && LimitNumber(f.limits[MaxTimeLeft]).value >= ev.timeLeft as real
    ensures MinDist in f.limits && ev.distance.Known? ==>
              LimitNumber(f.limits[MinDist]).Some? && LimitNumber(f.limits[MinDist]).value <= ev.distance.v
    ensures MaxDist in f.limits && ev.distance.Known? ==>
              LimitNumber(f.limits[MaxDist]).Some? && LimitNumber(f.limits[MaxDist]).value >= ev.distance.v
  {
    assert Registers(MinTimeLeft) == Some((TimeLeft, Le)) && Registers(MaxTimeLeft) == Some((TimeLeft, Ge));
    assert Registers(MinDist) == Some((Distance, Le)) && Registers(MaxDist) == Some((Distance, Ge));
  }

  /** Include sets hold the raid's value and exclude sets do not: monsters,
      forms and costumes. */
  lemma IncludeExcludeSets(f: RaidFilter, ev: RaidEvent, matches: (Pattern, string) -> bool)
    requires MeetsKnownLimits(f, ev, matches)
    ensures Monsters in f.limits ==> f.limits[Monsters].Ids? && ev.monId in f.limits[Monsters].ids
    ensures MonstersExclude in f.limits && f.limits[MonstersExclude].Ids? ==>
              ev.monId !in f.limits[MonstersExclude].ids
    ensures FormIds in f.limits ==> f.limits[FormIds].Ids? && ev.formId in f.limits[FormIds].ids
    ensures ExcludeForms in f.limits && f.limits[ExcludeForms].Ids? ==>
              ev.formId !in f.limits[ExcludeForms].ids
    ensures CostumeIds in f.limits ==> f.limits[CostumeIds].Ids? && ev.costumeId in f.limits[CostumeIds].ids
    ensures ExcludeCostumes in f.limits && f.limits[ExcludeCostumes].Ids? ==>
              ev.costumeId !in f.limits[ExcludeCostumes].ids
  {
    assert Registers(Monsters) == Some((MonId, Contains)) && Registers(MonstersExclude) == Some((MonId, Excludes));
    assert Registers(FormIds) == Some((FormId, Contains)) && Registers(ExcludeForms) == Some((FormId, Excludes));
    assert Registers(CostumeIds) == Some((CostumeId, Contains));
    assert Registers(ExcludeCostumes) == Some((CostumeId, Excludes));
  }

  /** The flag conditions: `sponsored` asks whether `sponsor_id > 0`,
      `can_be_shiny` compares booleans and `is_ex_eligible` compares the
      raid's number with the flag as Python does (`True == 1`). */
  lemma FlagConditions(f: RaidFilter, ev: RaidEvent, matches: (Pattern, string) -> bool)
    requires MeetsKnownLimits(f, ev, matches)
    ensures Sponsored in f.limits && ev.sponsorId.Known? ==>
              f.limits[Sponsored].Flag? && (ev.sponsorId.v > 0) == f.limits[Sponsored].b
    ensures CanBeShiny in f.limits ==> f.limits[CanBeShiny].Flag? && ev.canBeShiny == f.limits[CanBeShiny].b
    ensures IsExEligible in f.limits && ev.exEligible.Known? ==>
              f.limits[IsExEligible].Flag? && ev.exEligible.v == (if f.limits[IsExEligible].b then 1 else 0)
  {
    assert Registers(Sponsored) == Some((SponsorId, SponsorIs)) && Registers(CanBeShiny) == Some((Shiny, Eq));
    assert Registers(IsExEligible) == Some((ExEligible, Eq));
  }

  /** Gym name patterns: a known gym name matches some pattern of
      `gym_name_contains` and none of `gym_name_excludes`. */
  lemma GymNamePatterns(f: RaidFilter, ev: RaidEvent, matches: (Pattern, string) -> bool)
    requires MeetsKnownLimits(f, ev, matches)
    ensures GymNameContains in f.limits && ev.gymName.Known? ==>
              f.limits[GymNameContains].Patterns?
              && exists pat :: pat in f.limits[GymNameContains].patterns && matches(pat, ev.gymName.v)
    ensures GymNameExcludes in f.limits && ev.gymName.Known? ==>
              f.limits[GymNameExcludes].Patterns?
              && forall pat :: pat in f.limits[GymNameExcludes].patterns ==> !matches(pat, ev.gymName.v)
  {
    assert Registers(GymNameContains) == Some((GymName, MatchAny));
    assert Registers(GymNameExcludes) == Some((GymName, MatchNone));
  }
}
