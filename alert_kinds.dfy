/** The eight kinds of alert every alarm type configures, each under its own
    key of the alarm's settings (`settings.pop('monsters', {})`, ...). */
module AlertKinds {
  import opened Results
  import opened Json
  import opened Config

  datatype Kind = Monsters | Stops | Gyms | Eggs | Raids | Weather | Quests | Invasions

  /** The kinds in the order the alarm constructors read them. */
  const Kinds: seq<Kind> := [Monsters, Stops, Gyms, Eggs, Raids, Weather, Quests, Invasions]

  /** The settings key of a kind. */
  function KindKey(k: Kind): string {
    match k
    case Monsters => "monsters"
    case Stops => "stops"
    case Gyms => "gyms"
    case Eggs => "eggs"
    case Raids => "raids"
    case Weather => "weather"
    case Quests => "quests"
    case Invasions => "invasions"
  }

  /** `settings.pop(kind, {})` as the alert-level settings it yields: an
      absent key gives the empty dict, an object its entries, and anything
      else has no `pop` to call (`None`). */
  function SubSettings(e: Entries, k: Kind): (r: Option<Entries>)
    ensures Find(e, KindKey(k)).None? ==> r == Some([])
    ensures Find(e, KindKey(k)).Some? ==>
              (r.Some? <==> Find(e, KindKey(k)).value.JObject?)
              && (r.Some? ==> r.value == Find(e, KindKey(k)).value.entries)
  {
    match PopOr(e, KindKey(k), JObject([]))
    case JObject(entries) => Some(entries)
    case _ => None
  }

  /** The constructors read every kind. */
  lemma EveryKind(k: Kind)
    ensures k in Kinds
  {
  }
}
