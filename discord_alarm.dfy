/** The Discord alarm: its settings, the per-kind alert settings it derives
    from them and from its default table, and the webhook posts it builds.

    The HTTP post itself, the retry loop and logging are not part of this
    model; a post is the value that would be handed to `send_webhook`. The
    helpers the alarm calls from `PokeAlarm.Utils` and from its base class
    are not part of it either, and come in as the fields of `Env`. */
module DiscordAlarms {
  import opened Results
  import opened Json
  import opened Config
  import opened Text
  import opened AlertKinds

  /** The values `replace` substitutes into a template: an event's DTS. */
  type Info = map<string, Json>

  /** The helpers the alarm calls: `parse_boolean`, `get_image_url`,
      `get_static_map_url` with the alarm's static map key, and
      `Alarm.replace`. */
  datatype Env = Env(
    parseBoolean: Json -> Option<bool>,
    imageUrl: string -> string,
    staticMapUrl: Json -> Option<string>,
    replace: (Json, Info) -> string)

  /** `parse_boolean` reads Python's own booleans and the strings "True"
      and "False" as themselves. */
  predicate ReadsBooleans(parse: Json -> Option<bool>) {
    && parse(JStr("True")) == Some(true)
    && parse(JStr("False")) == Some(false)
    && parse(JBool(true)) == Some(true)
    && parse(JBool(false)) == Some(false)
  }

  // ----- the default table -----

  /** One kind's default templates. */
  datatype Texts = Texts(
    username: string, content: string, iconUrl: string, avatarUrl: string,
    title: string, url: string, body: string)

  /** The optional entries of one kind's defaults: the `display_*` image
      variants and `footer_timestamp`, absent where the table has no such key. */
  datatype Variants = Variants(
    displayIconUrl: Option<string>, displayAvatarUrl: Option<string>, footerTimestamp: Option<string>)

  /** The templates of `DiscordAlarm._defaults[kind]`, the image paths
      passed through `get_image_url`. */
  function TextsOf(k: Kind, imageUrl: string -> string): (t: Texts)
    ensures t.url == "<gmaps>" && t.content == "" && t.iconUrl == t.avatarUrl
    ensures t.iconUrl == imageUrl(KindTexts(k).1)
  {
    var (username, image, title, body) := KindTexts(k);
    var img := imageUrl(image);
    Texts(username, "", img, img, title, "<gmaps>", body)
  }

  /** Per kind: the username, the image path, the title and the body. */
  function KindTexts(k: Kind): (string, string, string, string) {
    match k
    case Monsters =>
      ("<mon_name>", "regular/monsters/<mon_id_3>_<form_id_3>.png", "A wild <mon_name> has appeared!",
       "Available until <24h_time> (<time_left>).")
    case Stops =>
      ("Pokestop", "regular/stop/<lure_type_id_3>.png", "Someone has placed a lure on a Pokestop!",
       "Lure will expire at <24h_time> (<time_left>).")
    case Gyms =>
      ("<new_team> Gym Alerts", "regular/gyms/<new_team_id>.png", "A Team <old_team> gym has fallen!",
       "It is now controlled by <new_team>.")
    case Eggs =>
      ("Egg", "regular/eggs/<egg_lvl>.png", "Raid is incoming!",
       "A level <egg_lvl> raid will hatch at <24h_hatch_time> (<hatch_time_left>).")
    case Raids =>
      ("Raid", "regular/monsters/<mon_id_3>_<form_id_3>.png", "Level <raid_lvl> raid is available against <mon_name>!",
       "The raid is available until <24h_raid_end> (<raid_time_left>).")
    case Weather =>
      ("Weather", "regular/weather/<weather_id_3>_<day_or_night_id_3>.png", "The weather has changed!",
       "The weather around <lat>,<lng> has changed to <weather>!")
    case Quests =>
      ("Quest", "regular/<quest_image>.png", "New Quest Found!", "Do this: <quest_task>\nFor this: <reward>")
    case Invasions =>
      ("Invasion", "regular/invasions/<grunt_id_3>.png", "This Pokestop has been invaded by Team Rocket!",
       "Invasion will expire at <24h_time> (<time_left>).")
  }

  /** The optional entries of `DiscordAlarm._defaults[kind]`: only the
      monster alerts have display variants, and the gym, weather and quest
      alerts have no footer timestamp. */
  function VariantsOf(k: Kind, imageUrl: string -> string): (v: Variants)
    ensures v.displayIconUrl.Some? <==> k == Monsters
    ensures v.displayAvatarUrl.Some? <==> k == Monsters
    ensures v.footerTimestamp.None? <==> k == Gyms || k == Weather || k == Quests
  {
    match k
    case Monsters =>
      var display := imageUrl("regular/monsters/<display_mon_id_3>_<display_form_id_3>.png");
      Variants(Some(display), Some(display), Some("<disappear_time_utc>"))
    case Stops => Variants(None, None, Some("<expiration_utc>"))
    case Gyms => Variants(None, None, None)
    case Eggs => Variants(None, None, Some("<hatch_time_utc>"))
    case Raids => Variants(None, None, Some("<raid_end_utc>"))
    case Weather => Variants(None, None, None)
    case Quests => Variants(None, None, None)
    case Invasions => Variants(None, None, Some("<expiration_utc>"))
  }

  // ----- alarm-level and alert-level settings -----

  /** The alarm-level settings kept by the constructor. */
  datatype AlarmSettings = AlarmSettings(
    webhookUrl: Json, startupMessage: Option<bool>, startupText: Json,
    disableEmbed: Option<bool>, avatarUrl: Json, mapSetting: Json, timestamp: Json)

  /** One kind's alert settings. The templates are kept as configured; `mapUrl`
      is the map template, and `timestamp` is absent when the alert has no
      `'timestamp'` key. */
  datatype Alert = Alert(
    webhookUrl: Json, username: Json, avatarUrl: Json, disableEmbed: Option<bool>,
    content: Json, iconUrl: Json, title: Json, url: Json, body: Json, fields: Json,
    mapUrl: Option<string>, timestamp: Option<string>)

  datatype AlertError =
    | NoDisplayDefault(key: string)   // the KeyError of `default['display_…_url']`
    | UnknownAlertKey(key: string)    // a leftover alert-level key

  /** The keys `create_alert_settings` pops. */
  const AlertKeys: set<string> := {
    "map", "use_display_icon", "use_display_avatar", "webhook_url", "username", "avatar_url",
    "disable_embed", "content", "icon_url", "title", "url", "body", "fields", "footer_timestamp"}

  /** Whether `use_display_avatar` / `use_display_icon` is set (truthy). */
  predicate UsesDisplay(e: Entries, key: string) {
    Truthy(PopOr(e, key, JBool(false)))
  }

  /** The alert's `'map'`: a string is the template itself, anything else
      goes through `get_static_map_url`. */
  function MapOf(m: Json, env: Env): (r: Option<string>)
    ensures m.JStr? ==> r == Some(m.s)
    ensures !m.JStr? ==> r == env.staticMapUrl(m)
  {
    if m.JStr? then Some(m.s) else env.staticMapUrl(m)
  }

  /** The footer timestamp decision: a string is used as is, `True` takes
      the kind's default when it has one, anything else sets none. */
  function TimestampOf(ts: Json, v: Variants): (r: Option<string>)
    ensures ts.JStr? ==> r == Some(ts.s)
    ensures ts == JBool(true) ==> r == v.footerTimestamp
    ensures !ts.JStr? && ts != JBool(true) ==> r.None?
  {
    if ts.JStr? then Some(ts.s)
    else if ts == JBool(true) && v.footerTimestamp.Some? then v.footerTimestamp
    else None
  }

  /** `create_alert_settings(settings, default)`. The default of
      `avatar_url` and of `icon_url` is computed before the pop, so a set
      `use_display_*` flag raises for a kind without the display variant
      even when the user gives the url. */
  function AlertSettings(e: Entries, t: Texts, v: Variants, top: AlarmSettings, env: Env): (r: Result<Alert, AlertError>)
    ensures UsesDisplay(e, "use_display_avatar") && v.displayAvatarUrl.None? ==>
              r == Failure(NoDisplayDefault("display_avatar_url"))
    ensures !(UsesDisplay(e, "use_display_avatar") && v.displayAvatarUrl.None?)
            && UsesDisplay(e, "use_display_icon") && v.displayIconUrl.None? ==>
              r == Failure(NoDisplayDefault("display_icon_url"))
    ensures r.Success? <==>
              && !(UsesDisplay(e, "use_display_avatar") && v.displayAvatarUrl.None?)
              && !(UsesDisplay(e, "use_display_icon") && v.displayIconUrl.None?)
              && forall i :: 0 <= i < |e| ==> e[i].0 in AlertKeys
    ensures r.Failure? && r.error.UnknownAlertKey? ==>
              r.error.key !in AlertKeys && FirstUnrecognized(e, AlertKeys) == Some(r.error.key)
    ensures r.Success? ==>
              && From(e, "webhook_url", r.value.webhookUrl, top.webhookUrl)
              && From(e, "username", r.value.username, JStr(t.username))
              && From(e, "content", r.value.content, JStr(t.content))
              && From(e, "title", r.value.title, JStr(t.title))
              && From(e, "url", r.value.url, JStr(t.url))
              && From(e, "body", r.value.body, JStr(t.body))
              && From(e, "fields", r.value.fields, JList([]))
    ensures r.Success? ==>
              && (UsesDisplay(e, "use_display_avatar") ==>
                    v.displayAvatarUrl.Some?
                    && From(e, "avatar_url", r.value.avatarUrl, JStr(v.displayAvatarUrl.value)))
              && (!UsesDisplay(e, "use_display_avatar") ==> From(e, "avatar_url", r.value.avatarUrl, JStr(t.avatarUrl)))
              && (UsesDisplay(e, "use_display_icon") ==>
                    v.displayIconUrl.Some?
                    && From(e, "icon_url", r.value.iconUrl, JStr(v.displayIconUrl.value)))
              && (!UsesDisplay(e, "use_display_icon") ==> From(e, "icon_url", r.value.iconUrl, JStr(t.iconUrl)))
    ensures r.Success? ==>
              && r.value.disableEmbed == env.parseBoolean(PopOr(e, "disable_embed", BoolJson(top.disableEmbed)))
              && r.value.mapUrl == MapOf(PopOr(e, "map", top.mapSetting), env)
              && r.value.timestamp == TimestampOf(PopOr(e, "footer_timestamp", top.timestamp), v)
  {
    var useIcon := UsesDisplay(e, "use_display_icon");
    var useAvatar := UsesDisplay(e, "use_display_avatar");
    if useAvatar && v.displayAvatarUrl.None? then Failure(NoDisplayDefault("display_avatar_url"))
    else if useIcon && v.displayIconUrl.None? then Failure(NoDisplayDefault("display_icon_url"))
    else
      var alert := Alert(
        PopOr(e, "webhook_url", top.webhookUrl),
        PopOr(e, "username", JStr(t.username)),
        PopOr(e, "avatar_url", JStr(if useAvatar then v.displayAvatarUrl.value else t.avatarUrl)),
        env.parseBoolean(PopOr(e, "disable_embed", BoolJson(top.disableEmbed))),
        PopOr(e, "content", JStr(t.content)),
        PopOr(e, "icon_url", JStr(if useIcon then v.displayIconUrl.value else t.iconUrl)),
        PopOr(e, "title", JStr(t.title)),
        PopOr(e, "url", JStr(t.url)),
        PopOr(e, "body", JStr(t.body)),
        PopOr(e, "fields", JList([])),
        MapOf(PopOr(e, "map", top.mapSetting), env),
        TimestampOf(PopOr(e, "footer_timestamp", top.timestamp), v));
      match FirstUnrecognized(e, AlertKeys)
      case Some(k) => Failure(UnknownAlertKey(k))
      case None => Success(alert)
  }

  /** A parsed flag handed back to `parse_boolean`: `None` stays `None`. */
  function BoolJson(b: Option<bool>): (x: Json)
    ensures b.Some? ==> x == JBool(b.value)
    ensures b.None? ==> x == JNull
  {
    match b
    case Some(v) => JBool(v)
    case None => JNull
  }

  // ----- the constructor -----

  /** The whole alarm: its own settings and one alert per kind. */
  datatype DiscordAlarm = DiscordAlarm(settings: AlarmSettings, alerts: map<Kind, Alert>)

  /** Why one kind's alert could not be built. */
  datatype KindError =
    | NotSettings(kind: Kind)              // the kind's value has no `pop`
    | BadAlert(kind: Kind, err: AlertError)

  datatype AlarmError =
    | MissingWebhookUrl
    | InAlert(err: KindError)
    | UnknownAlarmKey(key: string)         // a leftover alarm-level key

  /** The keys the constructor pops. */
  const AlarmKeys: set<string> := {
    "webhook_url", "startup_message", "startup_text", "disable_embed", "avatar_url", "map",
    "footer_timestamp", "monsters", "stops", "gyms", "eggs", "raids", "weather", "quests", "invasions"}

  /** The alert of one kind, from its alert-level settings and the kind's defaults. */
  function AlertOf(e: Entries, top: AlarmSettings, env: Env, k: Kind): Result<Alert, KindError> {
    match SubSettings(e, k)
    case None => Failure(NotSettings(k))
    case Some(sub) =>
      match AlertSettings(sub, TextsOf(k, env.imageUrl), VariantsOf(k, env.imageUrl), top, env)
      case Failure(err) => Failure(BadAlert(k, err))
      case Success(a) => Success(a)
  }

  /** The alerts of `todo` in turn, stopping at the first that raises. */
  function AlertsOf(make: Kind -> Result<Alert, KindError>, todo: seq<Kind>): (r: Result<map<Kind, Alert>, KindError>)
    ensures r.Success? ==> r.value.Keys == set k | k in todo
    decreases |todo|
  {
    if todo == [] then Success(map[])
    else
      match make(todo[0])
      case Failure(err) => Failure(err)
      case Success(a) =>
        match AlertsOf(make, todo[1..])
        case Failure(err) => Failure(err)
        case Success(m) => Success(m[todo[0] := a])
  }

  /** The alerts are all built exactly when every kind's alert is, each
      one is that kind's alert, and a failure is the first kind's error. */
  lemma {:induction false} AlertsOfSpec(make: Kind -> Result<Alert, KindError>, todo: seq<Kind>)
    ensures AlertsOf(make, todo).Success? <==> forall i :: 0 <= i < |todo| ==> make(todo[i]).Success?
    ensures AlertsOf(make, todo).Success? ==>
              forall k :: k in todo ==> AlertsOf(make, todo).value[k] == make(k).value
    ensures AlertsOf(make, todo).Failure? ==>
              exists i :: 0 <= i < |todo| && make(todo[i]).Failure?
                          && AlertsOf(make, todo).error == make(todo[i]).error
                          && forall j :: 0 <= j < i ==> make(todo[j]).Success?
    decreases |todo|
  {
    if todo != [] && make(todo[0]).Success? {
      var rest := todo[1..];
      AlertsOfSpec(make, rest);
      assert forall i :: 0 <= i < |rest| ==> rest[i] == todo[i + 1];
      if AlertsOf(make, rest).Failure? {
        var i :| 0 <= i < |rest| && make(rest[i]).Failure?
                 && AlertsOf(make, rest).error == make(rest[i]).error
                 && forall j :: 0 <= j < i ==> make(rest[j]).Success?;
        assert make(todo[i + 1]).Failure?;
        forall j | 0 <= j < i + 1 ensures make(todo[j]).Success? {
          if j > 0 { assert todo[j] == rest[j - 1]; }
        }
      }
    }
  }

  /** The alarm-level settings, each popped with its default. */
  function SettingsOf(e: Entries, webhookUrl: Json, env: Env): (s: AlarmSettings)
    ensures s.webhookUrl == webhookUrl
    ensures From(e, "startup_text", s.startupText, JStr(""))
    ensures From(e, "avatar_url", s.avatarUrl, JStr(""))
    ensures From(e, "map", s.mapSetting, JObject([]))
    ensures From(e, "footer_timestamp", s.timestamp, JBool(false))
    ensures s.startupMessage == env.parseBoolean(PopOr(e, "startup_message", JStr("True")))
    ensures s.disableEmbed == env.parseBoolean(PopOr(e, "disable_embed", JStr("False")))
  {
    AlarmSettings(
      webhookUrl,
      env.parseBoolean(PopOr(e, "startup_message", JStr("True"))),
      PopOr(e, "startup_text", JStr("")),
      env.parseBoolean(PopOr(e, "disable_embed", JStr("False"))),
      PopOr(e, "avatar_url", JStr("")),
      PopOr(e, "map", JObject([])),
      PopOr(e, "footer_timestamp", JBool(false)))
  }

  /** `create_alert_settings` for each kind, as one function value. */
  function Maker(e: Entries, top: AlarmSettings, env: Env): Kind -> Result<Alert, KindError> {
    k => AlertOf(e, top, env, k)
  }

  /** `DiscordAlarm(mgr, settings, max_attempts, static_map_key)`. */
  function Init(e: Entries, env: Env): (r: Result<DiscordAlarm, AlarmError>)
    ensures Find(e, "webhook_url").None? ==> r == Failure(MissingWebhookUrl)
    ensures r.Success? ==> r.value.settings == SettingsOf(e, Find(e, "webhook_url").value, env)
    ensures r.Success? ==> AlertsOf(Maker(e, r.value.settings, env), Kinds) == Success(r.value.alerts)
    ensures r.Success? ==> forall i :: 0 <= i < |e| ==> e[i].0 in AlarmKeys
    ensures r.Failure? && r.error.UnknownAlarmKey? ==>
              r.error.key !in AlarmKeys && FirstUnrecognized(e, AlarmKeys) == Some(r.error.key)
    ensures r.Success? <==>
              && Find(e, "webhook_url").Some?
              && AlertsOf(Maker(e, SettingsOf(e, Find(e, "webhook_url").value, env), env), Kinds).Success?
              && FirstUnrecognized(e, AlarmKeys).None?
    ensures r.Failure? && r.error.InAlert? ==>
              && Find(e, "webhook_url").Some?
              && AlertsOf(Maker(e, SettingsOf(e, Find(e, "webhook_url").value, env), env), Kinds)
                 == Failure(r.error.err)
  {
    match Find(e, "webhook_url")
    case None => Failure(MissingWebhookUrl)
    case Some(url) =>
      var top := SettingsOf(e, url, env);
      match AlertsOf(Maker(e, top, env), Kinds)
      case Failure(err) => Failure(InAlert(err))
      case Success(alerts) =>
        match FirstUnrecognized(e, AlarmKeys)
        case Some(k) => Failure(UnknownAlarmKey(k))
        case None => Success(DiscordAlarm(top, alerts))
  }

  /** Building the alerts over all kinds leaves no kind without one; with
      `Init`'s ensures, a built alarm has an alert for every kind. */
  lemma AlertsCoverKinds(make: Kind -> Result<Alert, KindError>)
    requires AlertsOf(make, Kinds).Success?
    ensures forall k :: k in AlertsOf(make, Kinds).value
  {
    forall k ensures k in Kinds {
      EveryKind(k);
    }
  }

  /** With `parse_boolean` reading booleans as themselves, an alarm built
      without the optional keys sends a startup message and embeds. */
  lemma InitDefaults(e: Entries, env: Env)
    requires ReadsBooleans(env.parseBoolean)
    requires Init(e, env).Success?
    ensures Find(e, "startup_message").None? ==> Init(e, env).value.settings.startupMessage == Some(true)
    ensures Find(e, "disable_embed").None? ==> Init(e, env).value.settings.disableEmbed == Some(false)
  {
  }

  /** An alert inherits the alarm's webhook url and, with `parse_boolean`
      reading booleans as themselves, its `disable_embed` flag. */
  lemma AlertInherits(e: Entries, t: Texts, v: Variants, top: AlarmSettings, env: Env)
    requires ReadsBooleans(env.parseBoolean) && top.disableEmbed.Some?
    requires AlertSettings(e, t, v, top, env).Success?
    ensures Find(e, "webhook_url").None? ==> AlertSettings(e, t, v, top, env).value.webhookUrl == top.webhookUrl
    ensures Find(e, "disable_embed").None? ==> AlertSettings(e, t, v, top, env).value.disableEmbed == top.disableEmbed
  {
  }

  /** Only the monster alerts can use the display variants: for any other
      kind a set flag raises, whatever else is configured. */
  lemma DisplayOnlyForMonsters(e: Entries, k: Kind, t: Texts, top: AlarmSettings, env: Env)
    requires k != Monsters
    requires UsesDisplay(e, "use_display_avatar") || UsesDisplay(e, "use_display_icon")
    ensures AlertSettings(e, t, VariantsOf(k, env.imageUrl), top, env).Failure?
    ensures AlertSettings(e, t, VariantsOf(k, env.imageUrl), top, env).error.NoDisplayDefault?
  {
  }

  // ----- the startup message -----

  /** The startup post: where it goes and what it says. */
  datatype StartupPost = StartupPost(url: Json, username: string, content: Json)

  /** `startup_message()`: a post only when the flag parsed as true, with
      the default text standing in for an empty `startup_text`. */
  function Startup(s: AlarmSettings): (r: Option<StartupPost>)
    ensures r.Some? <==> s.startupMessage == Some(true)
    ensures r.Some? ==> r.value.url == s.webhookUrl && r.value.username == "PokeAlarm"
    ensures r.Some? ==> (r.value.content == JStr("PokeAlarm activated!") <==>
                           s.startupText == JStr("") || s.startupText == JStr("PokeAlarm activated!"))
    ensures r.Some? && s.startupText != JStr("") ==> r.value.content == s.startupText
  {
    if s.startupMessage == Some(true) then
      Some(StartupPost(s.webhookUrl, "PokeAlarm",
                       if s.startupText == JStr("") then JStr("PokeAlarm activated!") else s.startupText))
    else None
  }

  // ----- the alert post -----

  datatype Field = Field(name: string, value: string, inline: Json)

  datatype Embed = Embed(
    title: string, url: string, description: string, thumbnail: string,
    fields: seq<Field>, image: Option<string>, timestamp: Option<string>)

  datatype Payload = Payload(username: string, content: string, avatarUrl: string, embed: Option<Embed>)

  /** The arguments of `send_webhook`. */
  datatype Post = Post(url: string, payload: Payload)

  datatype SendError =
    | MissingKey(key: string)   // a KeyError on a field or on the event's DTS
    | NotAnObject               // a field that cannot be subscripted by name
    | NotIterable               // a `fields` setting `for` cannot walk

  /** What `for field in fields` walks: a list's items, a string's
      characters, a dict's keys. */
  function FieldItems(fields: Json): (r: Result<seq<Json>, SendError>)
    ensures fields.JList? ==> r == Success(fields.items)
    ensures fields.JStr? ==> r.Success? && |r.value| == |fields.s|
    ensures fields.JObject? ==> r.Success? && |r.value| == |fields.entries|
    ensures r.Failure? <==> !(fields.JList? || fields.JStr? || fields.JObject?)
  {
    match fields
    case JList(items) => Success(items)
    case JStr(s) => Success(seq(|s|, i requires 0 <= i < |s| => JStr([s[i]])))
    case JObject(entries) => Success(seq(|entries|, i requires 0 <= i < |entries| => JStr(entries[i].0)))
    case _ => Failure(NotIterable)
  }

  /** One entry of `replace_fields`: name and value replaced, `inline`
      copied or `False`. */
  function FieldOf(x: Json, info: Info, replace: (Json, Info) -> string): (r: Result<Field, SendError>)
    ensures r.Success? <==> x.JObject? && Find(x.entries, "name").Some? && Find(x.entries, "value").Some?
    ensures r.Success? ==>
              && r.value.name == replace(Find(x.entries, "name").value, info)
              && r.value.value == replace(Find(x.entries, "value").value, info)
              && From(x.entries, "inline", r.value.inline, JBool(false))
    ensures !x.JObject? ==> r == Failure(NotAnObject)
    ensures x.JObject? && Find(x.entries, "name").None? ==> r == Failure(MissingKey("name"))
  {
    match x
    case JObject(entries) =>
      (match Find(entries, "name")
       case None => Failure(MissingKey("name"))
       case Some(name) =>
         match Find(entries, "value")
         case None => Failure(MissingKey("value"))
         case Some(value) =>
           Success(Field(replace(name, info), replace(value, info), PopOr(entries, "inline", JBool(false)))))
    case _ => Failure(NotAnObject)
  }

  /** `FieldOf` for one event's `info`, as a function of the field alone. */
  function Converter(info: Info, replace: (Json, Info) -> string): Json -> Result<Field, SendError> {
    x => FieldOf(x, info, replace)
  }

  /** `replace_fields(fields, info)` with `convert` building each entry: one
      entry per field, in order, or the first failing field's error. */
  function FieldsOf(convert: Json -> Result<Field, SendError>, items: seq<Json>): (r: Result<seq<Field>, SendError>)
    ensures r.Success? <==> forall i :: 0 <= i < |items| ==> convert(items[i]).Success?
    ensures r.Success? ==> |r.value| == |items|
                           && forall i :: 0 <= i < |items| ==> convert(items[i]) == Success(r.value[i])
    ensures r.Failure? ==> exists i :: 0 <= i < |items| && convert(items[i]) == Failure(r.error)
                                       && forall j :: 0 <= j < i ==> convert(items[j]).Success?
    decreases |items|
  {
    if items == [] then Success([])
    else
      var front := items[..|items| - 1];
      assert forall i :: 0 <= i < |front| ==> front[i] == items[i];
      match FieldsOf(convert, front)
      case Failure(err) => Failure(err)
      case Success(fs) =>
        match convert(items[|items| - 1])
        case Failure(err) => Failure(err)
        case Success(f) => Success(fs + [f])
  }

  /** The loop of `replace_fields`. */
  method ReplaceFields(items: seq<Json>, info: Info, replace: (Json, Info) -> string) returns (r: Result<seq<Field>, SendError>)
    ensures r == FieldsOf(Converter(info, replace), items)
  {
    var replaced: seq<Field> := [];
    var i := 0;
    while i < |items|
      invariant 0 <= i <= |items|
      invariant FieldsOf(Converter(info, replace), items[..i]) == Success(replaced)
    {
      var f := FieldOf(items[i], info, replace);
      FieldsNext(Converter(info, replace), items, i);
      if f.Failure? {
        FailureStays(Converter(info, replace), items, i + 1);
        return Failure(f.error);
      }
      replaced := replaced + [f.value];
      i := i + 1;
    }
    assert items[..i] == items;
    return Success(replaced);
  }

  /** One more field: its entry is appended, or its error ends the list. */
  lemma FieldsNext(convert: Json -> Result<Field, SendError>, items: seq<Json>, i: nat)
    requires i < |items| && FieldsOf(convert, items[..i]).Success?
    ensures convert(items[i]).Success? ==>
              FieldsOf(convert, items[..i + 1]) == Success(FieldsOf(convert, items[..i]).value + [convert(items[i]).value])
    ensures convert(items[i]).Failure? ==> FieldsOf(convert, items[..i + 1]) == Failure(convert(items[i]).error)
  {
    assert items[..i + 1][..i] == items[..i];
  }

  /** Once a prefix of the fields fails, the whole list fails the same way. */
  lemma {:induction false} FailureStays(convert: Json -> Result<Field, SendError>, items: seq<Json>, n: nat)
    requires n <= |items| && FieldsOf(convert, items[..n]).Failure?
    ensures FieldsOf(convert, items) == FieldsOf(convert, items[..n])
    decreases |items| - n
  {
    if n < |items| {
      assert items[..n + 1][..n] == items[..n];
      FailureStays(convert, items, n + 1);
    } else {
      assert items[..n] == items;
    }
  }

  /** `send_alert(alert, info)` as the post it hands to `send_webhook`. */
  function Send(alert: Alert, info: Info, env: Env): (r: Result<Post, SendError>)
    ensures alert.disableEmbed != Some(false) ==> r.Success?
    ensures r.Success? ==>
              && r.value.url == env.replace(alert.webhookUrl, info)
              && |r.value.payload.username| <= 32
              && r.value.payload.username <= env.replace(alert.username, info)
              && (|env.replace(alert.username, info)| <= 32 ==>
                    r.value.payload.username == env.replace(alert.username, info))
              && r.value.payload.content == env.replace(alert.content, info)
              && r.value.payload.avatarUrl == env.replace(alert.avatarUrl, info)
    ensures r.Success? ==> (r.value.payload.embed.Some? <==> alert.disableEmbed == Some(false))
    ensures r.Success? && r.value.payload.embed.Some? ==>
              && (r.value.payload.embed.value.image.Some? <==> alert.mapUrl.Some?)
              && (r.value.payload.embed.value.timestamp.Some? <==> alert.timestamp.Some?)
              && FieldItems(alert.fields).Success?
              && |r.value.payload.embed.value.fields| == |FieldItems(alert.fields).value|
    ensures r.Success? && r.value.payload.embed.Some? ==>
              var embed := r.value.payload.embed.value;
              && embed.title == env.replace(alert.title, info)
              && embed.url == env.replace(alert.url, info)
              && embed.description == env.replace(alert.body, info)
              && embed.thumbnail == env.replace(alert.iconUrl, info)
              && FieldsOf(Converter(info, env.replace), FieldItems(alert.fields).value).Success?
              && embed.fields == FieldsOf(Converter(info, env.replace), FieldItems(alert.fields).value).value
              && (alert.mapUrl.Some? ==> embed.image == Some(env.replace(JStr(alert.mapUrl.value), info)))
              && (alert.timestamp.Some? ==> embed.timestamp == Some(env.replace(JStr(alert.timestamp.value), info)))
    ensures alert.disableEmbed == Some(false) && FieldItems(alert.fields).Failure? ==>
              r == Failure(FieldItems(alert.fields).error)
    ensures alert.disableEmbed == Some(false) && FieldItems(alert.fields).Success?
            && FieldsOf(Converter(info, env.replace), FieldItems(alert.fields).value).Failure? ==>
              r == Failure(FieldsOf(Converter(info, env.replace), FieldItems(alert.fields).value).error)
    ensures alert.disableEmbed == Some(false) && alert.mapUrl.Some? && FieldItems(alert.fields).Success?
            && FieldsOf(Converter(info, env.replace), FieldItems(alert.fields).value).Success? ==>
              && ("lat" !in info ==> r == Failure(MissingKey("lat")))
              && ("lat" in info && "lng" !in info ==> r == Failure(MissingKey("lng")))
    ensures alert.disableEmbed == Some(false) && alert.mapUrl.Some? && FieldItems(alert.fields).Success?
            && FieldsOf(Converter(info, env.replace), FieldItems(alert.fields).value).Success? ==>
              (r.Success? <==> "lat" in info && "lng" in info)
  {
    var payload := Payload(Take(env.replace(alert.username, info), 32),
                           env.replace(alert.content, info),
                           env.replace(alert.avatarUrl, info), None);
    var url := env.replace(alert.webhookUrl, info);
    if alert.disableEmbed != Some(false) then Success(Post(url, payload))
    else
      match FieldItems(alert.fields)
      case Failure(err) => Failure(err)
      case Success(items) =>
        match FieldsOf(Converter(info, env.replace), items)
        case Failure(err) => Failure(err)
        case Success(fields) =>
          if alert.mapUrl.Some? && "lat" !in info then Failure(MissingKey("lat"))
          else if alert.mapUrl.Some? && "lng" !in info then Failure(MissingKey("lng"))
          else
            var embed := Embed(
              env.replace(alert.title, info), env.replace(alert.url, info),
              env.replace(alert.body, info), env.replace(alert.iconUrl, info), fields,
              if alert.mapUrl.Some? then Some(env.replace(JStr(alert.mapUrl.value), info)) else None,
              if alert.timestamp.Some? then Some(env.replace(JStr(alert.timestamp.value), info)) else None);
            Success(Post(url, payload.(embed := Some(embed))))
  }

  /** `send_alert`, step by step: the plain payload, then the embed with
      its fields, image and timestamp when embeds are enabled. */
  method SendAlert(alert: Alert, info: Info, env: Env) returns (r: Result<Post, SendError>)
    ensures r == Send(alert, info, env)
  {
    var payload := Payload(Take(env.replace(alert.username, info), 32),
                           env.replace(alert.content, info),
                           env.replace(alert.avatarUrl, info), None);
    if alert.disableEmbed == Some(false) {
      var items := FieldItems(alert.fields);
      if items.Failure? {
        return Failure(items.error);
      }
      var fields := ReplaceFields(items.value, info, env.replace);
      if fields.Failure? {
        return Failure(fields.error);
      }
      var embed := Embed(
        env.replace(alert.title, info), env.replace(alert.url, info),
        env.replace(alert.body, info), env.replace(alert.iconUrl, info), fields.value, None, None);
      if alert.mapUrl.Some? {
        if "lat" !in info {
          return Failure(MissingKey("lat"));
        }
        if "lng" !in info {
          return Failure(MissingKey("lng"));
        }
        embed := embed.(image := Some(env.replace(JStr(alert.mapUrl.value), info)));
      }
      if alert.timestamp.Some? {
        embed := embed.(timestamp := Some(env.replace(JStr(alert.timestamp.value), info)));
      }
      payload := payload.(embed := Some(embed));
    }
    return Success(Post(env.replace(alert.webhookUrl, info), payload));
  }

  /** `pokemon_alert`, `raid_alert`, ...: the post for an event of one kind. */
  function Trigger(a: DiscordAlarm, k: Kind, info: Info, env: Env): Result<Post, SendError>
    requires k in a.alerts
  {
    Send(a.alerts[k], info, env)
  }
}
