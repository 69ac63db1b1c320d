# PokeAlarm core, modelled in Dafny

PokeAlarm receives scanner webhooks (monster sightings, raids, ...), turns
each payload into a typed event, runs the event through the user's
filters and sends the alerts that pass to the configured alarms (Discord,
Apprise, ...). This project models the parts of that pipeline that make
decisions:

- **Events** (`mon_event.dfy`, `raid_event.dfy`).
  - The constructors of `MonEvent` and `RaidEvent` read the payload dict. Required fields are converted with `int()` / `float()` and raise when they are missing or malformed. Optional fields fall back to `0` or to an `Unknown` sentinel.
  - Derived fields (IV percentage, PvP league entries, size, boosted weather, raid boss level) are computed only when their inputs are known.
  - `update_with_cache` re-reads the weather and, for raids, the gym slots. Its effect is stated field by field.
  - The decision parts of `generate_dts` are modelled too. The events are classes. Fields the source never reassigns are `const`, and the cache update is framed to the fields it may change.
- **Raid filter** (`raid_filter.dfy`, with `filter_params.dfy` and `config.dfy`).
  - The `RaidFilter` constructor reads one config key per parameter, in the source's order, and raises on the first bad value. It then raises on the first key left over.
  - Each attribute parameter registers a condition: an attribute, a comparison and the limit.
  - `to_dict` reports a subset of the limits under names of its own.
- **Discord alarm** (`discord_alarm.dfy`).
  - Alarm-level settings, and `create_alert_settings` for each of the eight alert kinds. Each alert key is the user's value or the kind's default.
  - The startup message.
  - The post `send_alert` hands to the webhook: the 32-character username cap, the optional embed, and the fields built by the `replace_fields` loop.
- **Apprise alarm** (`apprise_alarm.dfy`).
  - `create_alert_settings`.
  - The `shorten` loop. It spends a character budget word by word, counts every URL as a fixed length, and cuts a word that does not fit.

Supporting modules:
- `unknowns.dfy`: the tri-state `Unknown` sentinel, `Known(v) | Unknown(size)` with the sizes TINY, SMALL and REGULAR.
- `json.dfy`: decoded JSON values and Python's conversions. `int()` of a float truncates toward zero, and decimal strings are parsed.
- `payloads.dfy`: the payload reads (`data[key]`, `data.get(key)`, `check_for_none`).
- `helpers.dfy`: the static data tables, as function-valued parameters.
- `config.dfy`: `dict.pop(key, default)` over ordered config entries, and the leftover-key check.
- `text.dfy`: `strip`, `re.split(r'\s', ...)`, slicing and joining.
- `dts.dfy`: the DTS decision rules.
- `alert_kinds.dfy`: the eight alert kinds.

The static tables, the cache, `parse_boolean`, `get_static_map_url`,
`get_image_url`, the URL pattern and `Alarm.replace` all live outside the
modelled files. They come in as function-valued parameters, so every
statement here holds whatever those helpers do.

## Model

| member | source | states |
|---|---|---|
| MonEvents.MonEvent.constructor | PokeAlarm/Events/MonEvent.py:24-173 | every field read from the payload holds its read's value (`ReadFrom`): `int()`/`float()` of the required keys, `check_for_none` with the source's default for the optional ones, table lookups on those; weather is `check_for_none(int, weather, Unknown.TINY)`; distance, direction, geofence start Unknown and the custom DTS empty; the derived-field rules (`Valid`) hold |
| MonEvents.MonEvent.FromPayload | PokeAlarm/Events/MonEvent.py:24-173 | the constructor raises exactly when some read fails (a missing key, a value `int()`/`float()` rejects, or a `disappear_time` that is not a number of seconds dated in years 1 to 9999), with the exception of the first failing read in source order; otherwise the new event holds every read's value (`ReadFrom`), its initial weather, distance, direction, geofence and custom DTS, and satisfies the derived-field rules |
| MonEvents.MonFailure | PokeAlarm/Events/MonEvent.py:24-168 | no exception exactly when every read succeeds, an out-of-range `disappear_time` (such as milliseconds) failing its read; a payload without 'encounter_id' raises KeyError on it first; a KeyError can only name one of the five subscripted keys |
| MonEvents.MonFieldsFromPayload | PokeAlarm/Events/MonEvent.py:24-52 | in terms of the payload: the five required keys are present and convert to the event's values; form is 0 for null, else `int()` of it; `spawn_verified` reads 'verified', or 'disappear_time_verified' when that key is absent, Unknown.REGULAR for null; `spawnpoint_id` is Unknown.REGULAR for null and the string itself for a string |
| MonEvents.MonCatchRatesFromPayload | PokeAlarm/Events/MonEvent.py:120-131 | each catch rate reads its new key, or the old 'capture_N' key when the new one is absent; Unknown.TINY for null, else `float()` of the value |
| MonEvents.MonStatsFromPayload | PokeAlarm/Events/MonEvent.py:70-173 | grades are Unknown.TINY for null and the string for a string; each IV, height and weight is Unknown for null and `int()`/`float()` of the value otherwise; absent moves give the table's unknown move; gender is the symbol of the read gender id |
| MonEvents.IvOf | PokeAlarm/Events/MonEvent.py:70-87 | `iv` is known iff attack, defense and stamina all are, and is then 100·(a+d+s)/45; otherwise Unknown.SMALL |
| MonEvents.IvInRange | PokeAlarm/Events/MonEvent.py:76-78 | with IVs in 0..15 the percentage lies in [0, 100] |
| MonEvents.IvPerfect | PokeAlarm/Events/MonEvent.py:76-78 | with IVs in 0..15 the percentage is 100 exactly at 15/15/15 |
| MonEvents.PvpOf | PokeAlarm/Events/MonEvent.py:76-99 | with all IVs known the league entries are the PvP table's; otherwise every figure is Unknown and both leagues name the monster itself |
| MonEvents.MissingIvsBlankPvp | PokeAlarm/Events/MonEvent.py:86-99 | on an event with an unknown IV: `iv` and every great/ultra product, cp, level, candy and stardust are Unknown, and great and ultra id are the monster id |
| MonEvents.SizeOf | PokeAlarm/Events/MonEvent.py:142-148 | `size_id` is known iff height and weight both are, and is then the size table's value |
| Helpers.BoostedWeather | PokeAlarm/Events/MonEvent.py:57-62 | boosted weather is Unknown with the weather, the weather itself when it boosts the monster, 0 for any other known weather |
| MonEvents.MonEvent.UpdateWithCache | PokeAlarm/Events/MonEvent.py:175-188 | a cached weather that is known replaces the weather and re-decides the boost; an unknown one changes nothing; only the weather pair may change (frame) and the derived-field rules still hold |
| MonEvents.UpdateKeepsBoostRule | PokeAlarm/Events/MonEvent.py:57-62 | on any valid event, including after an update, boosted weather is Unknown iff the weather is, and otherwise is the weather or 0 |
| MonEvents.MonEvent.SpawnVerifiedDts | PokeAlarm/Events/MonEvent.py:228-230 | `spawn_verified` is known iff the spawn flag is, and true iff it is known and positive |
| MonEvents.MonEvent.SpawnEmojis | PokeAlarm/Events/MonEvent.py:233-238 | the verified emoji shows only for a flag of 1, the unverified one only for 0, never both |
| MonEvents.MonEvent.BoostedOrEmpty | PokeAlarm/Events/MonEvent.py:270-272 | `boosted_or_empty` is the boosted text or empty, and (for a non-empty text) non-empty iff the weather boosts the monster and is not 0 |
| MonEvents.MonEvent.DecidedDts | PokeAlarm/Events/MonEvent.py:204-205 | the built-in decisions laid over the custom DTS: every custom key stays, built-in keys win, and `big_karp`, `tiny_rat` and `boosted_or_empty` follow their rules |
| Dts.MergeDts | PokeAlarm/Events/MonEvent.py:204-205 | the DTS has every key of the custom and the built-in map, the built-in value winning on a clash |
| Dts.Positive | PokeAlarm/Events/RaidEvent.py:287-292 | a flag read from a number: known iff the number is, true iff known and positive, Unknown.REGULAR otherwise |
| Dts.EmojiIfEquals | PokeAlarm/Events/MonEvent.py:233-238 | the text is non-empty only for that exact known value, and is the emoji then |
| Dts.BoostedWeatherOrEmpty | PokeAlarm/Events/MonEvent.py:265-267 | empty when the boosted weather is 0, otherwise the weather name or empty when that is unknown |
| Dts.MonBoostedOrEmpty | PokeAlarm/Events/MonEvent.py:270-272 | the boosted text exactly when the boosted weather is known and not 0 |
| Dts.RaidBoostedOrEmpty | PokeAlarm/Events/RaidEvent.py:242-243 | the boosted text exactly when the boss level is 25 |
| Dts.TypesText | PokeAlarm/Events/MonEvent.py:366-368 | both type names joined by '/' when the second is known, else the first alone |
| Dts.BigKarp | PokeAlarm/Events/MonEvent.py:503-505 | 'big' iff monster 129 with a known weight of at least 13.13, else '' |
| Dts.TinyRat | PokeAlarm/Events/MonEvent.py:506-508 | 'tiny' iff monster 19 with a known weight of at most 2.41, else '' |
| RaidEvents.RaidEvent.constructor | PokeAlarm/Events/RaidEvent.py:20-107 | every field read from the payload holds its read's value (`ReadFrom`), including the stripped gym name and description, url, park, sponsor, `is_ex_raid_eligible` and team; weather is `check_for_none(int, weather, Unknown.TINY)`; boss level is 25 iff the payload weather boosts the boss; slots and guard count start Unknown |
| RaidEvents.RaidEvent.FromPayload | PokeAlarm/Events/RaidEvent.py:20-107 | the constructor raises exactly when some read fails (including an end time that is not a number of seconds dated in years 1 to 9999), with the first failing read's exception; otherwise the raid holds every read's value (`ReadFrom`) and its initial weather, slots, guard count, distance, direction, geofence and custom DTS, and satisfies its rules |
| RaidEvents.RaidFailure | PokeAlarm/Events/RaidEvent.py:20-103 | no exception exactly when every read succeeds, an out-of-range end time failing its read; with a readable end time, a payload without 'latitude' raises KeyError on it; a KeyError can only name one of the five subscripted keys |
| RaidEvents.RaidFieldsFromPayload | PokeAlarm/Events/RaidEvent.py:20-107 | in terms of the payload: gym id is `data.get('gym_id')` and the name is it; the end time is read from 'end' or, when falsy, 'raid_end'; the five subscripted keys are present and convert; form, evolution and costume are 0 for null, else `int()`; sponsor (TINY), `is_ex_raid_eligible`, park and url (REGULAR) are Unknown for null and the value otherwise; gym name and description are stripped strings; the team reads 'team_id' or, when absent, 'team' |
| RaidEvents.Fallbacks | PokeAlarm/Events/RaidEvent.py:29-30 | the end time is read from 'end' when that is truthy and from 'raid_end' otherwise; the team from 'team_id' when present, else from 'team' |
| RaidEvents.StripKnown | PokeAlarm/Events/RaidEvent.py:85-88 | a known gym name or description is stripped of surrounding whitespace; a sentinel stays as it is |
| RaidEvents.GuardCount | PokeAlarm/Events/RaidEvent.py:126-129 | guard count is 6 less the free slots when those are known, else Unknown.TINY |
| RaidEvents.RaidEvent.UpdateWithCache | PokeAlarm/Events/RaidEvent.py:109-129 | boss level never drops; a known cached weather replaces the weather and re-decides the boost, a non-boosting one setting boosted weather to 0 while boss level stays; slots become the cached slots and guard count follows them; only those five fields may change |
| RaidEvents.RaidBoostRule | PokeAlarm/Events/RaidEvent.py:58-64 | on a valid raid boosted weather is Unknown iff the weather is, is the weather or 0 otherwise, and a non-zero boosted weather means boss level 25 |
| RaidEvents.RaidEvent.BoostedOrEmpty | PokeAlarm/Events/RaidEvent.py:242-243 | the boosted text or empty; the text whenever the weather boosts the boss, and (for a non-empty text) non-empty iff boss level is 25 |
| RaidEvents.RaidEvent.Sponsored | PokeAlarm/Events/RaidEvent.py:287-289 | `sponsored` is known iff the sponsor is, true iff known and positive, Unknown.REGULAR otherwise |
| RaidEvents.RaidEvent.ExEligibleDts | PokeAlarm/Events/RaidEvent.py:290-292 | `ex_eligible` is known iff the flag is, true iff known and positive, Unknown.REGULAR otherwise |
| FilterParams.ParseSet | PokeAlarm/Filters/RaidFilter.py:22-23 | unset for null; for a list, fails iff some item fails to convert, and the set holds exactly the converted items; anything else fails |
| FilterParams.ParseList | PokeAlarm/Filters/RaidFilter.py:35-36 | unset for null; for a list, fails iff some item fails to convert, and keeps every converted item in order; anything else fails |
| FilterParams.ParseType | PokeAlarm/Filters/RaidFilter.py:41 | unset for null, else succeeds iff the conversion accepts the value, holding its result |
| RaidFilters.ParseParam | PokeAlarm/Filters/RaidFilter.py:15-173 | every parameter except `custom_dts` is unset when its value is null; `custom_dts` always yields a string map |
| RaidFilters.ReadParamsSucceeds | PokeAlarm/Filters/RaidFilter.py:15-173 | reading the parameters succeeds exactly when every reader accepts its value |
| RaidFilters.ReadParamsLimits | PokeAlarm/Filters/RaidFilter.py:15-173 | after a successful read each limit held is what its reader made of the config, and exactly the set parameters hold one |
| RaidFilters.ReadParamsFails | PokeAlarm/Filters/RaidFilter.py:15-173 | a failed read reports the key of the first reader that raised, all earlier readers having succeeded |
| RaidFilters.BuildSpec | PokeAlarm/Filters/RaidFilter.py:15-178 | construction succeeds iff every reader accepts its value and no key is left over; the filter then holds exactly the set limits, each as read |
| RaidFilters.Build | PokeAlarm/Filters/RaidFilter.py:15-178 | a built filter keeps its name, holds each limit as its reader made it, and saw only recognised keys; a bad parameter names a parameter whose reader raised; an unrecognised key comes only after all readers succeeded and is the first leftover key |
| RaidFilters.ReadAll | PokeAlarm/Filters/RaidFilter.py:15-173 | the reading loop stops at the first reader that raises and otherwise collects the set limits, as the declarative reading does |
| RaidFilters.Create | PokeAlarm/Filters/RaidFilter.py:15-178 | the constructor equals the declarative build; it succeeds only when every config key is recognised and otherwise names an unrecognised key |
| Config.FirstUnrecognized | PokeAlarm/Filters/RaidFilter.py:175-178 | no key is reported iff every key is recognised; a reported key is unrecognised |
| Config.FirstUnrecognizedIsFirst | PokeAlarm/Filters/RaidFilter.py:175-178 | the reported key is the first entry whose key is not recognised: every entry before it is recognised |
| Config.Leftover | PokeAlarm/Filters/RaidFilter.py:176-178 | the keys the loop walks are all unrecognised, empty iff none is, and begin with the one reported |
| Config.CheckLeftover | PokeAlarm/Filters/RaidFilter.py:176-178 | the leftover loop returns the first unrecognised key, or none |
| Config.Find | PokeAlarm/Alarms/Discord/DiscordAlarm.py:121-122 | a key is found iff some entry has it, and then with that entry's value |
| Config.PopOr | PokeAlarm/Alarms/Discord/DiscordAlarm.py:126-134 | `pop(key, default)` gives the entry's value when the key is present and the default otherwise |
| RaidFilters.ConditionsOfComplete | PokeAlarm/Filters/RaidFilter.py:20-153 | every attribute parameter of the table has its condition, with the filter's limit, in the condition table |
| RaidFilters.Registers | PokeAlarm/Filters/RaidFilter.py:20-153 | exactly the geofence, time-window, custom DTS and missing-info parameters register no condition; exactly the min_* parameters compare by `limit <= value` and the max_* ones by `limit >= value`, and only on distance, time left, raid level and cp |
| RaidFilters.Holds | PokeAlarm/Filters/RaidFilter.py:20-153 | an order comparison holds only between numbers, an inclusion only between a set and a value of its kind, a pattern test only on a string; on integers min and max bounds are inclusive; an exclude-pattern test holds iff no pattern matches |
| RaidFilters.Attribute | PokeAlarm/Filters/RaidFilter.py:20-153 | only the attributes read with `check_for_none` or set later (distance, gender, moves, gym name, sponsor, park, ex eligibility, team, weather) can be unknown; distance and weather are known iff the raid's are; raid level is the raid's level |
| RaidFilters.Evaluate | PokeAlarm/Filters/RaidFilter.py:20-153 | a condition without a limit passes; one whose attribute is unknown counts as missing; otherwise it passes iff its comparison holds |
| RaidFilters.Passes | PokeAlarm/Filters/RaidFilter.py:172-173 | without `is_missing_info` a raid passes iff no condition fails, a condition on an unknown attribute not failing; with `is_missing_info` False it passes iff every condition passes; with True, a passing raid lacked some limited attribute |
| RaidFilters.PassesMeetsLimits | PokeAlarm/Filters/RaidFilter.py:20-153 | a raid that passes meets every limit set on an attribute it knows |
| RaidFilters.PassingMeetsKnownLimits | PokeAlarm/Filters/RaidFilter.py:20-153 | a raid that passes meets all known-attribute limits at once |
| RaidFilters.MeetingLimitsPasses | PokeAlarm/Filters/RaidFilter.py:20-153 | conversely, a raid with every limited attribute known that meets every limit passes (when missing info is not asked for) |
| RaidFilters.LevelAndCpBounds | PokeAlarm/Filters/RaidFilter.py:57-62 | raid level and cp bounds are inclusive: min ≤ value ≤ max |
| RaidFilters.TimeAndDistanceBounds | PokeAlarm/Filters/RaidFilter.py:39-54 | time left and (known) distance bounds are inclusive |
| RaidFilters.IncludeExcludeSets | PokeAlarm/Filters/RaidFilter.py:20-30 | include sets for monsters, forms and costumes hold the raid's value and exclude sets do not |
| RaidFilters.FlagConditions | PokeAlarm/Filters/RaidFilter.py:128-142 | `sponsored` equals `sponsor_id > 0`; `can_be_shiny` and `is_ex_eligible` compare by equality |
| RaidFilters.GymNamePatterns | PokeAlarm/Filters/RaidFilter.py:117-125 | a known gym name matches some include pattern and no exclude pattern |
| RaidFilters.ExportFrom | PokeAlarm/Filters/RaidFilter.py:180-244 | a name is in the dict iff some insert reports it with its limit set, and then holds that limit |
| RaidFilters.ToDict | PokeAlarm/Filters/RaidFilter.py:180-244 | every exported limit that is set is reported under its name, and every reported name is an export name whose limit is set |
| RaidFilters.ToDictOmits | PokeAlarm/Filters/RaidFilter.py:180-244 | setting, changing or dropping the exclude-monster, time-left, cp, costume, move, team or ex-eligible limits leaves `to_dict` unchanged |
| RaidFilters.ToDictNotReadable | PokeAlarm/Filters/RaidFilter.py:184-201 | monster and raid-level limits are reported as 'monster_ids', 'min_lvl' and 'max_lvl' |
| RaidFilters.ExportNamesUnrecognized | PokeAlarm/Filters/RaidFilter.py:175-178 | those names are not recognised by the constructor, so `to_dict` is not an inverse of construction |
| RaidFilters.KeysDifferFromExportNames | PokeAlarm/Filters/RaidFilter.py:22-23 | no parameter is read under 'monster_ids', 'min_lvl' or 'max_lvl' |
| AlertKinds.SubSettings | PokeAlarm/Alarms/Discord/DiscordAlarm.py:137-152 | an absent kind key gives empty alert settings; a present one gives its dict, and a non-dict value cannot be read |
| DiscordAlarms.VariantsOf | PokeAlarm/Alarms/Discord/DiscordAlarm.py:23-115 | only the monster defaults have display variants; gyms, weather and quests have no default footer timestamp |
| DiscordAlarms.TextsOf | PokeAlarm/Alarms/Discord/DiscordAlarm.py:23-115 | every kind's default url is '<gmaps>', its content empty, and its icon and avatar the same image, the one `get_image_url` gives for the kind's image path |
| DiscordAlarms.SettingsOf | PokeAlarm/Alarms/Discord/DiscordAlarm.py:126-134 | each alarm-level setting is the user's value or its default ("True", "", "False", "", {}, False) |
| DiscordAlarms.Init | PokeAlarm/Alarms/Discord/DiscordAlarm.py:118-157 | succeeds iff webhook_url is present, every kind's alert is built and no alarm-level key is left over; without webhook_url it fails with that error; an alert error is the error of building the alerts; a leftover key is the first unrecognised one; a built alarm holds the settings and alerts so read |
| DiscordAlarms.AlertsOfSpec | PokeAlarm/Alarms/Discord/DiscordAlarm.py:137-152 | the alerts are built iff every kind's alert is, each is that kind's alert, and a failure is the first kind's error |
| DiscordAlarms.AlertsCoverKinds | PokeAlarm/Alarms/Discord/DiscordAlarm.py:137-152 | a built alarm has an alert for every kind |
| DiscordAlarms.InitDefaults | PokeAlarm/Alarms/Discord/DiscordAlarm.py:126-130 | without the keys, `startup_message` is true and `disable_embed` false |
| DiscordAlarms.AlertSettings | PokeAlarm/Alarms/Discord/DiscordAlarm.py:180-214 | each alert key is the user's value or the kind's default; avatar and icon default to the display variant iff its flag is set, raising when the kind has none; map and timestamp decisions; leftover alert keys rejected with the first one |
| DiscordAlarms.AlertInherits | PokeAlarm/Alarms/Discord/DiscordAlarm.py:186-193 | without the keys, an alert inherits the alarm's webhook url and `disable_embed` |
| DiscordAlarms.DisplayOnlyForMonsters | PokeAlarm/Alarms/Discord/DiscordAlarm.py:188-198 | for any kind but monsters a set display flag makes the alert fail |
| DiscordAlarms.MapOf | PokeAlarm/Alarms/Discord/DiscordAlarm.py:203-204 | a string map is the template itself; anything else goes through the static map helper |
| DiscordAlarms.TimestampOf | PokeAlarm/Alarms/Discord/DiscordAlarm.py:207-211 | a string is used as is, True takes the kind's default when there is one, anything else sets no timestamp |
| DiscordAlarms.Startup | PokeAlarm/Alarms/Discord/DiscordAlarm.py:164-177 | a post only when the flag is true, as 'PokeAlarm' to the webhook; content is 'PokeAlarm activated!' for an empty text, otherwise the text |
| DiscordAlarms.FieldItems | PokeAlarm/Alarms/Discord/DiscordAlarm.py:311 | the loop walks a list's items, a string's characters or a dict's keys; anything else cannot be iterated |
| DiscordAlarms.FieldOf | PokeAlarm/Alarms/Discord/DiscordAlarm.py:312-316 | a field needs 'name' and 'value', both replaced; 'inline' is copied or False |
| DiscordAlarms.FieldsOf | PokeAlarm/Alarms/Discord/DiscordAlarm.py:309-317 | one entry per field, in order, each the conversion of that field; otherwise the first failing field's error |
| DiscordAlarms.ReplaceFields | PokeAlarm/Alarms/Discord/DiscordAlarm.py:309-317 | the append loop gives exactly `FieldsOf` of the fields |
| DiscordAlarms.FailureStays | PokeAlarm/Alarms/Discord/DiscordAlarm.py:311-316 | once a prefix of the fields fails, the whole list fails the same way |
| DiscordAlarms.Send | PokeAlarm/Alarms/Discord/DiscordAlarm.py:217-256 | the post goes to the replaced webhook url; username is the replaced username cut to 32 characters, content and avatar the replaced ones; the embed is present iff `disable_embed` is False, with the replaced title, url, body and icon, the converted fields, the replaced map url as image iff there is a map and the replaced timestamp iff there is one; a field error is returned as is; with a map, a missing 'lat' or 'lng' fails with that key |
| DiscordAlarms.SendAlert | PokeAlarm/Alarms/Discord/DiscordAlarm.py:217-256 | the step-by-step payload assembly gives exactly `Send` |
| AppriseAlarms.AlertSettings | PokeAlarm/Alarms/Apprise/AppriseAlarm.py:132-143 | title, url and status are the user's value or the kind default; the map is the user's or the alarm's; succeeds iff every key is recognised, else names the first leftover key |
| AppriseAlarms.DefaultsOf | PokeAlarm/Alarms/Apprise/AppriseAlarm.py:32-85 | every kind's default url is '<gmaps>' |
| AppriseAlarms.DisplayIconIgnored | PokeAlarm/Alarms/Apprise/AppriseAlarm.py:134 | the value of `use_display_icon` has no effect on the alert |
| AppriseAlarms.KindAlert | PokeAlarm/Alarms/Apprise/AppriseAlarm.py:100-115 | a kind without settings gets its defaults and the alarm's map |
| AppriseAlarms.Step | PokeAlarm/Alarms/Apprise/AppriseAlarm.py:149-157 | the loop breaks exactly on a URL when the budget is at most the URL length |
| AppriseAlarms.Advance | PokeAlarm/Alarms/Apprise/AppriseAlarm.py:148-158 | a stopped loop stays as it is; stopping keeps the words and the budget |
| AppriseAlarms.FitWord | PokeAlarm/Alarms/Apprise/AppriseAlarm.py:149-157 | the loop body: it breaks iff the step does, and otherwise yields the step's word and budget |
| AppriseAlarms.Shorten | PokeAlarm/Alarms/Apprise/AppriseAlarm.py:146-160 | the loop over the split message gives the emitted words, each behind a space, with the first character dropped |
| AppriseAlarms.ShortenDefault | PokeAlarm/Alarms/Apprise/AppriseAlarm.py:146 | the default budget is 280 with URLs counted as 23 |
| AppriseAlarms.NextWord | PokeAlarm/Alarms/Apprise/AppriseAlarm.py:149-158 | a short word is emitted unchanged and costs its length plus 1; a longer one is cut to budget−1 characters and leaves 0; a URL costs url_length+1 or stops the loop; at budget 0 a word loses its last character |
| AppriseAlarms.StopIsFinal | PokeAlarm/Alarms/Apprise/AppriseAlarm.py:151-152 | once a URL has stopped the loop no later word is emitted |
| AppriseAlarms.ScanOn | PokeAlarm/Alarms/Apprise/AppriseAlarm.py:157-158 | a word that does not stop the loop is appended behind a space and sets the new budget |
| AppriseAlarms.BudgetStaysInRange | PokeAlarm/Alarms/Apprise/AppriseAlarm.py:146-158 | with limit ≥ 0 and url_length ≥ 0 the budget stays between 0 and the limit |
| AppriseAlarms.NoBudgetStaysZero | PokeAlarm/Alarms/Apprise/AppriseAlarm.py:154-157 | once the budget is 0 it stays 0 |
| AppriseAlarms.ShortenJoins | PokeAlarm/Alarms/Apprise/AppriseAlarm.py:147-160 | the result is the emitted words joined by single spaces |
| AppriseAlarms.ShortenEmpty | PokeAlarm/Alarms/Apprise/AppriseAlarm.py:147-160 | the empty message shortens to '' whatever the budget |
| AppriseAlarms.ShortWordUnchanged | PokeAlarm/Alarms/Apprise/AppriseAlarm.py:154-158 | a single non-URL word without whitespace that fits the budget comes back unchanged |
| Text.SplitWsPieces | PokeAlarm/Alarms/Apprise/AppriseAlarm.py:148 | no piece of the split holds whitespace |
| Text.Take | PokeAlarm/Alarms/Discord/DiscordAlarm.py:221 | `s[:n]` is the prefix of `s` of length min(|s|, n), the whole string when it is short enough |
| Text.Strip | PokeAlarm/Events/RaidEvent.py:85-88 | `strip()` removes the whitespace at both ends and nothing else |
| Json.TimestampOf | PokeAlarm/Events/MonEvent.py:34 | `datetime.utcfromtimestamp` accepts exactly the numbers whose date lies in years 1 to 9999 after rounding to microseconds; a string or None is rejected |
| Json.TimestampOfNumber | PokeAlarm/Events/RaidEvent.py:29-30 | an accepted number is read as itself (True and False as 1 and 0), every accepted timestamp is in range, and a non-number is never accepted |
| Json.MillisecondTimestampRaises | PokeAlarm/Events/MonEvent.py:34 | a timestamp in seconds is read, while the same instant in milliseconds lies past year 9999 and raises |
| Json.TruncateToZero | PokeAlarm/Events/MonEvent.py:31 | `int()` of a float truncates toward zero |

## Left out

- Network delivery is not modelled: `requests.post` in `send_webhook`, `try_sending` and its retries, Apprise's `notify`, `send_tweet` and logging. A Discord post is the value that would be handed to `send_webhook`.
- Apprise `send_alert`, `startup_message` and `connect` are not modelled. They are delivery glue. `send_alert` also tests the builtin `map` instead of the alert's map.
- The Apprise `__init__` is not modelled as a whole. Its per-kind alert settings are `KindAlert`. Its alarm-level keys and leftover check work as Discord's do, and `Config.FirstUnrecognized` states that check.
- The alert trigger methods (`pokemon_alert`, `raid_alert`, ...) are `DiscordAlarms.Trigger`. It only selects the kind's alert for `Send` and carries no contract of its own.
- The clock is not modelled. `get_seconds_remaining` is a table parameter, and `raid_end`/`disappear_time` are kept as seconds since the epoch rather than `datetime` values. The range a `datetime` can hold is kept: `Json.TimestampOf` rejects timestamps outside years 1 to 9999.
- Time formatting, locale names, emoji and URL building (map links, PvP links) are not modelled. `generate_dts` is modelled only in its decision entries.
- `Alarm.replace`, `parse_boolean`, `get_image_url` and `get_static_map_url` are parameters, as is the URL pattern used by `shorten` (`isUrl`). Nothing is assumed about them except in lemmas that say so (`ReadsBooleans`).
- The static tables are parameters. These are `is_weather_boosted`, the PvP, size, type, move, shiny and gender helpers, the cached weather and the cached gym slots. `Boosts` reads an unknown weather as boosting nothing.
- `BaseFilter` is not part of this model.
  - Its conversion helpers (`parse_as_type`, `parse_as_set`, `parse_as_list`, `parse_as_time`, `parse_as_dict`) are modelled as converting the popped value item by item, with `null` meaning unset.
  - Condition evaluation is modelled as: an unset limit passes, an unknown attribute counts as missing, and otherwise the registered comparison decides. Geofence and time-window evaluation are left out.
- `RaidFilters.Passes`: the missing-info rule is modelled after `BaseFilter.check_event`, which is not part of this model. A condition whose attribute is unknown does not fail; it only marks the raid as missing information. So with `is_missing_info` unset, a raid of unknown distance passes a `min_dist` filter. With `is_missing_info` set, the raid passes only when "some condition lacked its attribute" equals the flag. Evaluation is fail-closed only under `is_missing_info: False`, not for every filter.
- `GymUtils.match_regex_dict` / `create_regex` are a `matches` parameter. Pattern syntax is not modelled.
- `Unknown` sentinels are a tagged value. The source's sentinels are the strings '?', '???' and 'unknown', so a payload string equal to one of them would also read as unknown there. The model does not capture that.
- Floats are exact reals: there is no rounding and no NaN or infinity.
- `str()` of floats, lists and dicts is a `repr` parameter.
- `Json.TimestampOf`: `utcfromtimestamp` may also raise OSError on platforms whose `gmtime` rejects negative or very large values. That platform-dependent error is not modelled; the model accepts the whole of years 1 to 9999.
- `IsSpace` is the ASCII whitespace set. Python's `\s` and `strip()` also match other Unicode whitespace.
- `dict.pop` is modelled as a lookup in the original config entries, plus a leftover check over the keys no pop names. The dict's in-place emptying is not modelled. This is equivalent here because every popped key is a distinct literal.
- The Apprise monsters default's `map` entry is read by no code path and is left out.
- Config dicts are ordered entry lists. A key repeated in one decoded object is looked up at its first entry, whereas JSON decoding keeps the last one. That case is not modelled.
- `AppriseAlarms.BudgetStaysInRange`: proved only for `limit >= 0` and `url_length >= 0`, the range in which the source's claim holds. There is no bound on the length of the result, since at budget 0 each further word is still emitted less its last character.
- `Json.ParseInt` / `Json.ParseDecimal`: Python's `int(s)` and `float(s)` also accept surrounding whitespace, underscores between digits and non-ASCII digits, and `float` also exponents, 'inf' and 'nan'. The model accepts only an optional sign and ASCII digits (with one decimal point for `float`), so a payload string in one of those other forms reads as a conversion error here.
