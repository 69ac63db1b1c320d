/** The Apprise alarm: the per-kind alert settings it builds from its
    configuration, and the routine that shortens a message to a character
    budget in which every URL counts as a fixed length. */
module AppriseAlarms {
  import opened Results
  import opened Json
  import opened Config
  import opened Text
  import opened AlertKinds

  /** A kind's default title, url and status text. */
  datatype Defaults = Defaults(title: string, url: string, status: string)

  /** The class-level defaults per kind. The `monsters` default also carries
      a `map` dict, which no code path reads and which is therefore left out. */
  function DefaultsOf(k: Kind): (d: Defaults)
    ensures d.url == "<gmaps>"
  {
    var (title, status) := TitleAndStatus(k);
    Defaults(title, "<gmaps>", status)
  }

  /** Per kind: the default title and status. */
  function TitleAndStatus(k: Kind): (string, string) {
    match k
    case Monsters =>
      ("Pokemon Alert!",
       "A wild <mon_name> has appeared! Available until <24h_time> (<time_left>). <gmaps>")
    case Stops =>
      ("Pokemon Alert!",
       "Someone has placed a lure on a Pokestop! Lure will expire at <24h_time> (<time_left>). <gmaps>")
    case Gyms =>
      ("Gym Alert!",
       "A Team <old_team> gym has fallen! It is now controlled by <new_team>. <gmaps>")
    case Eggs =>
      ("Egg Alert!",
       "Level <egg_lvl> raid incoming! Hatches at <24h_hatch_time> (<hatch_time_left>). <gmaps>")
    case Raids =>
      ("Raid Alert!",
       "Raid <raid_lvl> against <mon_name>! Available until <24h_raid_end> (<raid_time_left>). <gmaps>")
    case Weather =>
      ("Weather Alert!", "The weather around <lat>,<lng> has changed to <weather>!")
    case Quests =>
      ("Quest Alert!", "*New quest for <reward>*\n<quest_task>\n<gmaps>")
    case Invasions =>
      ("Invasion Alert!",
       "A Pokestop has been invaded by Team Rocket!\nInvasion will expire at <24h_time> (<time_left>).")
  }

  /** The settings of one kind's alert. `title`, `url` and `status` are kept
      as configured (templates for `replace`); `mapUrl` is the map template. */
  datatype Alert = Alert(title: Json, url: Json, status: Json, mapUrl: Option<string>)

  /** The keys `create_alert_settings` pops; any other key is rejected. */
  const AlertKeys: set<string> := {"map", "use_display_icon", "title", "url", "status"}

  /** The alert's `'map'`: a string is the template itself, anything else
      goes through `get_static_map_url` with the alarm's static map key. */
  function MapOf(m: Json, staticMapUrl: Json -> Option<string>): (r: Option<string>)
    ensures m.JStr? ==> r == Some(m.s)
    ensures !m.JStr? ==> r == staticMapUrl(m)
  {
    if m.JStr? then Some(m.s) else staticMapUrl(m)
  }

  /** `create_alert_settings(settings, default)` for an alarm whose own
      `map` setting is `alarmMap`. The error is the first leftover key. */
  function AlertSettings(e: Entries, d: Defaults, alarmMap: Json, staticMapUrl: Json -> Option<string>): (r: Result<Alert, string>)
    ensures r.Success? <==> forall i :: 0 <= i < |e| ==> e[i].0 in AlertKeys
    ensures r.Failure? ==> r.error !in AlertKeys && FirstUnrecognized(e, AlertKeys) == Some(r.error)
    ensures r.Success? ==>
              && From(e, "title", r.value.title, JStr(d.title))
              && From(e, "url", r.value.url, JStr(d.url))
              && From(e, "status", r.value.status, JStr(d.status))
    ensures r.Success? && Find(e, "map").None? ==> r.value.mapUrl == MapOf(alarmMap, staticMapUrl)
    ensures r.Success? && Find(e, "map").Some? ==> r.value.mapUrl == MapOf(Find(e, "map").value, staticMapUrl)
  {
    var m := PopOr(e, "map", alarmMap);
    var alert := Alert(PopOr(e, "title", JStr(d.title)),
                       PopOr(e, "url", JStr(d.url)),
                       PopOr(e, "status", JStr(d.status)),
                       MapOf(m, staticMapUrl));
    match FirstUnrecognized(e, AlertKeys)
    case Some(key) => Failure(key)
    case None => Success(alert)
  }

  /** `use_display_icon` is accepted but has no effect: whatever value it is
      given, the alert comes out the same. */
  lemma DisplayIconIgnored(e: Entries, i: nat, v: Json, d: Defaults, alarmMap: Json, staticMapUrl: Json -> Option<string>)
    requires i < |e| && e[i].0 == "use_display_icon"
    ensures AlertSettings(e[i := (e[i].0, v)], d, alarmMap, staticMapUrl) == AlertSettings(e, d, alarmMap, staticMapUrl)
  {
    FindOtherKey(e, i, v, "map");
    FindOtherKey(e, i, v, "title");
    FindOtherKey(e, i, v, "url");
    FindOtherKey(e, i, v, "status");
    UnrecognizedIgnoresValues(e, i, v, AlertKeys);
  }

  /** The alert settings of kind `k` in an alarm's settings. */
  function KindAlert(e: Entries, k: Kind, alarmMap: Json, staticMapUrl: Json -> Option<string>): (r: Option<Result<Alert, string>>)
    ensures Find(e, KindKey(k)).None? ==> r == Some(Success(Alert(JStr(DefaultsOf(k).title), JStr(DefaultsOf(k).url),
                                                                  JStr(DefaultsOf(k).status), MapOf(alarmMap, staticMapUrl))))
  {
    match SubSettings(e, k)
    case None => None
    case Some(sub) => Some(AlertSettings(sub, DefaultsOf(k), alarmMap, staticMapUrl))
  }

  // ---------------------------------------------------------------------
  // shorten

  /** What the loop has done after some words: the budget left, the words
      emitted so far (each later written behind a space), and whether it
      has stopped at a URL that did not fit. */
  datatype Scan = Scan(budget: int, emitted: seq<string>, stopped: bool)

  /** One pass of the loop body for word `w` with `limit` left: `None` when
      it breaks, else the word as emitted and the budget after it. */
  function Step(limit: int, w: string, isUrl: bool, urlLength: int): (r: Option<(string, int)>)
    ensures r.None? <==> isUrl && limit <= urlLength
  {
    if isUrl then
      if limit <= urlLength then None
      else Some((w, limit - (urlLength + 1)))
    else if |w| >= limit then
      var wordLen := limit - 1;
      Some((SliceTo(w, wordLen), limit - (wordLen + 1)))
    else Some((w, limit - (|w| + 1)))
  }

  /** The loop's state after one more word: a stopped loop stays as it is. */
  function Advance(s: Scan, w: string, isUrl: bool, urlLength: int): (r: Scan)
    ensures s.stopped ==> r == s
    ensures r.stopped ==> r.emitted == s.emitted && r.budget == s.budget
  {
    if s.stopped then s
    else match Step(s.budget, w, isUrl, urlLength)
      case None => s.(stopped := true)
      case Some((out, budget)) => Scan(budget, s.emitted + [out], false)
  }

  /** The loop run over the first `n` of `words`, starting with budget `limit`. */
  function ScanWords(isUrl: string -> bool, words: seq<string>, n: nat, limit: int, urlLength: int): (r: Scan)
    requires n <= |words|
  {
    if n == 0 then Scan(limit, [], false)
    else Advance(ScanWords(isUrl, words, n - 1, limit, urlLength), words[n - 1], isUrl(words[n - 1]), urlLength)
  }

  /** The words `shorten` emits for `message`. */
  function Emitted(isUrl: string -> bool, message: string, limit: int, urlLength: int): seq<string> {
    var words := SplitWs(message);
    ScanWords(isUrl, words, |words|, limit, urlLength).emitted
  }

  /** `shorten(message, limit, url_length)`, with `isUrl` deciding whether
      the URL pattern matches at the start of a word. */
  function ShortenSpec(isUrl: string -> bool, message: string, limit: int, urlLength: int): string {
    DropFirst(SpaceEach(Emitted(isUrl, message, limit, urlLength)))
  }

  /** The body of `shorten`'s loop for one word: whether it breaks, and
      otherwise the word as emitted and the budget left after it. A URL that
      no longer fits breaks; a URL otherwise costs `urlLength` plus a space;
      a word that does not fit is cut to one character less than the budget. */
  method FitWord(word: string, isUrl: bool, budget: int, urlLength: int) returns (stop: bool, out: string, left: int)
    ensures stop <==> Step(budget, word, isUrl, urlLength).None?
    ensures !stop ==> Step(budget, word, isUrl, urlLength) == Some((out, left))
  {
    out := word;
    var wordLen := |word|;
    if isUrl {
      if budget <= urlLength {
        return true, "", budget;
      }
      wordLen := urlLength;
    } else if wordLen >= budget {
      wordLen := budget - 1;
      out := SliceTo(word, wordLen);
    }
    stop := false;
    left := budget - (wordLen + 1);
  }

  /** The loop of `shorten`: each word through `FitWord`, emitted behind a
      space, until the words run out or a URL no longer fits; then the
      leading space is dropped. */
  method Shorten(isUrl: string -> bool, message: string, limit: int, urlLength: int) returns (r: string)
    ensures r == ShortenSpec(isUrl, message, limit, urlLength)
  {
    var words := SplitWs(message);
    var msg := "";
    var budget := limit;
    ghost var emitted: seq<string> := [];
    var i := 0;
    while i < |words|
      invariant 0 <= i <= |words|
      invariant ScanWords(isUrl, words, i, limit, urlLength) == Scan(budget, emitted, false)
      invariant msg == SpaceEach(emitted)
    {
      var stop, word, left := FitWord(words[i], isUrl(words[i]), budget, urlLength);
      if stop {
        StopIsFinal(isUrl, words, i + 1, |words|, limit, urlLength);
        break;
      }
      ScanOn(isUrl, words, i, limit, urlLength, word, left);
      budget := left;
      emitted := emitted + [word];
      msg := msg + " " + word;
      i := i + 1;
    }
    r := DropFirst(msg);
  }

  /** The loop goes on past word `i` when that word's step emits `out` and
      leaves `budget`. */
  lemma ScanOn(isUrl: string -> bool, words: seq<string>, i: nat, limit: int, urlLength: int, out: string, budget: int)
    requires i < |words| && !ScanWords(isUrl, words, i, limit, urlLength).stopped
    requires Step(ScanWords(isUrl, words, i, limit, urlLength).budget, words[i], isUrl(words[i]), urlLength) == Some((out, budget))
    ensures ScanWords(isUrl, words, i + 1, limit, urlLength)
            == Scan(budget, ScanWords(isUrl, words, i, limit, urlLength).emitted + [out], false)
    ensures SpaceEach(ScanWords(isUrl, words, i, limit, urlLength).emitted + [out])
            == SpaceEach(ScanWords(isUrl, words, i, limit, urlLength).emitted) + " " + out
  {
    var e := ScanWords(isUrl, words, i, limit, urlLength).emitted;
    assert (e + [out])[..|e|] == e;
  }

  /** Once the loop has stopped, later words change nothing. */
  lemma {:induction false} StopIsFinal(isUrl: string -> bool, words: seq<string>, m: nat, n: nat, limit: int, urlLength: int)
    requires m <= n <= |words| && ScanWords(isUrl, words, m, limit, urlLength).stopped
    ensures ScanWords(isUrl, words, n, limit, urlLength) == ScanWords(isUrl, words, m, limit, urlLength)
    decreases n - m
  {
    if m < n {
      StopIsFinal(isUrl, words, m, n - 1, limit, urlLength);
    }
  }

  /** What word `n` does to the loop's state, case by case. */
  lemma NextWord(isUrl: string -> bool, words: seq<string>, n: nat, limit: int, urlLength: int)
    requires n < |words|
    ensures var s := ScanWords(isUrl, words, n, limit, urlLength);
            var next := ScanWords(isUrl, words, n + 1, limit, urlLength);
            var w := words[n];
            && (s.stopped ==> next == s)
            && (!s.stopped && isUrl(w) && s.budget <= urlLength ==>
                  next == s.(stopped := true))
            && (!s.stopped && isUrl(w) && s.budget > urlLength ==>
                  next == Scan(s.budget - urlLength - 1, s.emitted + [w], false))
            && (!s.stopped && !isUrl(w) && |w| < s.budget ==>
                  next == Scan(s.budget - |w| - 1, s.emitted + [w], false))
            && (!s.stopped && !isUrl(w) && 0 < s.budget <= |w| ==>
                  next == Scan(0, s.emitted + [w[..s.budget - 1]], false))
            && (!s.stopped && !isUrl(w) && s.budget == 0 && w != "" ==>
                  next == Scan(0, s.emitted + [w[..|w| - 1]], false))
  {
    var s := ScanWords(isUrl, words, n, limit, urlLength);
    SliceToCases(words[n], s.budget - 1);
  }

  /** With a budget and a URL length that are not negative, the budget never
      goes negative and never grows. */
  lemma {:induction false} BudgetStaysInRange(isUrl: string -> bool, words: seq<string>, n: nat, limit: int, urlLength: int)
    requires n <= |words| && limit >= 0 && urlLength >= 0
    ensures 0 <= ScanWords(isUrl, words, n, limit, urlLength).budget <= limit
  {
    if n > 0 {
      BudgetStaysInRange(isUrl, words, n - 1, limit, urlLength);
    }
  }

  /** Once the budget is used up it stays used up. */
  lemma {:induction false} NoBudgetStaysZero(isUrl: string -> bool, words: seq<string>, m: nat, n: nat, limit: int, urlLength: int)
    requires m <= n <= |words| && urlLength >= 0
    requires ScanWords(isUrl, words, m, limit, urlLength).budget == 0
    ensures ScanWords(isUrl, words, n, limit, urlLength).budget == 0
    decreases n - m
  {
    if m < n {
      NoBudgetStaysZero(isUrl, words, m, n - 1, limit, urlLength);
    }
  }

  /** The result is the emitted words joined by single spaces. */
  lemma ShortenJoins(isUrl: string -> bool, message: string, limit: int, urlLength: int)
    ensures ShortenSpec(isUrl, message, limit, urlLength) == Join(Emitted(isUrl, message, limit, urlLength))
  {
    SpaceEachThenDropFirst(Emitted(isUrl, message, limit, urlLength));
  }

  /** The empty message shortens to the empty string, whatever the budget. */
  lemma ShortenEmpty(isUrl: string -> bool, limit: int, urlLength: int)
    ensures ShortenSpec(isUrl, "", limit, urlLength) == ""
  {
    var s := ScanWords(isUrl, [""], 1, limit, urlLength);
    assert ScanWords(isUrl, [""], 0, limit, urlLength) == Scan(limit, [], false);
    SliceToCases("", limit - 1);
    assert s.emitted == [] || s.emitted == [""];
    ShortenJoins(isUrl, "", limit, urlLength);
  }

  /** A single word with no whitespace that is not a URL and fits in the
      budget comes back unchanged. */
  lemma ShortWordUnchanged(isUrl: string -> bool, w: string, limit: int, urlLength: int)
    requires forall i :: 0 <= i < |w| ==> !IsSpace(w[i])
    requires !isUrl(w) && |w| < limit
    ensures ShortenSpec(isUrl, w, limit, urlLength) == w
  {
    SplitWsNoSpace(w);
    assert ScanWords(isUrl, [w], 0, limit, urlLength) == Scan(limit, [], false);
    assert Emitted(isUrl, w, limit, urlLength) == [w];
    ShortenJoins(isUrl, w, limit, urlLength);
  }

  /** `shorten`'s defaults: a budget of 280 characters, URLs counted as 23. */
  method ShortenDefault(isUrl: string -> bool, message: string) returns (r: string)
    ensures r == ShortenSpec(isUrl, message, 280, 23)
  {
    r := Shorten(isUrl, message, 280, 23);
  }
}
