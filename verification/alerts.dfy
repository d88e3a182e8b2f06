/** The two alert routes: the Notion webhook, which echoes the URL
    verification challenge and turns a page update into up to three
    coaching alerts for Discord, and the coaching-alerts endpoint, which
    builds an alert list from a posted game. Sending to Discord is left to
    a flag saying whether the webhook URL is set. */
module Alerts {

  import opened Options
  import opened Text
  import opened RiotTypes
  import opened NotionStore
  import RiotWebhook

  /** JavaScript `n > k` and `n <= k` for a parsed integer: NaN compares
      false either way. */
  predicate JsGt(n: JsInt, k: int) { n.Num? && n.value > k }

  predicate JsLe(n: JsInt, k: int) { n.Num? && n.value <= k }

  /** The fields of the Notion webhook body the route reads. */
  datatype NotionBody = NotionBody(
    kind: Option<string>,
    challenge: Option<string>,
    event: Option<string>,
    properties: Option<Props>)

  datatype Alert = DeathAlert | PickAlert | WinAlert

  datatype Handled =
    | Verification(challenge: Option<string>)
    | GameProcessed(champion: Option<string>, kda: Option<string>, result: Option<string>,
                    deaths: JsInt, alerts: seq<Alert>, sent: seq<Alert>, alertsSent: bool)
    | OtherType(kind: Option<string>)

  /** The game fields, read with optional chaining from possibly missing
      properties. */
  function ChampionOf(ps: Option<Props>): Option<string>
  {
    if ps.Some? then RichTextOf(ps.value, "champion") else None
  }

  function KdaOf(ps: Option<Props>): Option<string>
  {
    if ps.Some? then RichTextOf(ps.value, "kda") else None
  }

  function ResultOf(ps: Option<Props>): Option<string>
  {
    if ps.Some? then SelectName(ps.value, "result") else None
  }

  predicate Experimental(champion: Option<string>)
  {
    champion == Some("Karthus") || champion == Some("Nocturne")
  }

  /** The three rules, in the order the route applies them. */
  function AlertsFor(champion: Option<string>, result: Option<string>, deaths: JsInt): (r: seq<Alert>)
    ensures |r| <= 3
    ensures DeathAlert in r <==> JsGt(deaths, 10)
    ensures PickAlert in r <==> Experimental(champion)
    ensures WinAlert in r <==> JsLe(deaths, 3) && result == Some("WIN")
    ensures r == [] <==> !JsGt(deaths, 10) && !Experimental(champion) && !(JsLe(deaths, 3) && result == Some("WIN"))
    ensures forall i, j :: 0 <= i < j < |r| ==> AlertRank(r[i]) < AlertRank(r[j])
  {
    (if JsGt(deaths, 10) then [DeathAlert] else [])
    + (if Experimental(champion) then [PickAlert] else [])
    + (if JsLe(deaths, 3) && result == Some("WIN") then [WinAlert] else [])
  }

  function AlertRank(a: Alert): nat
  {
    match a
    case DeathAlert => 0
    case PickAlert => 1
    case WinAlert => 2
  }

  /** The webhook's `POST`: echo the challenge of a URL verification; for a
      page update, read the game, fire the alerts (sent only when Discord is
      configured) and report `alerts_sent` as the disjunction of the three
      conditions; report any other type back. */
  function NotionWebhook(body: NotionBody, discord: bool): (r: Handled)
    ensures body.kind == Some("url_verification") <==> r.Verification?
    ensures r.Verification? ==> r.challenge == body.challenge
    ensures r.GameProcessed? <==> body.kind == Some("page") && body.event == Some("updated")
    ensures r.OtherType? ==> r.kind == body.kind
    ensures r.GameProcessed? ==>
      r.champion == ChampionOf(body.properties) && r.result == ResultOf(body.properties)
      && r.deaths == KdaDeaths(KdaOf(body.properties))
      && r.alerts == AlertsFor(r.champion, r.result, r.deaths)
      && (r.alertsSent <==> |r.alerts| > 0)
      && r.sent == (if discord then r.alerts else [])
  {
    if body.kind == Some("url_verification") then Verification(body.challenge)
    else if body.kind == Some("page") && body.event == Some("updated") then
      var champion := ChampionOf(body.properties);
      var kda := KdaOf(body.properties);
      var result := ResultOf(body.properties);
      var deaths := KdaDeaths(kda);
      var alerts := AlertsFor(champion, result, deaths);
      GameProcessed(champion, kda, result, deaths, alerts, if discord then alerts else [],
                    JsGt(deaths, 10) || Experimental(champion) || (JsLe(deaths, 3) && result == Some("WIN")))
    else OtherType(body.kind)
  }

  /** A page update with no properties at all reads as zero deaths and
      fires no alert but nothing else either. */
  lemma EmptyUpdateFiresNothing(body: NotionBody, discord: bool)
    requires body.kind == Some("page") && body.event == Some("updated") && body.properties.None?
    ensures var r := NotionWebhook(body, discord);
      r.GameProcessed? && r.deaths == Num(0) && r.alerts == [] && !r.alertsSent
  {
    KdaDeathsAbsent();
    QuietGameFiresNothing();
    var ps := body.properties;
    assert ChampionOf(ps) == None && KdaOf(ps) == None && ResultOf(ps) == None;
  }

  /** A game with no champion, no result and zero deaths fires nothing. */
  lemma QuietGameFiresNothing()
    ensures AlertsFor(None, None, Num(0)) == []
  {
    assert !Experimental(None);
  }

  /** As written, the excellent-game rule compares the result with "WIN",
      but the pages the routes write hold the option "Win", so a won game
      with few deaths stored by them never fires it. */
  lemma ExcellentNeverForStoredWin(ps: Props, r: GameResult, discord: bool)
    requires "result" in ps && ps["result"] == Select(Some(ResultSelect(r)))
    ensures var h := NotionWebhook(NotionBody(Some("page"), None, Some("updated"), Some(ps)), discord);
      WinAlert !in h.alerts
  {
    ResultSelectRoundTrip(r);
  }

  /** A concrete page: a Kindred win at 2/1/8 stored with the option "Win"
      fires no alert at all. */
  lemma ExcellentMissedExample(body: NotionBody)
    requires body.kind == Some("page") && body.event == Some("updated")
    requires body.properties == Some(map["champion" := RichProp("Kindred"), "kda" := RichProp("2/1/8"),
                                         "result" := Select(Some(ResultSelect(Win)))])
    ensures NotionWebhook(body, true).alerts == []
  {
    ExampleFields(body.properties.value);
    ExampleDeaths();
    KindredWinFiresNothing();
  }

  /** The fields the route reads from the example page. */
  lemma ExampleFields(ps: Props)
    requires ps == map["champion" := RichProp("Kindred"), "kda" := RichProp("2/1/8"),
                       "result" := Select(Some(ResultSelect(Win)))]
    ensures ChampionOf(Some(ps)) == Some("Kindred")
    ensures KdaOf(Some(ps)) == Some("2/1/8")
    ensures ResultOf(Some(ps)) == Some("Win")
  {
    assert "champion" in ps && ps["champion"] == RichProp("Kindred");
    assert "kda" in ps && ps["kda"] == RichProp("2/1/8");
    assert "result" in ps && ps["result"] == Select(Some("Win"));
  }

  /** The example's kda text reads back as one death. */
  lemma ExampleDeaths()
    ensures KdaDeaths(Some("2/1/8")) == Num(1)
  {
    assert KdaText(2, 1, 8) == "2/1/8" by {
      assert NatToString(2) == "2" && NatToString(1) == "1" && NatToString(8) == "8";
    }
    KdaDeathsRoundTrip(2, 1, 8);
  }

  /** The alert rules for a Kindred game stored as "Win" with one death. */
  lemma KindredWinFiresNothing()
    ensures AlertsFor(Some("Kindred"), Some("Win"), Num(1)) == []
  {
    assert !Experimental(Some("Kindred"));
  }

  /** The intended rules: a win is the stored select option "Win". */
  function AlertsForStored(champion: Option<string>, result: Option<string>, deaths: JsInt): (r: seq<Alert>)
    ensures DeathAlert in r <==> JsGt(deaths, 10)
    ensures PickAlert in r <==> Experimental(champion)
    ensures WinAlert in r <==> JsLe(deaths, 3) && ResultFromSelect(result) == Win
  {
    (if JsGt(deaths, 10) then [DeathAlert] else [])
    + (if Experimental(champion) then [PickAlert] else [])
    + (if JsLe(deaths, 3) && ResultFromSelect(result) == Win then [WinAlert] else [])
  }

  /** With the intended rule, a page the riot-webhook route stored for a
      won game with at most three deaths fires the excellent alert. */
  lemma ExcellentForStoredWin(g: JungleGame, dayOf: int -> string)
    requires g.result == Win && g.deaths <= 3
    requires g.kda == KdaText(g.kills, g.deaths, g.assists)
    ensures var ps := RiotWebhook.MatchProps(g, dayOf);
      WinAlert in AlertsForStored(RichTextOf(ps, "champion"), SelectName(ps, "result"),
                                  KdaDeaths(RichTextOf(ps, "kda")))
  {
    RiotWebhook.MatchPropsFields(g, dayOf);
    KdaDeathsRoundTrip(g.kills, g.deaths, g.assists);
    ResultSelectRoundTrip(g.result);
  }

  /** A posted `deaths` value: a JSON number, null, or missing. Relational
      comparisons treat null as 0 and a missing value as NaN. */
  datatype Posted = JsonNumber(n: real) | JsonNull | Absent

  predicate PostedGt(d: Posted, k: real)
  {
    match d
    case JsonNumber(n) => n > k
    case JsonNull => 0.0 > k
    case Absent => false
  }

  predicate PostedLe(d: Posted, k: real)
  {
    match d
    case JsonNumber(n) => n <= k
    case JsonNull => 0.0 <= k
    case Absent => false
  }

  datatype AlertType = Critical | Warning | Success

  function TypeRank(a: AlertType): nat
  {
    match a
    case Critical => 0
    case Warning => 1
    case Success => 2
  }

  /** The coaching-alerts `POST`: critical above ten deaths, a warning for
      Karthus only, success at three deaths or fewer whatever the result;
      in that order. */
  function CoachingAlerts(deaths: Posted, champion: Option<string>): (r: seq<AlertType>)
    ensures |r| <= 3
    ensures Critical in r <==> PostedGt(deaths, 10.0)
    ensures Warning in r <==> champion == Some("Karthus")
    ensures Success in r <==> PostedLe(deaths, 3.0)
    ensures forall i, j :: 0 <= i < j < |r| ==> TypeRank(r[i]) < TypeRank(r[j])
  {
    (if PostedGt(deaths, 10.0) then [Critical] else [])
    + (if champion == Some("Karthus") then [Warning] else [])
    + (if PostedLe(deaths, 3.0) then [Success] else [])
  }

  /** Critical and success never come together, and a null death count
      counts as a clean game. */
  lemma CoachingAlertsExclusive(deaths: Posted, champion: Option<string>)
    ensures !(Critical in CoachingAlerts(deaths, champion) && Success in CoachingAlerts(deaths, champion))
    ensures Success in CoachingAlerts(JsonNull, champion)
    ensures CoachingAlerts(Absent, champion) == (if champion == Some("Karthus") then [Warning] else [])
  {
  }

  /** The two routes disagree on Nocturne: the webhook flags it as an
      experimental pick, the coaching endpoint does not. */
  lemma NocturneOnlyInWebhook(d: int)
    ensures PickAlert in AlertsFor(Some("Nocturne"), None, Num(d))
    ensures Warning !in CoachingAlerts(JsonNumber(d as real), Some("Nocturne"))
  {
  }
}
