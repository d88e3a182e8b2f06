/** The dashboard's data layer: recent games from the live Riot scraper
    with the Notion games database as fallback, the advanced analytics of
    the live games, the current coaching session with a fixed fallback, and
    the (write-free) sync report. Remote calls are oracles; `isoOf` stands
    for `Date.toISOString` of a time stamp and `nowIso` for the current
    time's. */
module NotionEnhanced {

  import opened Options
  import opened Text
  import opened RiotTypes
  import opened NotionStore
  import Client
  import Analytics
  import Champions
  import Scraper
  import RefreshGames
  import RiotWebhook
  import NotionLib

  /** The fields only a game converted from Riot data carries. */
  datatype Extras = Extras(jungleCS: nat, visionScore: nat, objectivesDamage: nat, goldEarned: nat, gameDuration: int)

  /** A dashboard game (lib/types.ts `Game`). */
  datatype Game = Game(
    id: string,
    champion: string,
    result: GameResult,
    deaths: JsInt,
    kda: string,
    gameDate: string,
    extras: Option<Extras>)

  function Convert(g: JungleGame, isoOf: int -> string): Game
  {
    Game(g.matchId, g.champion, g.result, Num(g.deaths), g.kda, isoOf(g.gameDate),
         Some(Extras(g.jungleCS, g.visionScore, g.objectivesDamage, g.goldEarned, g.gameDuration)))
  }

  /** `convertRiotToGameFormat`: one game per Riot game, in order, keyed by
      the match id, every other field carried over. */
  function ConvertRiotToGameFormat(gs: seq<JungleGame>, isoOf: int -> string): (r: seq<Game>)
    ensures |r| == |gs|
    ensures forall i :: 0 <= i < |gs| ==>
      r[i].id == gs[i].matchId && r[i].champion == gs[i].champion && r[i].result == gs[i].result
      && r[i].deaths == Num(gs[i].deaths) && r[i].kda == gs[i].kda && r[i].gameDate == isoOf(gs[i].gameDate)
      && r[i].extras == Some(Extras(gs[i].jungleCS, gs[i].visionScore, gs[i].objectivesDamage,
                                    gs[i].goldEarned, gs[i].gameDuration))
  {
    seq(|gs|, i requires 0 <= i < |gs| => Convert(gs[i], isoOf))
  }

  /** The scraper writes kda as "kills/deaths/assists", so a converted game's
      deaths agree with what re-reading its kda text gives. */
  lemma ConvertedDeathsMatchKda(gs: seq<JungleGame>, isoOf: int -> string, i: nat)
    requires i < |gs|
    requires gs[i].kda == KdaText(gs[i].kills, gs[i].deaths, gs[i].assists)
    ensures KdaDeaths(Some(ConvertRiotToGameFormat(gs, isoOf)[i].kda)) == ConvertRiotToGameFormat(gs, isoOf)[i].deaths
  {
    KdaDeathsRoundTrip(gs[i].kills, gs[i].deaths, gs[i].assists);
  }

  const DefaultKda := "0/0/0"

  /** The page parse of the Notion fallback: champion "Unknown" and kda
      "0/0/0" when missing or empty, deaths from the kda text's second
      piece, WIN only for the select option "Win", and the current time when
      no date is set. */
  function ParseNotionPage(p: Page, nowIso: string): (g: Game)
    ensures g.id == p.id && g.extras.None?
    ensures g.champion != "" && g.kda != ""
    ensures g.champion == OrElse(RichTextOf(p.properties, "champion"), "Unknown")
    ensures g.kda == OrElse(RichTextOf(p.properties, "kda"), DefaultKda)
    ensures g.deaths == KdaDeaths(Some(g.kda))
    ensures g.result == Win <==> SelectName(p.properties, "result") == Some("Win")
    ensures g.gameDate == OrElse(DateStart(p.properties, "game_date"), nowIso)
  {
    var ps := p.properties;
    var kda := OrElse(RichTextOf(ps, "kda"), DefaultKda);
    Game(
      p.id,
      OrElse(RichTextOf(ps, "champion"), "Unknown"),
      ResultFromSelect(SelectName(ps, "result")),
      ParseInt(PieceOr(kda, '/', 1, "0")),
      kda,
      OrElse(DateStart(ps, "game_date"), nowIso),
      None)
  }

  /** A page with no kda text reads as zero deaths. */
  lemma MissingKdaIsZeroDeaths(p: Page, nowIso: string)
    requires !Truthy(RichTextOf(p.properties, "kda"))
    ensures ParseNotionPage(p, nowIso).deaths == Num(0)
  {
    assert KdaText(0, 0, 0) == DefaultKda by {
      assert NatToString(0) == "0";
    }
    KdaDeathsRoundTrip(0, 0, 0);
  }

  /** A page the refresh-games route stored parses back to the game it
      stored: the same champion, result, kda text, deaths and date. */
  lemma ParsesRefreshPage(id: string, g: RefreshGames.NotionGame, nowIso: string)
    requires g.champion != "" && g.kda != "" && g.gameDate != ""
    requires KdaDeaths(Some(g.kda)) == g.deaths
    ensures var r := ParseNotionPage(Page(id, RefreshGames.GameProps(g)), nowIso);
      r.champion == g.champion && r.result == g.result && r.kda == g.kda
      && r.deaths == g.deaths && r.gameDate == g.gameDate
  {
    var p := Page(id, RefreshGames.GameProps(g));
    RefreshGames.StoreRoundTrip(id, g);
    var e := RefreshGames.ParseExisting(p);
    assert RichTextOf(p.properties, "champion") == Some(g.champion) by {
      assert OrElse(RichTextOf(p.properties, "champion"), "") == e.champion;
    }
    assert RichTextOf(p.properties, "kda") == Some(g.kda) by {
      assert OrElse(RichTextOf(p.properties, "kda"), "") == e.kda;
    }
    assert DateStart(p.properties, "game_date") == Some(g.gameDate) by {
      assert OrElse(DateStart(p.properties, "game_date"), "") == e.gameDate;
    }
  }

  /** Both sources agree on a game: a scraped game the riot-webhook route
      stored, read back through the fallback, has the champion, result, kda
      and deaths of the same game converted directly from Riot, and the
      stored day as its date. */
  lemma SourcesAgree(id: string, g: JungleGame, dayOf: int -> string, isoOf: int -> string, nowIso: string)
    requires g.champion != "" && dayOf(g.gameDate) != ""
    requires g.kda == KdaText(g.kills, g.deaths, g.assists)
    ensures var stored := ParseNotionPage(Page(id, RiotWebhook.MatchProps(g, dayOf)), nowIso);
      var live := ConvertRiotToGameFormat([g], isoOf)[0];
      stored.champion == live.champion && stored.result == live.result
      && stored.kda == live.kda && stored.deaths == live.deaths
      && stored.gameDate == dayOf(g.gameDate)
  {
    var ps := RiotWebhook.MatchProps(g, dayOf);
    RiotWebhook.MatchPropsFields(g, dayOf);
    ResultSelectRoundTrip(g.result);
    KdaDeathsRoundTrip(g.kills, g.deaths, g.assists);
    assert KdaText(g.kills, g.deaths, g.assists) != "" by {
      assert |NatToString(g.kills)| > 0;
    }
    assert RichTextOf(ps, "champion") == Some(g.champion);
    assert RichTextOf(ps, "kda") == Some(g.kda);
    assert SelectName(ps, "result") == Some(ResultSelect(g.result));
    assert DateStart(ps, "game_date") == Some(dayOf(g.gameDate));
    var stored := ParseNotionPage(Page(id, ps), nowIso);
    assert stored.champion == g.champion && stored.kda == g.kda;
    assert stored.result == g.result;
    var live := ConvertRiotToGameFormat([g], isoOf)[0];
    assert live.champion == g.champion && live.result == g.result && live.kda == g.kda;
    assert live.deaths == Num(g.deaths);
  }

  /** `Math.min(limit, 100)`. */
  function PageSize(limit: nat): (n: nat)
    ensures n <= 100 && n <= limit
    ensures n == limit || n == 100
  {
    if limit < 100 then limit else 100
  }

  /** `getRecentGamesFromNotion(limit)`: throws when a setting is missing or
      the query fails; otherwise the parsed jungle pages, at most
      min(limit, 100) of them. */
  function GetRecentGamesFromNotion(token: Option<string>, dbId: Option<string>, up: bool,
                                    db: seq<Page>, limit: nat, nowIso: string): (r: Outcome<seq<Game>>)
    ensures r.Thrown? <==> !Truthy(token) || !Truthy(dbId) || !up
    ensures r.Completed? ==>
      var pages := Query(db, JunglePages, PageSize(limit));
      |r.value| == |pages| <= PageSize(limit)
      && forall i :: 0 <= i < |pages| ==> r.value[i] == ParseNotionPage(pages[i], nowIso)
  {
    if !Truthy(token) || !Truthy(dbId) then Thrown("Missing NOTION_TOKEN or NOTION_GAMES_DB environment variables")
    else if !up then Thrown("Notion API Error")
    else
      var pages := Query(db, JunglePages, PageSize(limit));
      Completed(seq(|pages|, i requires 0 <= i < |pages| => ParseNotionPage(pages[i], nowIso)))
  }

  /** `getLiveRiotData(limit)`: throws when no scraper can be made, else the
      scraper's recent jungle games (which never throws; its failures give
      no games). */
  method GetLiveRiotData(account: Client.Attempt<Option<AccountData>>, limit: nat,
                         history: Client.Attempt<Option<seq<string>>>,
                         getMatch: string -> Client.Attempt<Option<MatchData>>)
    returns (r: Outcome<seq<JungleGame>>)
    ensures r.Thrown? <==> Scraper.CreateFeraxinScraper(account).None?
    ensures r.Completed? ==> |r.value| <= limit
  {
    var scraper := Scraper.CreateFeraxinScraper(account);
    if scraper.None? {
      return Thrown("Could not create match scraper");
    }
    var games := Scraper.ScrapeRecentMatches(scraper.value, limit, history, getMatch);
    return Completed(games);
  }

  /** Whether the live source produced games. */
  predicate RiotHasGames(riot: Outcome<seq<JungleGame>>)
  {
    riot.Completed? && |riot.value| > 0
  }

  /** `getRecentGamesEnhanced`: the converted Riot games when there are
      any; otherwise (Riot empty or throwing) the Notion games; and no games
      when Notion throws too. */
  function GetRecentGamesEnhanced(riot: Outcome<seq<JungleGame>>, notion: Outcome<seq<Game>>,
                                  isoOf: int -> string): (r: seq<Game>)
    ensures RiotHasGames(riot) ==> r == ConvertRiotToGameFormat(riot.value, isoOf)
    ensures !RiotHasGames(riot) && notion.Completed? ==> r == notion.value
    ensures !RiotHasGames(riot) && notion.Thrown? ==> r == []
  {
    if RiotHasGames(riot) then ConvertRiotToGameFormat(riot.value, isoOf)
    else if notion.Completed? then notion.value
    else []
  }

  /** The source shows in the result: the games carry the Riot-only fields
      exactly when they came from Riot, every game does so alike, and there
      are never more than `limit` of them. */
  lemma EnhancedSourceVisible(riot: Outcome<seq<JungleGame>>, token: Option<string>, dbId: Option<string>,
                              up: bool, db: seq<Page>, limit: nat, nowIso: string, isoOf: int -> string)
    requires riot.Completed? ==> |riot.value| <= limit
    ensures var r := GetRecentGamesEnhanced(riot, GetRecentGamesFromNotion(token, dbId, up, db, limit, nowIso), isoOf);
      |r| <= limit
      && (forall i :: 0 <= i < |r| ==> (r[i].extras.Some? <==> RiotHasGames(riot)))
      && (|r| == 0 <==> !RiotHasGames(riot) && (!Truthy(token) || !Truthy(dbId) || !up
                                                  || |Matching(db, JunglePages)| == 0 || limit == 0))
  {
    var notion := GetRecentGamesFromNotion(token, dbId, up, db, limit, nowIso);
    if !RiotHasGames(riot) && notion.Completed? {
      var pages := Query(db, JunglePages, PageSize(limit));
      if |Matching(db, JunglePages)| > 0 && limit > 0 {
        assert |pages| > 0;
      }
    }
  }

  /** The default of `getRecentGamesEnhanced(limit = 20)`. */
  const DefaultRecentLimit: nat := 20

  /** The limit asked for, or the default. */
  function LimitOr(limit: Option<nat>): nat
  {
    limit.GetOr(DefaultRecentLimit)
  }

  /** `getRecentGamesEnhanced(limit)` with both reads in place: the live
      games under the limit, or else the Notion games under the same limit.
      With no limit given, 20. */
  method RecentGamesEnhanced(limit: Option<nat>, account: Client.Attempt<Option<AccountData>>,
                             history: Client.Attempt<Option<seq<string>>>,
                             getMatch: string -> Client.Attempt<Option<MatchData>>,
                             token: Option<string>, dbId: Option<string>, up: bool, db: seq<Page>,
                             nowIso: string, isoOf: int -> string)
    returns (r: seq<Game>)
    ensures limit.None? ==> |r| <= DefaultRecentLimit
    ensures limit.Some? ==> |r| <= limit.value
    ensures Scraper.CreateFeraxinScraper(account).None? ==>
      GetRecentGamesFromNotion(token, dbId, up, db, LimitOr(limit), nowIso).Completed? ==>
      r == GetRecentGamesFromNotion(token, dbId, up, db, LimitOr(limit), nowIso).value
    ensures Scraper.CreateFeraxinScraper(account).None? ==>
      GetRecentGamesFromNotion(token, dbId, up, db, LimitOr(limit), nowIso).Thrown? ==> r == []
    ensures forall i :: 0 <= i < |r| ==> r[i].extras.Some? ==> Scraper.CreateFeraxinScraper(account).Some?
  {
    var n := LimitOr(limit);
    var riot := GetLiveRiotData(account, n, history, getMatch);
    r := GetRecentGamesEnhanced(riot, GetRecentGamesFromNotion(token, dbId, up, db, n, nowIso), isoOf);
    EnhancedSourceVisible(riot, token, dbId, up, db, n, nowIso, isoOf);
  }

  /** The advanced analytics of the live games. */
  datatype Advanced = Advanced(
    kpis: Analytics.Kpis,
    insights: seq<Analytics.Insight>,
    championStats: seq<Champions.ChampionStats>,
    trends: seq<Analytics.Trend>,
    gameCount: nat)

  /** `getAdvancedAnalytics`: nothing when the live source throws or has no
      games; otherwise the engine's results over those games. */
  function GetAdvancedAnalytics(riot: Outcome<seq<JungleGame>>): (r: Option<Advanced>)
    requires riot.Completed? ==> Analytics.ValidDurations(riot.value)
    ensures r.None? <==> !RiotHasGames(riot)
    ensures r.Some? ==> r.value.gameCount == |riot.value|
  {
    if !RiotHasGames(riot) then None
    else
      var gs := riot.value;
      Some(Advanced(
        Analytics.CalculateAdvancedKPIs(gs),
        Analytics.GenerateCoachingInsights(gs),
        Champions.AnalyzeChampionPerformance(gs),
        Analytics.GetPerformanceTrends(gs),
        |gs|))
  }

  /** `getAdvancedAnalytics` reads the live source with a fixed limit of 25. */
  const AnalyticsLimit: nat := 25

  /** Read under that limit, the analytics cover between one and 25 games. */
  lemma AdvancedWithinLimit(riot: Outcome<seq<JungleGame>>)
    requires riot.Completed? ==> Analytics.ValidDurations(riot.value) && |riot.value| <= AnalyticsLimit
    ensures var r := GetAdvancedAnalytics(riot);
      r.Some? ==> 0 < r.value.gameCount <= AnalyticsLimit
  {
  }

  /** The parts of the analytics agree on the number of games: the champion
      summaries' games add up to the game count, and the trend periods end
      at the last game. */
  lemma AdvancedCountsAgree(riot: Outcome<seq<JungleGame>>)
    requires riot.Completed? && Analytics.ValidDurations(riot.value)
    requires GetAdvancedAnalytics(riot).Some?
    ensures var a := GetAdvancedAnalytics(riot).value;
      Seqs.SumOf(Champions.StatsGames, a.championStats) == a.gameCount
      && |a.trends| > 0 && a.trends[|a.trends| - 1].last == a.gameCount
      && 0.0 <= a.kpis.winrate <= 100.0
  {
    Champions.ChampionPerformance(riot.value);
    Analytics.TrendsTile(riot.value);
  }

  /** The session shown when none can be read. */
  const FallbackSession := NotionLib.Session("Death Binary Protocol", "Champion Mechanics", 10, "2025-09-22")

  /** `getCurrentSession` of this module: the fallback session when a
      setting is missing, the query fails or no session is active;
      otherwise the first active session, each missing or empty field taken
      from the fallback. */
  function GetCurrentSession(token: Option<string>, dbId: Option<string>, up: bool,
                             sessions: seq<Page>): (r: NotionLib.Session)
    ensures !Truthy(token) || !Truthy(dbId) || !up || |Query(sessions, NotionLib.ActiveSessions, 1)| == 0
            ==> r == FallbackSession
  {
    if !Truthy(token) || !Truthy(dbId) || !up then FallbackSession
    else
      var found := Query(sessions, NotionLib.ActiveSessions, 1);
      if |found| == 0 then FallbackSession
      else
        var ps := found[0].properties;
        NotionLib.Session(
          OrElse(TitleText(ps, "session_name"), FallbackSession.name),
          OrElse(SelectName(ps, "focus_area"), FallbackSession.focusArea),
          NumberOr(NumberOf(ps, "target_games"), FallbackSession.targetGames),
          OrElse(DateStart(ps, "start_date"), FallbackSession.startDate))
  }

  /** With at most one active session, this module's session is the base
      helper's session with every empty field replaced by the fallback's:
      the two agree on every field the active session sets, and the
      enhanced one never has an empty field or a zero target. The base
      helper asks the service to sort active sessions by start date and
      this one does not, so with two or more active sessions the two may
      pick different pages; the bound keeps the lemma to the case where
      the sort cannot matter. */
  lemma SessionFallbackAgrees(token: Option<string>, dbId: Option<string>, sessions: seq<Page>)
    requires Truthy(token) && Truthy(dbId)
    requires |Matching(sessions, NotionLib.ActiveSessions)| <= 1
    ensures var r := GetCurrentSession(token, dbId, true, sessions);
      var base := NotionLib.GetCurrentSession(sessions, true).value;
      r.name != "" && r.focusArea != "" && r.startDate != "" && r.targetGames != 0
      && (base.None? ==> r == FallbackSession)
      && (base.Some? ==>
            r.name == (if base.value.name != "" then base.value.name else FallbackSession.name)
            && r.focusArea == (if base.value.focusArea != "" then base.value.focusArea else FallbackSession.focusArea)
            && r.targetGames == (if base.value.targetGames != 0 then base.value.targetGames else FallbackSession.targetGames)
            && r.startDate == (if base.value.startDate != "" then base.value.startDate else FallbackSession.startDate))
  {
  }

  /** What `syncRiotDataToNotion` reports; it writes nothing. */
  datatype SyncReport = SyncSucceeded(synced: nat) | SyncError(message: string)

  /** `syncRiotDataToNotion`: with a scraper, the number of the ten most
      recent jungle games it found; without one, an error. */
  method SyncRiotDataToNotion(account: Client.Attempt<Option<AccountData>>,
                              history: Client.Attempt<Option<seq<string>>>,
                              getMatch: string -> Client.Attempt<Option<MatchData>>)
    returns (r: SyncReport)
    ensures r.SyncSucceeded? <==> Scraper.CreateFeraxinScraper(account).Some?
    ensures r.SyncSucceeded? ==> r.synced <= 10
  {
    var scraper := Scraper.CreateFeraxinScraper(account);
    if scraper.None? {
      return SyncError("Could not create scraper");
    }
    var games := Scraper.ScrapeRecentMatches(scraper.value, 10, history, getMatch);
    return SyncSucceeded(|games|);
  }
}
