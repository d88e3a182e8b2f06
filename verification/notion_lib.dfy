/** The Notion SDK helpers behind the games and session routes: the recent
    jungle games as flat rows, and the active coaching session. The
    database query is the store's `Query`; whether the service answers is
    an oracle. */
module NotionLib {

  import opened Options
  import opened Text
  import opened RiotTypes
  import opened NotionStore
  import RefreshGames

  /** One row of `getRecentGames`. `result` is the select's raw option name. */
  datatype GameRow = GameRow(
    id: string,
    matchId: string,
    champion: string,
    result: string,
    kda: string,
    deaths: JsInt,
    duration: int,
    gameDate: string)

  /** A coaching session (lib/types.ts `Session`). */
  datatype Session = Session(name: string, focusArea: string, targetGames: int, startDate: string)

  /** The page-to-row mapping: text fields fall back to "", the duration to
      0, and deaths are re-read from the kda text. */
  function PageRow(p: Page): (r: GameRow)
    ensures r.id == p.id
    ensures r.matchId == OrElse(TitleText(p.properties, "match_id"), "")
    ensures r.champion == OrElse(RichTextOf(p.properties, "champion"), "")
    ensures r.result == OrElse(SelectName(p.properties, "result"), "")
    ensures r.kda == OrElse(RichTextOf(p.properties, "kda"), "")
    ensures r.deaths == KdaDeaths(RichTextOf(p.properties, "kda"))
    ensures r.duration == NumberOr(NumberOf(p.properties, "duration_minutes"), 0)
    ensures r.gameDate == OrElse(DateStart(p.properties, "game_date"), "")
  {
    var ps := p.properties;
    GameRow(
      p.id,
      OrElse(TitleText(ps, "match_id"), ""),
      OrElse(RichTextOf(ps, "champion"), ""),
      OrElse(SelectName(ps, "result"), ""),
      OrElse(RichTextOf(ps, "kda"), ""),
      KdaDeaths(RichTextOf(ps, "kda")),
      NumberOr(NumberOf(ps, "duration_minutes"), 0),
      OrElse(DateStart(ps, "game_date"), ""))
  }

  /** `getRecentGames(limit)`: the first `limit` jungle pages as rows, in the
      order the service answers; the limit is passed on unclamped. A failed
      query throws. */
  function GetRecentGames(db: seq<Page>, limit: nat, up: bool): (r: Outcome<seq<GameRow>>)
    ensures r.Thrown? <==> !up
    ensures r.Completed? ==>
      var pages := Query(db, JunglePages, limit);
      |r.value| == |pages| <= limit
      && forall i :: 0 <= i < |pages| ==> r.value[i] == PageRow(pages[i])
  {
    if !up then Thrown("query failed")
    else
      var pages := Query(db, JunglePages, limit);
      Completed(seq(|pages|, i requires 0 <= i < |pages| => PageRow(pages[i])))
  }

  /** A row some jungle page of the store maps to. */
  predicate FromJunglePage(db: seq<Page>, row: GameRow)
  {
    exists p :: p in db && Satisfies(p, JunglePages) && row == PageRow(p)
  }

  /** Every row comes from a jungle page of the store, and there are fewer
      than `limit` rows only when the store holds no more jungle pages. */
  lemma RecentGamesFromJunglePages(db: seq<Page>, limit: nat)
    ensures var r := GetRecentGames(db, limit, true).value;
      (forall i :: 0 <= i < |r| ==> FromJunglePage(db, r[i]))
      && (|r| < limit ==> |r| == |Matching(db, JunglePages)|)
  {
    var pages := Query(db, JunglePages, limit);
    var r := GetRecentGames(db, limit, true).value;
    forall i | 0 <= i < |r|
      ensures FromJunglePage(db, r[i])
    {
      assert pages[i] == Matching(db, JunglePages)[i];
      assert pages[i] in db && Satisfies(pages[i], JunglePages) && r[i] == PageRow(pages[i]);
    }
  }

  /** The default of `getRecentGames(limit = 10)`. */
  const DefaultLimit: nat := 10

  /** `getRecentGames(limit)` as called, the limit optional: at most ten
      rows when none is given, all from jungle pages, and fewer only when the
      jungle pages run out. */
  function RecentGames(db: seq<Page>, limit: Option<nat>, up: bool): (r: Outcome<seq<GameRow>>)
    ensures r.Thrown? <==> !up
    ensures limit.None? && r.Completed? ==>
      |r.value| <= DefaultLimit
      && (|r.value| < DefaultLimit ==> |r.value| == |Matching(db, JunglePages)|)
    ensures limit.Some? && r.Completed? ==> |r.value| <= limit.value
    ensures r.Completed? ==> forall i :: 0 <= i < |r.value| ==> FromJunglePage(db, r.value[i])
  {
    RecentGamesFromJunglePages(db, limit.GetOr(DefaultLimit));
    GetRecentGames(db, limit.GetOr(DefaultLimit), up)
  }

  /** The active-session filter. */
  const ActiveSessions := SelectEquals("status", "Active")

  /** `getCurrentSession`: the first active session, its missing fields
      read as "" or 0; null when no session is active. */
  function GetCurrentSession(sessions: seq<Page>, up: bool): (r: Outcome<Option<Session>>)
    ensures r.Thrown? <==> !up
    ensures r.Completed? ==> (r.value.None? <==> |Query(sessions, ActiveSessions, 1)| == 0)
    ensures r.Completed? && r.value.Some? ==>
      var ps := Query(sessions, ActiveSessions, 1)[0].properties;
      r.value.value.name == OrElse(TitleText(ps, "session_name"), "")
      && r.value.value.focusArea == OrElse(SelectName(ps, "focus_area"), "")
      && r.value.value.targetGames == NumberOr(NumberOf(ps, "target_games"), 0)
      && r.value.value.startDate == OrElse(DateStart(ps, "start_date"), "")
  {
    if !up then Thrown("query failed")
    else
      var found := Query(sessions, ActiveSessions, 1);
      if |found| == 0 then Completed(None)
      else
        var ps := found[0].properties;
        Completed(Some(Session(
          OrElse(TitleText(ps, "session_name"), ""),
          OrElse(SelectName(ps, "focus_area"), ""),
          NumberOr(NumberOf(ps, "target_games"), 0),
          OrElse(DateStart(ps, "start_date"), ""))))
  }

  /** The session returned is the store's first active session, and there
      is one exactly when some session page is active. */
  lemma SessionIsFirstActive(sessions: seq<Page>)
    ensures var r := GetCurrentSession(sessions, true).value;
      (r.Some? <==> exists i :: 0 <= i < |sessions| && Satisfies(sessions[i], ActiveSessions))
      && (r.Some? ==> exists i :: 0 <= i < |sessions| && Satisfies(sessions[i], ActiveSessions)
                        && r.value.name == OrElse(TitleText(sessions[i].properties, "session_name"), "")
                        && forall j :: 0 <= j < i ==> !Satisfies(sessions[j], ActiveSessions))
  {
    QueryNonEmpty(sessions, ActiveSessions, 1);
    var m := Matching(sessions, ActiveSessions);
    if |m| > 0 {
      var i := FirstMatch(sessions, ActiveSessions);
      assert NoneBefore(sessions, ActiveSessions, i);
    }
  }

  /** No page before index `i` satisfies the condition. */
  predicate NoneBefore(db: seq<Page>, c: Condition, i: nat)
    requires i <= |db|
  {
    forall j :: 0 <= j < i ==> !Satisfies(db[j], c)
  }

  /** The first matching page sits at an index no earlier match precedes. */
  lemma {:induction false} FirstMatch(db: seq<Page>, c: Condition) returns (i: nat)
    requires |Matching(db, c)| > 0
    ensures i < |db| && db[i] == Matching(db, c)[0] && Satisfies(db[i], c) && NoneBefore(db, c, i)
    decreases |db|
  {
    var p, rest := db[0], db[1..];
    assert db == [p] + rest;
    MatchingFront(p, rest, c);
    if Satisfies(p, c) {
      i := 0;
    } else {
      var k := FirstMatch(rest, c);
      i := k + 1;
      assert db[i] == rest[k];
      NoneBeforeShift(db, c, k);
    }
  }

  /** A non-matching first page extends a match-free prefix of the rest by
      one. */
  lemma NoneBeforeShift(db: seq<Page>, c: Condition, k: nat)
    requires 0 < |db| && k < |db| && !Satisfies(db[0], c) && NoneBefore(db[1..], c, k)
    ensures NoneBefore(db, c, k + 1)
  {
    forall j | 0 < j <= k
      ensures !Satisfies(db[j], c)
    {
      assert db[j] == db[1..][j - 1];
    }
  }

  /** As written, the row's result is the stored option itself: a game the
      refresh-games or riot-webhook route stored reads back as "Win" or
      "Loss". The row carries the `Game` type's field names, but its result
      lies outside the values "WIN" and "LOSS" that `Game.result` allows
      (lib/types.ts:5). Nothing in the source types or renders these rows
      as `Game`. */
  lemma RowResultIsRawOption(id: string, g: JungleGame)
    ensures var ps := map["result" := Select(Some(ResultSelect(g.result)))];
      PageRow(Page(id, ps)).result == ResultSelect(g.result)
      && PageRow(Page(id, ps)).result != ResultText(g.result)
  {
    ResultSelectRoundTrip(g.result);
  }

  /** The reading of a `Game`'s result that its type invites: the
      `result === 'WIN'` test the analytics and timeline code apply to
      games. */
  function DashboardResult(result: string): GameResult
  {
    if result == "WIN" then Win else Loss
  }

  /** For a concrete won game stored by the routes, that test fails on
      the row `getRecentGames` returns. */
  lemma StoredWinShownAsLoss()
    ensures DashboardResult(PageRow(Page("p", map["result" := Select(Some(ResultSelect(Win)))])).result) == Loss
  {
  }

  /** The intended row: `result` normalised to WIN/LOSS as the other readers
      of the store do. */
  function NormalisedRow(p: Page): (r: GameRow)
    ensures r.result == "WIN" || r.result == "LOSS"
    ensures r.result == "WIN" <==> SelectName(p.properties, "result") == Some("Win")
    ensures r == PageRow(p).(result := r.result)
  {
    PageRow(p).(result := ResultText(ResultFromSelect(SelectName(p.properties, "result"))))
  }

  /** With the normalised row, a stored result reads back as the result
      that was stored, and the `result === 'WIN'` test gives it back. */
  lemma NormalisedRowRoundTrip(id: string, ps: Props, r: GameResult)
    requires "result" in ps && ps["result"] == Select(Some(ResultSelect(r)))
    ensures NormalisedRow(Page(id, ps)).result == ResultText(r)
    ensures DashboardResult(NormalisedRow(Page(id, ps)).result) == r
  {
    ResultSelectRoundTrip(r);
  }

  /** A page that refresh-games created reads back as a row holding the
      game's match id, champion, stored result option, kda text, the deaths
      that kda gives, and date, with duration 0. */
  lemma PageRowOfStored(id: string, g: RefreshGames.NotionGame)
    ensures var r := PageRow(Page(id, RefreshGames.GameProps(g)));
      r.id == id && r.matchId == g.matchId && r.champion == g.champion
      && r.result == ResultSelect(g.result) && r.kda == g.kda
      && r.deaths == KdaDeaths(Some(g.kda)) && r.duration == 0 && r.gameDate == g.gameDate
  {
    var ps := RefreshGames.GameProps(g);
    RefreshGames.GamePropsFields(g);
    assert TitleText(ps, "match_id") == Some(g.matchId);
    assert RichTextOf(ps, "champion") == Some(g.champion);
    assert SelectName(ps, "result") == Some(ResultSelect(g.result));
    assert RichTextOf(ps, "kda") == Some(g.kda);
    assert DateStart(ps, "game_date") == Some(g.gameDate);
    assert "duration_minutes" !in ps;
  }

  /** No route writes `duration_minutes` (riot-webhook writes
      `game_duration`, refresh-games no duration at all), so a row's
      duration is 0 for every page they create. */
  lemma DurationNeverRecorded(p: Page)
    requires "duration_minutes" !in p.properties
    ensures PageRow(p).duration == 0
  {
  }
}
