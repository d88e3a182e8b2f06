/** The riot-webhook route: a shared-secret check, then either saving one
    completed match or re-saving the recent games, each into the Notion
    games database. The scraper's answers, the Notion calls and the
    calendar are oracles. */
module RiotWebhook {

  import opened Options
  import opened Seqs
  import opened RiotTypes
  import opened NotionStore
  import opened Client
  import opened Scraper
  import RefreshGames

  /** `headers.get('x-webhook-secret') !== process.env.WEBHOOK_SECRET`
      rejects. A missing header is null and a missing setting undefined, so
      two missing values still differ: only a present header equal to a
      present setting passes. */
  predicate Authorized(header: Option<string>, secret: Option<string>)
  {
    header.Some? && secret.Some? && header.value == secret.value
  }

  /** The fields of the POST body the route reads. */
  datatype Body = Body(action: Option<string>, matchId: Option<string>, puuid: Option<string>)

  datatype Action = CompleteMatch(matchId: string) | RefreshRecent | UnknownAction

  /** A completed match needs a truthy match id and puuid; otherwise the
      action must be exactly "refresh_recent". */
  function Dispatch(b: Body): (a: Action)
    ensures a.CompleteMatch? <==> b.action == Some("match_completed") && Truthy(b.matchId) && Truthy(b.puuid)
    ensures a.CompleteMatch? ==> a.matchId == b.matchId.value
    ensures a.RefreshRecent? <==> b.action == Some("refresh_recent")
  {
    if b.action == Some("match_completed") && Truthy(b.matchId) && Truthy(b.puuid) then CompleteMatch(b.matchId.value)
    else if b.action == Some("refresh_recent") then RefreshRecent
    else UnknownAction
  }

  const MsPerMinute := 60000

  /** The page `saveMatchToNotion` creates. `dayOf` gives the calendar day
      of a time stamp. The duration is divided by 60000 and floored; Dafny's
      division by a positive number already floors. */
  function MatchProps(g: JungleGame, dayOf: int -> string): Props
  {
    map[
      "champion" := RichProp(g.champion),
      "result" := Select(Some(ResultSelect(g.result))),
      "kda" := RichProp(g.kda),
      "deaths" := Number(Some(g.deaths)),
      "game_date" := Date(Some(dayOf(g.gameDate))),
      "role" := Select(Some("JUNGLE")),
      "match_id" := RichProp(g.matchId),
      "jungle_cs" := Number(Some(g.jungleCS)),
      "vision_score" := Number(Some(g.visionScore)),
      "objectives_damage" := Number(Some(g.objectivesDamage)),
      "gold_earned" := Number(Some(g.goldEarned)),
      "game_duration" := Number(Some(g.gameDuration / MsPerMinute))]
  }

  /** The entries of a created page the readers look at, one by one. */
  lemma MatchPropsFields(g: JungleGame, dayOf: int -> string)
    ensures var ps := MatchProps(g, dayOf);
      "champion" in ps && ps["champion"] == RichProp(g.champion)
      && "result" in ps && ps["result"] == Select(Some(ResultSelect(g.result)))
      && "kda" in ps && ps["kda"] == RichProp(g.kda)
      && "game_date" in ps && ps["game_date"] == Date(Some(dayOf(g.gameDate)))
  {
  }

  /** What the created page records: the result as the Win/Loss select,
      role JUNGLE, the match id as rich_text (so a rich_text filter on it
      finds the page, and no title holds it), and the whole minutes of the
      duration. */
  lemma MatchPropsFacts(g: JungleGame, dayOf: int -> string, v: string)
    ensures var ps := MatchProps(g, dayOf);
      ResultFromSelect(SelectName(ps, "result")) == g.result
      && SelectName(ps, "role") == Some("JUNGLE")
      && (Satisfies(Page("", ps), RichTextEquals("match_id", v)) <==> v == g.matchId)
      && TitleText(ps, "match_id").None?
      && NumberOf(ps, "game_duration").Some?
      && var m := NumberOf(ps, "game_duration").value;
         m * MsPerMinute <= g.gameDuration < (m + 1) * MsPerMinute
  {
    var ps := MatchProps(g, dayOf);
    ResultSelectRoundTrip(g.result);
    RichPropMatches(ps, "match_id", g.matchId, v);
  }

  datatype Saved = Created | Skipped

  /** The duplicate check: a page whose rich_text match_id is the game's. */
  function SameMatch(g: JungleGame): Condition
  {
    RichTextEquals("match_id", g.matchId)
  }

  predicate Recorded(db: seq<Page>, g: JungleGame)
  {
    exists i :: 0 <= i < |db| && Satisfies(db[i], SameMatch(g))
  }

  /** `saveMatchToNotion(game, skipIfExists)`: throws without a games
      database; with `skipIfExists`, a one-page query for the match id
      decides whether to skip; otherwise the page is created. `queryUp` and
      `createUp` say whether those calls succeed, `id` is the new page's id. */
  function SaveMatch(db: seq<Page>, gamesDb: Option<string>, g: JungleGame, skipIfExists: bool,
                     queryUp: bool, createUp: bool, id: string, dayOf: int -> string): (r: Run<Saved>)
    ensures r.outcome == Completed(Skipped) <==>
      Truthy(gamesDb) && skipIfExists && queryUp && Recorded(db, g)
    ensures r.outcome == Completed(Created) <==>
      Truthy(gamesDb) && (!skipIfExists || (queryUp && !Recorded(db, g))) && createUp
    ensures r.outcome == Completed(Created) ==> r.store == db + [Page(id, MatchProps(g, dayOf))]
    ensures r.outcome != Completed(Created) ==> r.store == db
  {
    if !Truthy(gamesDb) then Run(db, Thrown("NOTION_GAMES_DB not configured"))
    else if skipIfExists && !queryUp then Run(db, Thrown("query failed"))
    else if skipIfExists && (QueryNonEmpty(db, SameMatch(g), 1); |Query(db, SameMatch(g), 1)| > 0) then
      Run(db, Completed(Skipped))
    else if !createUp then Run(db, Thrown("create failed"))
    else Run(db + [Page(id, MatchProps(g, dayOf))], Completed(Created))
  }

  /** The remote side of one request. `getMatch` answers the scraper's
      match request; `recent` is what the scraper's recent-match scrape
      returned; calls number k of the refresh loop use `queryUp(k)`,
      `createUp(k)` and `pageId(k)`. */
  datatype Remote = Remote(
    scraper: Option<Scraper>,
    getMatch: string -> Attempt<Option<MatchData>>,
    recent: seq<JungleGame>,
    gamesDb: Option<string>,
    queryUp: nat -> bool,
    createUp: nat -> bool,
    pageId: nat -> string,
    dayOf: int -> string)

  /** The refresh loop from game `i` on: each game is saved with
      `skipIfExists`, and a throw is logged and passed over. */
  function SaveAllFrom(db: seq<Page>, gs: seq<JungleGame>, i: nat, rm: Remote): seq<Page>
    requires i <= |gs|
    decreases |gs| - i
  {
    if i == |gs| then db else SaveAllFrom(SaveTurn(db, gs, i, rm), gs, i + 1, rm)
  }

  /** Turn `i` of the loop: game `i` saved with `skipIfExists`, using the
      turn's own query and create answers. */
  function SaveTurn(db: seq<Page>, gs: seq<JungleGame>, i: nat, rm: Remote): seq<Page>
    requires i < |gs|
  {
    SaveMatch(db, rm.gamesDb, gs[i], true, rm.queryUp(i), rm.createUp(i), rm.pageId(i), rm.dayOf).store
  }

  /** The loop only appends pages, each the page of one of the games. */
  lemma {:induction false} SaveAllAppends(db: seq<Page>, gs: seq<JungleGame>, i: nat, rm: Remote)
    requires i <= |gs|
    ensures var r := SaveAllFrom(db, gs, i, rm);
      |db| <= |r| && r[..|db|] == db
      && forall j :: |db| <= j < |r| ==> exists k :: i <= k < |gs| && r[j] == Page(rm.pageId(k), MatchProps(gs[k], rm.dayOf))
    decreases |gs| - i
  {
    if i < |gs| {
      var step := SaveMatch(db, rm.gamesDb, gs[i], true, rm.queryUp(i), rm.createUp(i), rm.pageId(i), rm.dayOf);
      SaveAllAppends(step.store, gs, i + 1, rm);
      var r := SaveAllFrom(db, gs, i, rm);
      assert r == SaveAllFrom(step.store, gs, i + 1, rm);
      forall j | |db| <= j < |r|
        ensures exists k :: i <= k < |gs| && r[j] == Page(rm.pageId(k), MatchProps(gs[k], rm.dayOf))
      {
        if j < |step.store| {
          assert step.store == db + [Page(rm.pageId(i), MatchProps(gs[i], rm.dayOf))];
          assert r[j] == step.store[j];
        }
      }
    }
  }

  /** A recorded game stays recorded when pages are appended. */
  lemma RecordedGrows(db: seq<Page>, s: seq<Page>, g: JungleGame)
    requires Recorded(db, g) && |db| <= |s| && s[..|db|] == db
    ensures Recorded(s, g)
  {
    var i :| 0 <= i < |db| && Satisfies(db[i], SameMatch(g));
    assert s[i] == db[i];
  }

  /** The first `n` games are recorded in the store. */
  predicate RecordedUpTo(db: seq<Page>, gs: seq<JungleGame>, n: nat)
    requires n <= |gs|
  {
    forall k :: 0 <= k < n ==> Recorded(db, gs[k])
  }

  /** The games recorded before an append stay recorded after it. */
  lemma RecordedPrefixGrows(db: seq<Page>, s: seq<Page>, gs: seq<JungleGame>, i: nat)
    requires i <= |gs| && |db| <= |s| && s[..|db|] == db
    requires RecordedUpTo(db, gs, i)
    ensures RecordedUpTo(s, gs, i)
  {
    forall k | 0 <= k < i
      ensures Recorded(s, gs[k])
    {
      RecordedGrows(db, s, gs[k]);
    }
  }

  /** A save in which every call succeeds leaves the game recorded and
      only appends. */
  lemma SaveOneRecords(db: seq<Page>, gamesDb: Option<string>, g: JungleGame, id: string, dayOf: int -> string)
    requires Truthy(gamesDb)
    ensures var s := SaveMatch(db, gamesDb, g, true, true, true, id, dayOf).store;
      Recorded(s, g) && |db| <= |s| && s[..|db|] == db
  {
    var s := SaveMatch(db, gamesDb, g, true, true, true, id, dayOf).store;
    if !Recorded(db, g) {
      var p := Page(id, MatchProps(g, dayOf));
      assert s == db + [p];
      MatchPropsFacts(g, dayOf, g.matchId);
      assert s[|db|] == p;
      assert Satisfies(p, SameMatch(g)) by {
        assert p.properties == MatchProps(g, dayOf);
      }
    }
  }

  /** One turn of the loop in which every call succeeds extends the
      recorded prefix by its game. */
  lemma SaveStepRecords(db: seq<Page>, gs: seq<JungleGame>, i: nat, rm: Remote)
    requires i < |gs| && Truthy(rm.gamesDb) && rm.queryUp(i) && rm.createUp(i)
    requires RecordedUpTo(db, gs, i)
    ensures RecordedUpTo(SaveTurn(db, gs, i, rm), gs, i + 1)
  {
    var s := SaveMatch(db, rm.gamesDb, gs[i], true, true, true, rm.pageId(i), rm.dayOf).store;
    SaveOneRecords(db, rm.gamesDb, gs[i], rm.pageId(i), rm.dayOf);
    RecordedPrefixGrows(db, s, gs, i);
  }

  /** The loop can go on from turn `i` with every call succeeding and the
      games before `i` recorded. */
  predicate RunReady(db: seq<Page>, gs: seq<JungleGame>, i: nat, rm: Remote)
  {
    i <= |gs| && Truthy(rm.gamesDb)
    && (forall k :: i <= k < |gs| ==> rm.queryUp(k) && rm.createUp(k))
    && RecordedUpTo(db, gs, i)
  }

  /** A turn in which every call succeeds keeps the loop ready for the
      next. */
  lemma SaveTurnReady(db: seq<Page>, gs: seq<JungleGame>, i: nat, rm: Remote)
    ensures RunReady(db, gs, i, rm) && i < |gs| ==> RunReady(SaveTurn(db, gs, i, rm), gs, i + 1, rm)
  {
    if RunReady(db, gs, i, rm) && i < |gs| {
      SaveStepRecords(db, gs, i, rm);
    }
  }

  /** When every query and create of a run succeeds, every game is recorded
      afterwards. */
  lemma {:induction false} SaveAllRecords(db: seq<Page>, gs: seq<JungleGame>, i: nat, rm: Remote)
    ensures RunReady(db, gs, i, rm) ==> RecordedUpTo(SaveAllFrom(db, gs, i, rm), gs, |gs|)
    decreases if i <= |gs| then |gs| - i else 0
  {
    if i < |gs| {
      SaveTurnReady(db, gs, i, rm);
      SaveAllRecords(SaveTurn(db, gs, i, rm), gs, i + 1, rm);
    }
  }

  /** With every game recorded, the loop writes nothing, whatever its
      calls answer. */
  lemma {:induction false} SaveAllNoop(db: seq<Page>, gs: seq<JungleGame>, i: nat, rm: Remote)
    requires i <= |gs|
    requires forall k :: i <= k < |gs| ==> Recorded(db, gs[k])
    ensures SaveAllFrom(db, gs, i, rm) == db
    decreases |gs| - i
  {
    if i < |gs| {
      SaveAllNoop(db, gs, i + 1, rm);
    }
  }

  /** `handleRefreshRecent`: throws when no scraper can be made; otherwise
      saves the recent games, skipping those already recorded. */
  function HandleRefreshRecent(db: seq<Page>, rm: Remote): (r: Run<()>)
    ensures rm.scraper.None? ==> r.outcome.Thrown? && r.store == db
    ensures rm.scraper.Some? ==> r.outcome.Completed?
  {
    if rm.scraper.None? then Run(db, Thrown("Could not create match scraper"))
    else Run(SaveAllFrom(db, rm.recent, 0, rm), Completed(()))
  }

  /** Refreshing is idempotent: after a refresh in which every call
      succeeded, a second refresh over the same games leaves the store as it
      is, whatever its own calls answer. */
  lemma RefreshIdempotent(db: seq<Page>, rm: Remote, rm2: Remote)
    requires rm.scraper.Some? && Truthy(rm.gamesDb)
    requires forall k :: 0 <= k < |rm.recent| ==> rm.queryUp(k) && rm.createUp(k)
    requires rm2.recent == rm.recent
    ensures var once := HandleRefreshRecent(db, rm).store;
      HandleRefreshRecent(once, rm2).store == once
  {
    var once := HandleRefreshRecent(db, rm).store;
    SaveAllRecords(db, rm.recent, 0, rm);
    SaveAllNoop(once, rm.recent, 0, rm2);
  }

  /** `handleMatchCompleted`: throws when no scraper can be made; does
      nothing when the match is missing or not a jungle game; otherwise
      creates the page with no duplicate check. */
  function HandleMatchCompleted(db: seq<Page>, matchId: string, rm: Remote): (r: Run<()>)
    ensures rm.scraper.None? ==> r.outcome.Thrown? && r.store == db
    ensures rm.scraper.Some? && ScrapeMatch(rm.scraper.value, rm.getMatch(matchId)).None? ==>
      r == Run(db, Completed(()))
    ensures rm.scraper.Some? && ScrapeMatch(rm.scraper.value, rm.getMatch(matchId)).Some? ==>
      (r.outcome.Completed? <==> Truthy(rm.gamesDb) && rm.createUp(0))
      && (r.outcome.Completed? ==>
            r.store == db + [Page(rm.pageId(0), MatchProps(ScrapeMatch(rm.scraper.value, rm.getMatch(matchId)).value, rm.dayOf))])
      && (r.outcome.Thrown? ==> r.store == db)
    ensures r.store != db ==>
      r.store == db + [Page(rm.pageId(0), MatchProps(ScrapeMatch(rm.scraper.value, rm.getMatch(matchId)).value, rm.dayOf))]
  {
    if rm.scraper.None? then Run(db, Thrown("Could not create match scraper"))
    else match ScrapeMatch(rm.scraper.value, rm.getMatch(matchId))
      case None => Run(db, Completed(()))
      case Some(g) =>
        var saved := SaveMatch(db, rm.gamesDb, g, false, true, rm.createUp(0), rm.pageId(0), rm.dayOf);
        Run(saved.store, if saved.outcome.Thrown? then Thrown(saved.outcome.reason) else Completed(()))
  }

  /** The completed-match path does not look for an existing page: the
      same completed match delivered twice is stored twice. */
  lemma MatchCompletedTwice(db: seq<Page>, matchId: string, rm: Remote)
    requires rm.scraper.Some? && Truthy(rm.gamesDb) && rm.createUp(0)
    requires ScrapeMatch(rm.scraper.value, rm.getMatch(matchId)).Some?
    ensures var g := ScrapeMatch(rm.scraper.value, rm.getMatch(matchId)).value;
      var p := Page(rm.pageId(0), MatchProps(g, rm.dayOf));
      HandleMatchCompleted(HandleMatchCompleted(db, matchId, rm).store, matchId, rm).store == db + [p, p]
  {
  }

  /** The two routes key their records differently. In the model's
      schemaless store, the duplicate check of this route does not see a
      page keyed the refresh-games way (match id as a title), and the create
      goes through. A Notion database gives `match_id` a single type and
      would reject one of the two shapes, so this states the disagreement
      between the routes' keyings, not a double record the service would
      accept. */
  lemma DuplicateAcrossRoutes(existing: RefreshGames.NotionGame, pid: string, g: JungleGame,
                              gamesDb: string, id: string, dayOf: int -> string)
    requires g.matchId == existing.matchId && gamesDb != ""
    ensures var db := [Page(pid, RefreshGames.GameProps(existing))];
      var r := SaveMatch(db, Some(gamesDb), g, true, true, true, id, dayOf);
      r.outcome == Completed(Created) && |r.store| == 2
      && RefreshGames.RecordedId(r.store[0]) == g.matchId
      && Satisfies(r.store[1], SameMatch(g))
  {
    var db := [Page(pid, RefreshGames.GameProps(existing))];
    TitleNeverMatchesRichText(db[0], "match_id", g.matchId);
    assert !Recorded(db, g);
    MatchPropsFacts(g, dayOf, g.matchId);
    assert TitleText(RefreshGames.GameProps(existing), "match_id") == Some(existing.matchId);
  }

  /** The HTTP status a request ends with, and the store afterwards. */
  datatype Answer = Answer(store: seq<Page>, status: int)

  function StatusOf(o: Outcome<()>): int
  {
    if o.Thrown? then 500 else 200
  }

  /** `POST`: the secret is checked before the body is read (`body` is None
      when it is not JSON); an unknown action is a 400; a throw while
      handling is a 500. */
  function Post(db: seq<Page>, header: Option<string>, secret: Option<string>, body: Option<Body>,
                rm: Remote): (r: Answer)
    ensures !Authorized(header, secret) ==> r == Answer(db, 401)
    ensures Authorized(header, secret) && body.Some? && Dispatch(body.value).UnknownAction? ==> r == Answer(db, 400)
    ensures Authorized(header, secret) && body.None? ==> r == Answer(db, 500)
    ensures Authorized(header, secret) && body.Some? && Dispatch(body.value).CompleteMatch? ==>
      r.store == HandleMatchCompleted(db, Dispatch(body.value).matchId, rm).store
      && (r.status == 200 <==> HandleMatchCompleted(db, Dispatch(body.value).matchId, rm).outcome.Completed?)
      && (r.status == 200 || r.status == 500)
    ensures Authorized(header, secret) && body.Some? && Dispatch(body.value).RefreshRecent? ==>
      r.store == HandleRefreshRecent(db, rm).store
      && (r.status == 200 <==> rm.scraper.Some?) && (r.status == 200 || r.status == 500)
    ensures r.status == 200 ==> Authorized(header, secret) && body.Some? && !Dispatch(body.value).UnknownAction?
  {
    if !Authorized(header, secret) then Answer(db, 401)
    else if body.None? then Answer(db, 500)
    else match Dispatch(body.value)
      case CompleteMatch(id) =>
        var run := HandleMatchCompleted(db, id, rm);
        Answer(run.store, StatusOf(run.outcome))
      case RefreshRecent =>
        var run := HandleRefreshRecent(db, rm);
        Answer(run.store, StatusOf(run.outcome))
      case UnknownAction => Answer(db, 400)
  }

  /** Without a configured secret every POST is rejected and nothing is
      written. */
  lemma UnsetSecretRejects(db: seq<Page>, header: Option<string>, body: Option<Body>, rm: Remote)
    ensures Post(db, header, None, body, rm) == Answer(db, 401)
  {
  }

  /** `GET`: `?action=refresh` runs the refresh; anything else only
      describes the endpoint. */
  function Get(db: seq<Page>, action: Option<string>, rm: Remote): (r: Answer)
    ensures action != Some("refresh") ==> r == Answer(db, 200)
    ensures action == Some("refresh") ==> r.store == HandleRefreshRecent(db, rm).store
    ensures action == Some("refresh") ==> (r.status == 500 <==> rm.scraper.None?)
  {
    if action == Some("refresh") then
      var run := HandleRefreshRecent(db, rm);
      Answer(run.store, StatusOf(run.outcome))
    else Answer(db, 200)
  }
}
