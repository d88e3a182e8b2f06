/** The refresh-games route: reads the player's recent matches straight
    from the Riot API, keeps the jungle games by the participant's `role` or
    `lane`, reads the games already in the Notion database, and adds the new
    ones one by one, stopping at the first failed add. Riot and Notion calls
    are oracles; `dayOf` stands for the calendar day (`YYYY-MM-DD`) of a time
    stamp. */
module RefreshGames {

  import opened Options
  import opened Text
  import opened Seqs
  import opened RiotTypes
  import opened NotionStore
  import Scraper

  /** A game as this route carries it between Riot and Notion. `deaths` is
      a parse result when read back from Notion. */
  datatype NotionGame = NotionGame(
    matchId: string,
    champion: string,
    result: GameResult,
    deaths: JsInt,
    kda: string,
    gameDate: string)

  /** The route's own jungle test: `role` or `lane` is "JUNGLE", with no
      team-position or Smite rule. */
  predicate KeepsAsJungle(p: Participant)
  {
    p.role == "JUNGLE" || p.lane == "JUNGLE"
  }

  /** The route's filter and the scraper's classifier disagree both ways: a
      participant only the team position marks as jungle is dropped here, and
      one whose `role` alone says jungle is dropped by the scraper. */
  lemma ClassifiersDiffer()
    ensures exists p :: Scraper.IsJungleRole(p) && !KeepsAsJungle(p)
    ensures exists p :: KeepsAsJungle(p) && !Scraper.IsJungleRole(p)
  {
    var byPosition := Participant("x", "Kindred", true, 0, 0, 0, 0, 0, 0, 0, 0, 0, 0,
                                  "JUNGLE", "TOP", "SOLO", 4, 14);
    assert Scraper.IsJungleRole(byPosition) && !KeepsAsJungle(byPosition);
    var byRole := Participant("x", "Kindred", true, 0, 0, 0, 0, 0, 0, 0, 0, 0, 0,
                              "TOP", "TOP", "JUNGLE", 4, 14);
    assert KeepsAsJungle(byRole) && !Scraper.IsJungleRole(byRole);
  }

  /** The record built for one kept match; its id is the requested match id. */
  function ToNotionGame(matchId: string, m: MatchData, p: Participant, dayOf: int -> string): (g: NotionGame)
    ensures g.matchId == matchId && g.champion == p.championName
    ensures g.result == Win <==> p.win
    ensures g.deaths == Num(p.deaths) && KdaDeaths(Some(g.kda)) == g.deaths
  {
    KdaDeathsRoundTrip(p.kills, p.deaths, p.assists);
    NotionGame(matchId, p.championName, ResultOf(p.win), Num(p.deaths),
               KdaText(p.kills, p.deaths, p.assists), dayOf(m.gameCreation))
  }

  /** One turn of the match loop: a record, or nothing when the response is
      not ok, the request throws, the player is missing, or the game is not
      jungle. */
  function GameOf(matchId: string, reply: Reply<MatchData>, puuid: string, dayOf: int -> string): (r: Option<NotionGame>)
    ensures r.Some? <==>
      reply.Ok? && FindParticipant(reply.body.participants, puuid).Some?
      && KeepsAsJungle(FindParticipant(reply.body.participants, puuid).value)
    ensures r.Some? ==> r.value.matchId == matchId && KdaDeaths(Some(r.value.kda)) == r.value.deaths
  {
    if !reply.Ok? then None
    else match FindParticipant(reply.body.participants, puuid)
      case None => None
      case Some(p) => if KeepsAsJungle(p) then Some(ToNotionGame(matchId, reply.body, p, dayOf)) else None
  }

  /** The match loop: every id in turn, skipping only the ids whose turn
      gives nothing. */
  function CollectGames(ids: seq<string>, getMatch: string -> Reply<MatchData>, puuid: string,
                        dayOf: int -> string): (gs: seq<NotionGame>)
    ensures |gs| <= |ids|
    decreases |ids|
  {
    if |ids| == 0 then []
    else
      var head := GameOf(ids[0], getMatch(ids[0]), puuid, dayOf);
      (if head.Some? then [head.value] else []) + CollectGames(ids[1..], getMatch, puuid, dayOf)
  }

  /** A skipped id does not stop the loop: the games of two runs of ids are
      the games of each, in order. */
  lemma {:induction false} CollectGamesAppend(a: seq<string>, b: seq<string>, getMatch: string -> Reply<MatchData>,
                                              puuid: string, dayOf: int -> string)
    ensures CollectGames(a + b, getMatch, puuid, dayOf) ==
      CollectGames(a, getMatch, puuid, dayOf) + CollectGames(b, getMatch, puuid, dayOf)
    decreases |a|
  {
    if |a| > 0 {
      var head := GameOf(a[0], getMatch(a[0]), puuid, dayOf);
      var h := if head.Some? then [head.value] else [];
      assert (a + b)[0] == a[0] && (a + b)[1..] == a[1..] + b;
      assert CollectGames(a + b, getMatch, puuid, dayOf) == h + CollectGames(a[1..] + b, getMatch, puuid, dayOf);
      assert CollectGames(a, getMatch, puuid, dayOf) == h + CollectGames(a[1..], getMatch, puuid, dayOf);
      CollectGamesAppend(a[1..], b, getMatch, puuid, dayOf);
    } else {
      assert a + b == b;
    }
  }

  /** Every collected game comes from a requested id whose turn produced
      it, so its stored kda reads back to its deaths. */
  lemma {:induction false} CollectGamesSound(ids: seq<string>, getMatch: string -> Reply<MatchData>,
                                             puuid: string, dayOf: int -> string, g: NotionGame)
    requires g in CollectGames(ids, getMatch, puuid, dayOf)
    ensures g.matchId in ids
    ensures GameOf(g.matchId, getMatch(g.matchId), puuid, dayOf) == Some(g)
    ensures KdaDeaths(Some(g.kda)) == g.deaths
    decreases |ids|
  {
    var head := GameOf(ids[0], getMatch(ids[0]), puuid, dayOf);
    if head.Some? && g == head.value {
    } else {
      CollectGamesSound(ids[1..], getMatch, puuid, dayOf, g);
    }
  }

  /** What fetching from Riot gave and how many requests it made. */
  datatype Fetched = Fetched(outcome: Outcome<seq<NotionGame>>, requests: nat)

  /** `fetchRiotRecentGames`: the summoner lookup, the match-id list (ten
      ranked solo ids), then one request per id. A missing key throws before
      any request; a failed lookup or list throws; a failed match is
      skipped. */
  function FetchRiotRecentGames(riotKey: Option<string>, summoner: Reply<string>, matchList: Reply<seq<string>>,
                                getMatch: string -> Reply<MatchData>, dayOf: int -> string): (f: Fetched)
    ensures f.outcome.Thrown? <==> !Truthy(riotKey) || !summoner.Ok? || !matchList.Ok?
    ensures !Truthy(riotKey) ==> f.requests == 0
    ensures f.outcome.Completed? ==>
      f.requests == 2 + |matchList.body| && |f.outcome.value| <= |matchList.body|
  {
    if !Truthy(riotKey) then Fetched(Thrown("RIOT_API_KEY not found in environment variables"), 0)
    else if !summoner.Ok? then Fetched(Thrown("Summoner API error"), 1)
    else if !matchList.Ok? then Fetched(Thrown("Match list API error"), 2)
    else
      var ids := matchList.body;
      Fetched(Completed(CollectGames(ids, getMatch, summoner.body, dayOf)), 2 + |ids|)
  }

  /** A page of the games database read back as a record: missing text
      reads as "", the result through the Win/Loss select, deaths from the
      second piece of the kda text. */
  function ParseExisting(p: Page): (g: NotionGame)
    ensures g.matchId == OrElse(TitleText(p.properties, "match_id"), "")
    ensures g.result == Win <==> SelectName(p.properties, "result") == Some("Win")
    ensures g.deaths == KdaDeaths(RichTextOf(p.properties, "kda"))
  {
    var ps := p.properties;
    NotionGame(
      OrElse(TitleText(ps, "match_id"), ""),
      OrElse(RichTextOf(ps, "champion"), ""),
      ResultFromSelect(SelectName(ps, "result")),
      KdaDeaths(RichTextOf(ps, "kda")),
      OrElse(RichTextOf(ps, "kda"), ""),
      OrElse(DateStart(ps, "game_date"), ""))
  }

  function ParseAll(pages: seq<Page>): (gs: seq<NotionGame>)
    ensures |gs| == |pages| && forall i :: 0 <= i < |pages| ==> gs[i] == ParseExisting(pages[i])
  {
    seq(|pages|, i requires 0 <= i < |pages| => ParseExisting(pages[i]))
  }

  /** `getExistingGames`: throws when the Notion settings are missing or
      the query fails. */
  function GetExistingGames(notionToken: Option<string>, dbId: Option<string>, db: seq<Page>,
                            notionUp: bool): (r: Outcome<seq<NotionGame>>)
    ensures r.Completed? <==> Truthy(notionToken) && Truthy(dbId) && notionUp
    ensures r.Completed? ==> r.value == ParseAll(Query(db, JunglePages, 100))
  {
    if !Truthy(notionToken) || !Truthy(dbId) then Thrown("Missing Notion environment variables")
    else if !notionUp then Thrown("Notion API error")
    else Completed(ParseAll(Query(db, JunglePages, 100)))
  }

  /** The properties `addGameToNotion` writes: match_id as a title, the
      result as the Win/Loss select, role JUNGLE, not analyzed, session
      "Auto-sync". */
  function GameProps(g: NotionGame): Props
  {
    map[
      "match_id" := TitleProp(g.matchId),
      "champion" := RichProp(g.champion),
      "result" := Select(Some(ResultSelect(g.result))),
      "kda" := RichProp(g.kda),
      "role" := Select(Some("JUNGLE")),
      "game_date" := Date(Some(g.gameDate)),
      "analyzed" := Checkbox(false),
      "session" := RichProp("Auto-sync")]
  }

  /** Storing a fetched game and reading it back gives the same record:
      match id, champion, result (WIN to Win to WIN, LOSS to Loss to LOSS),
      deaths re-parsed from the kda text, and date. The stored page is one
      of the jungle pages the next read looks at. */
  lemma StoreRoundTrip(id: string, g: NotionGame)
    requires KdaDeaths(Some(g.kda)) == g.deaths
    ensures ParseExisting(Page(id, GameProps(g))) == g
    ensures Satisfies(Page(id, GameProps(g)), JunglePages)
  {
    var ps := GameProps(g);
    GamePropsFields(g);
    ResultSelectRoundTrip(g.result);
    var e := ParseExisting(Page(id, ps));
    assert TitleText(ps, "match_id") == Some(g.matchId);
    assert RichTextOf(ps, "champion") == Some(g.champion);
    assert SelectName(ps, "result") == Some(ResultSelect(g.result));
    assert RichTextOf(ps, "kda") == Some(g.kda);
    assert DateStart(ps, "game_date") == Some(g.gameDate);
    assert e.matchId == g.matchId && e.champion == g.champion && e.result == g.result;
    assert e.deaths == g.deaths && e.kda == g.kda && e.gameDate == g.gameDate;
    assert SelectName(ps, "role") == Some("JUNGLE");
  }

  /** The entries of a written page, one by one. */
  lemma GamePropsFields(g: NotionGame)
    ensures var ps := GameProps(g);
      "match_id" in ps && ps["match_id"] == TitleProp(g.matchId)
      && "champion" in ps && ps["champion"] == RichProp(g.champion)
      && "result" in ps && ps["result"] == Select(Some(ResultSelect(g.result)))
      && "kda" in ps && ps["kda"] == RichProp(g.kda)
      && "role" in ps && ps["role"] == Select(Some("JUNGLE"))
      && "game_date" in ps && ps["game_date"] == Date(Some(g.gameDate))
  {
  }

  /** A fetched game is new when no existing record has its match id. */
  function IsNew(existing: seq<NotionGame>): NotionGame -> bool
  {
    (g: NotionGame) => forall e :: e in existing ==> e.matchId != g.matchId
  }

  /** `newGames`: the fetched games whose match id no existing record has,
      in fetched order. */
  function NewGames(riot: seq<NotionGame>, existing: seq<NotionGame>): (r: seq<NotionGame>)
    ensures forall i :: 0 <= i < |r| ==> r[i] in riot && forall e :: e in existing ==> e.matchId != r[i].matchId
    ensures forall i :: 0 <= i < |riot| && (forall e :: e in existing ==> e.matchId != riot[i].matchId) ==> riot[i] in r
  {
    Filter(riot, IsNew(existing))
  }

  /** A fetched game already recorded is never new, and when every
      fetched id is recorded there is nothing to add. */
  lemma NewGamesNone(riot: seq<NotionGame>, existing: seq<NotionGame>)
    requires forall i :: 0 <= i < |riot| ==> exists e :: e in existing && e.matchId == riot[i].matchId
    ensures NewGames(riot, existing) == []
  {
    forall i | 0 <= i < |riot|
      ensures !IsNew(existing)(riot[i])
    {
      var e :| e in existing && e.matchId == riot[i].matchId;
    }
    CountExtremes(riot, IsNew(existing));
  }

  /** The add loop's state: the store, how many adds succeeded, and whether
      one failed. */
  datatype AddRun = AddRun(store: seq<Page>, added: nat, failed: bool)

  /** The new pages of the first `n` games, page k with id `pageId(k)`. */
  function AddedPages(gs: seq<NotionGame>, n: nat, pageId: nat -> string): (ps: seq<Page>)
    requires n <= |gs|
    ensures |ps| == n
    ensures forall k :: 0 <= k < n ==> ps[k] == Page(pageId(k), GameProps(gs[k]))
  {
    seq(n, k requires 0 <= k < n => Page(pageId(k), GameProps(gs[k])))
  }

  /** The add loop from game `i` on: add k succeeds when `createUp(k)`; the
      first failure throws out of the loop. */
  function AddFrom(db: seq<Page>, gs: seq<NotionGame>, i: nat, createUp: nat -> bool,
                   pageId: nat -> string): AddRun
    requires i <= |gs|
    decreases |gs| - i
  {
    if i == |gs| then AddRun(db, i, false)
    else if !createUp(i) then AddRun(db, i, true)
    else AddFrom(db + [Page(pageId(i), GameProps(gs[i]))], gs, i + 1, createUp, pageId)
  }

  lemma {:induction false} AddFromFacts(db: seq<Page>, gs: seq<NotionGame>, i: nat, createUp: nat -> bool,
                                        pageId: nat -> string, prior: seq<Page>)
    requires i <= |gs| && db == prior + AddedPages(gs, i, pageId)
    ensures var r := AddFrom(db, gs, i, createUp, pageId);
      i <= r.added <= |gs|
      && (forall k :: i <= k < r.added ==> createUp(k))
      && (r.failed <==> r.added < |gs|)
      && (r.failed ==> !createUp(r.added))
      && r.store == prior + AddedPages(gs, r.added, pageId)
    decreases |gs| - i
  {
    if i < |gs| && createUp(i) {
      var next := db + [Page(pageId(i), GameProps(gs[i]))];
      assert next == prior + AddedPages(gs, i + 1, pageId);
      AddFromFacts(next, gs, i + 1, createUp, pageId, prior);
    }
  }

  /** The add loop: the pages of the games before the first failed add are
      appended in order, and nothing after it is tried. */
  function AddNewGames(db: seq<Page>, gs: seq<NotionGame>, createUp: nat -> bool, pageId: nat -> string): (r: AddRun)
    ensures r.added <= |gs|
    ensures forall k :: 0 <= k < r.added ==> createUp(k)
    ensures r.failed <==> r.added < |gs|
    ensures r.failed ==> !createUp(r.added)
    ensures r.store == db + AddedPages(gs, r.added, pageId)
  {
    AddFromFacts(db, gs, 0, createUp, pageId, db);
    AddFrom(db, gs, 0, createUp, pageId)
  }

  /** The last event of the stream. */
  datatype StreamEnd = Success(gamesFound: nat, gamesAdded: nat) | StreamError(reason: string)

  /** The remote side of one POST: the Riot and Notion oracles. */
  datatype Remote = Remote(
    riotKey: Option<string>,
    notionToken: Option<string>,
    dbId: Option<string>,
    summoner: Reply<string>,
    matchList: Reply<seq<string>>,
    getMatch: string -> Reply<MatchData>,
    dayOf: int -> string,
    notionUp: bool,
    createUp: nat -> bool,
    pageId: nat -> string)

  /** `POST`: fetch, read existing, add the new games; any throw ends the
      stream with an error after whatever adds already happened. */
  function Refresh(db: seq<Page>, rm: Remote): (r: (seq<Page>, StreamEnd))
  {
    var fetched := FetchRiotRecentGames(rm.riotKey, rm.summoner, rm.matchList, rm.getMatch, rm.dayOf);
    if fetched.outcome.Thrown? then (db, StreamError(fetched.outcome.reason))
    else
      var riot := fetched.outcome.value;
      var existing := GetExistingGames(rm.notionToken, rm.dbId, db, rm.notionUp);
      if existing.Thrown? then (db, StreamError(existing.reason))
      else
        var run := AddNewGames(db, NewGames(riot, existing.value), rm.createUp, rm.pageId);
        if run.failed then (run.store, StreamError("Failed to add game to Notion"))
        else (run.store, Success(|riot|, run.added))
  }

  /** What one run does: nothing is written unless both reads succeed; the
      pages written are those of the new games up to the first failed add;
      success reports every fetched game as found and every new game as
      added. */
  lemma RefreshFacts(db: seq<Page>, rm: Remote)
    ensures var db' := Refresh(db, rm).0;
      var end := Refresh(db, rm).1;
      var fetched := FetchRiotRecentGames(rm.riotKey, rm.summoner, rm.matchList, rm.getMatch, rm.dayOf);
      var existing := GetExistingGames(rm.notionToken, rm.dbId, db, rm.notionUp);
      (fetched.outcome.Thrown? || existing.Thrown? ==> db' == db && end.StreamError?)
      && (fetched.outcome.Completed? && existing.Completed? ==>
            var newGames := NewGames(fetched.outcome.value, existing.value);
            exists n :: 0 <= n <= |newGames| && db' == db + AddedPages(newGames, n, rm.pageId)
              && (end.Success? <==> n == |newGames|)
              && (end.Success? ==> end == Success(|fetched.outcome.value|, |newGames|)))
  {
    var fetched := FetchRiotRecentGames(rm.riotKey, rm.summoner, rm.matchList, rm.getMatch, rm.dayOf);
    var existing := GetExistingGames(rm.notionToken, rm.dbId, db, rm.notionUp);
    if fetched.outcome.Completed? && existing.Completed? {
      var newGames := NewGames(fetched.outcome.value, existing.value);
      var run := AddNewGames(db, newGames, rm.createUp, rm.pageId);
      assert 0 <= run.added <= |newGames| && Refresh(db, rm).0 == db + AddedPages(newGames, run.added, rm.pageId);
    }
  }

  /** The match id a page is read back with. */
  function RecordedId(p: Page): string
  {
    OrElse(TitleText(p.properties, "match_id"), "")
  }

  /** Every id recorded on a jungle page of a store with at most 100 jungle
      pages is read back as existing. */
  lemma RecordedIsExisting(db: seq<Page>, id: string)
    requires |Matching(db, JunglePages)| <= 100
    requires exists j :: 0 <= j < |db| && Satisfies(db[j], JunglePages) && RecordedId(db[j]) == id
    ensures exists e :: e in ParseAll(Query(db, JunglePages, 100)) && e.matchId == id
  {
    var j :| 0 <= j < |db| && Satisfies(db[j], JunglePages) && RecordedId(db[j]) == id;
    var pages := Query(db, JunglePages, 100);
    assert db[j] in pages;
    var k :| 0 <= k < |pages| && pages[k] == db[j];
    assert ParseAll(pages)[k] == ParseExisting(db[j]);
  }

  /** A game added by the loop is recorded on a jungle page of the store
      afterwards. */
  lemma AddedIsRecorded(db: seq<Page>, newGames: seq<NotionGame>, pageId: nat -> string, k: nat)
    requires k < |newGames|
    ensures var db' := db + AddedPages(newGames, |newGames|, pageId);
      Satisfies(db'[|db| + k], JunglePages) && RecordedId(db'[|db| + k]) == newGames[k].matchId
  {
    var db' := db + AddedPages(newGames, |newGames|, pageId);
    assert db'[|db| + k] == Page(pageId(k), GameProps(newGames[k]));
    assert TitleText(GameProps(newGames[k]), "match_id") == Some(newGames[k].matchId);
    assert SelectName(GameProps(newGames[k]), "role") == Some("JUNGLE");
  }

  /** A game read back as existing is recorded on a jungle page of the
      store it was read from. */
  lemma ExistingIsRecorded(db: seq<Page>, e: NotionGame)
    requires e in ParseAll(Query(db, JunglePages, 100))
    ensures exists j :: 0 <= j < |db| && Satisfies(db[j], JunglePages) && RecordedId(db[j]) == e.matchId
  {
    var pages := Query(db, JunglePages, 100);
    var k :| 0 <= k < |pages| && ParseAll(pages)[k] == e;
    var p := pages[k];
    assert p in db && Satisfies(p, JunglePages);
    var j :| 0 <= j < |db| && db[j] == p;
    assert RecordedId(db[j]) == e.matchId;
  }

  /** After a successful run, the store holds a jungle page recorded with
      the match id of every fetched game. */
  lemma RefreshRecordsAll(db: seq<Page>, rm: Remote)
    requires Refresh(db, rm).1.Success?
    ensures var fetched := FetchRiotRecentGames(rm.riotKey, rm.summoner, rm.matchList, rm.getMatch, rm.dayOf);
      forall i :: 0 <= i < |fetched.outcome.value| ==> StoredId(Refresh(db, rm).0, fetched.outcome.value[i].matchId)
  {
    var fetched := FetchRiotRecentGames(rm.riotKey, rm.summoner, rm.matchList, rm.getMatch, rm.dayOf);
    var riot := fetched.outcome.value;
    var existing := GetExistingGames(rm.notionToken, rm.dbId, db, rm.notionUp).value;
    var newGames := NewGames(riot, existing);
    assert Refresh(db, rm).0 == db + AddedPages(newGames, |newGames|, rm.pageId) by {
      RefreshFacts(db, rm);
    }
    AllFetchedStored(db, riot, existing, rm.pageId);
  }

  /** Each fetched game is either among the new games, which are appended,
      or already recorded by an existing page. */
  lemma AllFetchedStored(db: seq<Page>, riot: seq<NotionGame>, existing: seq<NotionGame>, pageId: nat -> string)
    requires existing == ParseAll(Query(db, JunglePages, 100))
    ensures var newGames := NewGames(riot, existing);
      forall i :: 0 <= i < |riot| ==> StoredId(db + AddedPages(newGames, |newGames|, pageId), riot[i].matchId)
  {
    var newGames := NewGames(riot, existing);
    var added := AddedPages(newGames, |newGames|, pageId);
    forall i | 0 <= i < |riot|
      ensures StoredId(db + added, riot[i].matchId)
    {
      if riot[i] in newGames {
        var k :| 0 <= k < |newGames| && newGames[k] == riot[i];
        AddedIsRecorded(db, newGames, pageId, k);
      } else {
        var e :| e in existing && e.matchId == riot[i].matchId;
        ExistingIsRecorded(db, e);
        StoredIdGrows(db, added, e.matchId);
      }
    }
  }

  /** Some jungle page of the store records the match id. */
  predicate StoredId(db: seq<Page>, id: string)
  {
    exists j :: 0 <= j < |db| && Satisfies(db[j], JunglePages) && RecordedId(db[j]) == id
  }

  /** Appending pages keeps every recorded match id recorded. */
  lemma StoredIdGrows(db: seq<Page>, extra: seq<Page>, id: string)
    ensures StoredId(db, id) ==> StoredId(db + extra, id)
  {
    if StoredId(db, id) {
      var j :| 0 <= j < |db| && Satisfies(db[j], JunglePages) && RecordedId(db[j]) == id;
      assert (db + extra)[j] == db[j];
    }
  }

  /** Running the route again with the same Riot answers adds nothing, as
      long as the store holds at most 100 jungle pages (the read of
      existing games sees only the first 100). */
  lemma RefreshIdempotent(db: seq<Page>, rm: Remote, rm2: Remote)
    requires Refresh(db, rm).1.Success?
    requires |Matching(Refresh(db, rm).0, JunglePages)| <= 100
    requires rm2.riotKey == rm.riotKey && rm2.summoner == rm.summoner && rm2.matchList == rm.matchList
    requires rm2.getMatch == rm.getMatch && rm2.dayOf == rm.dayOf
    requires rm2.notionToken == rm.notionToken && rm2.dbId == rm.dbId && rm2.notionUp
    ensures var db' := Refresh(db, rm).0;
      Refresh(db', rm2) == (db', Success(Refresh(db, rm).1.gamesFound, 0))
  {
    var db' := Refresh(db, rm).0;
    RefreshRecordsAll(db, rm);
    var fetched := FetchRiotRecentGames(rm.riotKey, rm.summoner, rm.matchList, rm.getMatch, rm.dayOf);
    var riot := fetched.outcome.value;
    var existing := ParseAll(Query(db', JunglePages, 100));
    forall i | 0 <= i < |riot|
      ensures exists e :: e in existing && e.matchId == riot[i].matchId
    {
      RecordedIsExisting(db', riot[i].matchId);
    }
    NewGamesNone(riot, existing);
    RefreshFacts(db, rm);
  }
}
