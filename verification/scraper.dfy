/** The match scraper: recognises the tracked player's jungle games in
    match data, projects them into game records, collects the most recent
    ones from the ranked solo queue, and summarises a list of games. The
    Riot client's answers are oracles (what each request would return or
    raise). */
module Scraper {

  import opened Options
  import opened Text
  import opened Seqs
  import opened Sorting
  import opened Config
  import opened Client
  import opened RiotTypes
  import opened Champions
  import opened Analytics

  /** The summoner spell id of Smite. */
  const SmiteId := 11

  /** Jungle monsters a game needs for the Smite fallback to apply
      (strictly more than this many). */
  const JungleCsThreshold := 50

  predicate HasSmite(p: Participant)
  {
    p.summoner1Id == SmiteId || p.summoner2Id == SmiteId
  }

  /** `isJungleRole`: the team position, then the lane, then Smite together
      with more than 50 jungle monsters. */
  function IsJungleRole(p: Participant): (r: bool)
    ensures p.teamPosition == "JUNGLE" ==> r
    ensures p.lane == "JUNGLE" ==> r
    ensures p.teamPosition != "JUNGLE" && p.lane != "JUNGLE" ==>
      (r <==> HasSmite(p) && p.neutralMinionsKilled > JungleCsThreshold)
  {
    if p.teamPosition == "JUNGLE" then true
    else if p.lane == "JUNGLE" then true
    else HasSmite(p) && p.neutralMinionsKilled > JungleCsThreshold
  }

  /** The game record built from a match and the tracked participant. */
  function Project(m: MatchData, p: Participant): JungleGame
  {
    JungleGame(
      m.matchId, p.championName, ResultOf(p.win),
      KdaText(p.kills, p.deaths, p.assists),
      p.deaths, p.kills, p.assists,
      p.totalMinionsKilled + p.neutralMinionsKilled, p.neutralMinionsKilled,
      m.gameCreation, m.gameDuration,
      p.visionScore, p.damageDealtToObjectives, p.wardsPlaced, p.wardsKilled, p.goldEarned,
      p.teamPosition, m.gameVersion, m.queueId)
  }

  /** `parseJungleGame`: null when the tracked player is not in the match or
      did not play jungle. */
  function ParseJungleGame(m: MatchData, puuid: string): (r: Option<JungleGame>)
    ensures r.None? <==>
      FindParticipant(m.participants, puuid).None?
      || !IsJungleRole(FindParticipant(m.participants, puuid).value)
    ensures r.Some? ==> r.value == Project(m, FindParticipant(m.participants, puuid).value)
  {
    match FindParticipant(m.participants, puuid)
    case None => None
    case Some(p) => if IsJungleRole(p) then Some(Project(m, p)) else None
  }

  /** What a parsed game says about the match: it comes from a jungle
      participant with the tracked puuid; its kda text reads back to its
      deaths; its CS is lane plus jungle CS; its result is a win exactly when
      the participant won. */
  lemma ParsedGameFacts(m: MatchData, puuid: string)
    requires ParseJungleGame(m, puuid).Some?
    ensures var g := ParseJungleGame(m, puuid).value;
      (exists i :: 0 <= i < |m.participants| && m.participants[i].puuid == puuid
         && IsJungleRole(m.participants[i])
         && g.deaths == m.participants[i].deaths
         && g.jungleCS == m.participants[i].neutralMinionsKilled
         && g.cs == m.participants[i].totalMinionsKilled + g.jungleCS
         && (g.result == Win <==> m.participants[i].win))
      && g.matchId == m.matchId && g.gameDate == m.gameCreation
      && KdaDeaths(Some(g.kda)) == Num(g.deaths)
      && g.cs >= g.jungleCS
  {
    var p := FindParticipant(m.participants, puuid).value;
    KdaDeathsRoundTrip(p.kills, p.deaths, p.assists);
  }

  /** The tracked player. */
  datatype Scraper = Scraper(puuid: string)

  /** The match-list request `scrapeRecentMatches(count)` makes: ranked solo
      queue, twice as many ids as games wanted. */
  function RecentRequest(s: Scraper, count: nat): Endpoint
  {
    MatchHistory(s.puuid, HistoryOptions(Some(QueueId(RankedSolo)), None, None, Some(count * 2)))
  }

  /** The request asks for queue 420 and, for a positive count, 2*count
      ids. */
  lemma RecentRequestQuery(s: Scraper, count: nat)
    ensures var o := RecentRequest(s, count).options;
      QueryParams(o) == [("queue", "420")] + (if count > 0 then [("count", IntToString(count * 2))] else [])
  {
    assert NatToString(4) == "4" && NatToString(42) == "42";
    assert NatToString(420) == "420";
  }

  /** The jungle games found in fetched matches (`filter(Boolean)`, `map`
      through the parser, `filter` out nulls), in fetch order. */
  function JungleGames(ms: seq<Option<MatchData>>, puuid: string): (gs: seq<JungleGame>)
    ensures |gs| <= |ms|
    decreases |ms|
  {
    if |ms| == 0 then []
    else
      var head := if ms[0].Some? && ParseJungleGame(ms[0].value, puuid).Some?
        then [ParseJungleGame(ms[0].value, puuid).value] else [];
      head + JungleGames(ms[1..], puuid)
  }

  /** Every game found is the parse of a fetched match. */
  lemma {:induction false} JungleGamesSound(ms: seq<Option<MatchData>>, puuid: string, g: JungleGame)
    requires g in JungleGames(ms, puuid)
    ensures exists j :: 0 <= j < |ms| && ms[j].Some? && ParseJungleGame(ms[j].value, puuid) == Some(g)
    decreases |ms|
  {
    var head := if ms[0].Some? && ParseJungleGame(ms[0].value, puuid).Some?
      then [ParseJungleGame(ms[0].value, puuid).value] else [];
    if g in head {
      assert ParseJungleGame(ms[0].value, puuid) == Some(g);
    } else {
      assert g in JungleGames(ms[1..], puuid);
      JungleGamesSound(ms[1..], puuid, g);
      var j :| 0 <= j < |ms[1..]| && ms[1..][j].Some? && ParseJungleGame(ms[1..][j].value, puuid) == Some(g);
      assert ms[j + 1] == ms[1..][j];
    }
  }

  /** Every jungle game of a fetched match is found. */
  lemma {:induction false} JungleGamesComplete(ms: seq<Option<MatchData>>, puuid: string, j: nat)
    requires j < |ms| && ms[j].Some? && ParseJungleGame(ms[j].value, puuid).Some?
    ensures ParseJungleGame(ms[j].value, puuid).value in JungleGames(ms, puuid)
    decreases j
  {
    if j > 0 {
      JungleGamesComplete(ms[1..], puuid, j - 1);
    }
  }

  function DateKey(g: JungleGame): real { g.gameDate as real }

  /** Most recent first, then the first `count`. */
  function MostRecent(gs: seq<JungleGame>, count: nat): seq<JungleGame>
  {
    Take(ByOne(DateKey, gs), count)
  }

  /** At most `count` games, newest first, all taken from the input; any
      game left out is no newer than every game kept, and then `count` were
      kept. */
  lemma MostRecentFacts(gs: seq<JungleGame>, count: nat)
    ensures var r := MostRecent(gs, count);
      |r| <= count
      && (forall i, j :: 0 <= i < j < |r| ==> r[i].gameDate >= r[j].gameDate)
      && multiset(r) <= multiset(gs)
      && (forall x :: x in r ==> x in gs)
      && (forall x :: x in gs && x !in r ==> |r| == count && forall y :: y in r ==> y.gameDate >= x.gameDate)
  {
    var sorted := ByOne(DateKey, gs);
    SortDescCorrect(DateKey, (_: JungleGame) => 0.0, gs);
    var r := MostRecent(gs, count);
    TakeSubMultiset(sorted, count);
    forall x | x in r
      ensures x in gs
    {
      assert x in multiset(sorted);
    }
    forall x | x in gs && x !in r
      ensures |r| == count && forall y :: y in r ==> y.gameDate >= x.gameDate
    {
      assert x in multiset(sorted);
      TakeOfSorted(DateKey, (_: JungleGame) => 0.0, sorted, count, x);
    }
  }

  /** `scrapeRecentMatches(count)`. `history` is the outcome of the match-list
      request and `getMatch` that of each match request. A failed, null or
      empty match list, or any failing match request, yields no games. */
  method ScrapeRecentMatches(s: Scraper, count: nat, history: Attempt<Option<seq<string>>>,
                             getMatch: string -> Attempt<Option<MatchData>>)
    returns (games: seq<JungleGame>)
    ensures |games| <= count
    ensures !(history.Done? && history.value.Some? && |history.value.value| > 0) ==> games == []
    ensures history.Done? && history.value.Some? && !AllDone(history.value.value, getMatch) ==> games == []
    ensures history.Done? && history.value.Some? && AllDone(history.value.value, getMatch) ==>
      var ids := history.value.value;
      games == MostRecent(JungleGames(seq(|ids|, i requires 0 <= i < |ids| => getMatch(ids[i]).value), s.puuid), count)
  {
    if !(history.Done? && history.value.Some? && |history.value.value| > 0) {
      return [];
    }
    var ids := history.value.value;
    var r, _, _ := GetMatches(ids, getMatch);
    if r.Raised? {
      return [];
    }
    assert r.value == seq(|ids|, i requires 0 <= i < |ids| => getMatch(ids[i]).value);
    games := MostRecent(JungleGames(r.value, s.puuid), count);
  }

  /** The default of `scrapeRecentMatches(count = 20)`. */
  const DefaultRecentCount: nat := 20

  /** `scrapeRecentMatches(count)` as called, the count optional: with none
      given, the twenty most recent jungle games of a complete history. */
  method RecentMatches(s: Scraper, count: Option<nat>, history: Attempt<Option<seq<string>>>,
                       getMatch: string -> Attempt<Option<MatchData>>)
    returns (games: seq<JungleGame>)
    ensures count.None? ==> |games| <= DefaultRecentCount
    ensures count.Some? ==> |games| <= count.value
    ensures count.None? && history.Done? && history.value.Some? && AllDone(history.value.value, getMatch) ==>
      var ids := history.value.value;
      games == MostRecent(JungleGames(seq(|ids|, i requires 0 <= i < |ids| => getMatch(ids[i]).value), s.puuid),
                          DefaultRecentCount)
  {
    games := ScrapeRecentMatches(s, count.GetOr(DefaultRecentCount), history, getMatch);
  }

  /** `scrapeMatch`: the parsed game of a fetched match; nothing when the
      request fails or finds no match. */
  function ScrapeMatch(s: Scraper, outcome: Attempt<Option<MatchData>>): (r: Option<JungleGame>)
    ensures r.Some? <==> outcome.Done? && outcome.value.Some? && ParseJungleGame(outcome.value.value, s.puuid).Some?
  {
    if outcome.Done? && outcome.value.Some? then ParseJungleGame(outcome.value.value, s.puuid) else None
  }

  /** The account the scraper is built for. */
  const FeraxinAccount := AccountByRiotId("Feraxin", "EUNE")

  /** `createFeraxinScraper`: a scraper for the account's puuid, or nothing
      when the lookup fails or finds no account. */
  function CreateFeraxinScraper(account: Attempt<Option<AccountData>>): (r: Option<Scraper>)
    ensures r.Some? <==> account.Done? && account.value.Some?
    ensures r.Some? ==> r.value.puuid == account.value.value.puuid
  {
    if account.Done? && account.value.Some? then Some(Scraper(account.value.value.puuid)) else None
  }

  /** A favourite champion's line. */
  datatype Favorite = Favorite(champion: string, games: nat, winrate: real, avgDeaths: real)

  function FavWinrate(f: Favorite): real { f.winrate }
  predicate TwoPlus(f: Favorite) { f.games >= 2 }

  /** The per-champion lines before filtering, in first-play order. */
  function FavoriteLines(gs: seq<JungleGame>): (fs: seq<Favorite>)
    ensures |fs| == |Group(gs)|
  {
    var aggs := Group(gs);
    GroupFacts(gs);
    seq(|aggs|, i requires 0 <= i < |aggs| =>
      Favorite(aggs[i].champion, aggs[i].games, aggs[i].wins as real / aggs[i].games as real * 100.0,
               aggs[i].deaths as real / aggs[i].games as real))
  }

  /** `getFavoriteChampions`: champions with two or more games, best win
      rate first, at most five. */
  function FavoriteChampions(gs: seq<JungleGame>): seq<Favorite>
  {
    Take(ByOne(FavWinrate, Filter(FavoriteLines(gs), TwoPlus)), 5)
  }

  /** Each line reports its champion's totals. */
  lemma FavoriteLinesFacts(gs: seq<JungleGame>)
    ensures forall i :: 0 <= i < |FavoriteLines(gs)| ==>
      var f := FavoriteLines(gs)[i];
      f.games == Tally(gs, f.champion, One) >= 1
      && f.winrate == Tally(gs, f.champion, WinCount) as real / f.games as real * 100.0
      && f.avgDeaths == Tally(gs, f.champion, DeathsOf) as real / f.games as real
      && f.champion in Played(gs)
  {
    var aggs := Group(gs);
    GroupFacts(gs);
    forall i | 0 <= i < |aggs|
      ensures aggs[i].champion in Played(gs)
    {
      assert aggs[i] in aggs;
      assert aggs[i].champion in AggNames(aggs);
    }
    forall i | 0 <= i < |aggs|
      ensures Accounts(gs, aggs[i])
    {
    }
  }

  /** At most five lines, each for a champion with two or more games, best
      win rate first. */
  lemma FavoritesSorted(gs: seq<JungleGame>)
    ensures var r := FavoriteChampions(gs);
      |r| <= 5
      && (forall i :: 0 <= i < |r| ==> r[i].games >= 2 && r[i] in FavoriteLines(gs))
      && (forall i, j :: 0 <= i < j < |r| ==> r[i].winrate >= r[j].winrate)
  {
    var kept := Filter(FavoriteLines(gs), TwoPlus);
    var sorted := ByOne(FavWinrate, kept);
    SortDescCorrect(FavWinrate, (_: Favorite) => 0.0, kept);
    forall i | 0 <= i < |FavoriteChampions(gs)|
      ensures sorted[i].games >= 2 && sorted[i] in FavoriteLines(gs)
    {
      assert sorted[i] in multiset(kept);
    }
  }

  /** A champion with two or more games that is left out means five were
      kept, none with a lower win rate. */
  lemma FavoritesTopFive(gs: seq<JungleGame>, f: Favorite)
    requires f in FavoriteLines(gs) && f.games >= 2 && f !in FavoriteChampions(gs)
    ensures |FavoriteChampions(gs)| == 5
    ensures forall y :: y in FavoriteChampions(gs) ==> y.winrate >= f.winrate
  {
    var lines := FavoriteLines(gs);
    var kept := Filter(lines, TwoPlus);
    var sorted := ByOne(FavWinrate, kept);
    SortDescCorrect(FavWinrate, (_: Favorite) => 0.0, kept);
    var j :| 0 <= j < |lines| && lines[j] == f;
    assert f in kept;
    assert f in multiset(sorted);
    TakeOfSorted(FavWinrate, (_: Favorite) => 0.0, sorted, 5, f);
  }

  /** The overview `getJungleStats` returns. */
  datatype JungleStats = JungleStats(
    totalGames: nat,
    wins: nat,
    losses: int,
    winrate: real,
    avgDeaths: real,
    avgVisionScore: real,
    avgObjectivesDamage: real,
    protocolCompliance: real,
    recentForm: string,
    favoriteChampions: seq<Favorite>)

  function VisionScores(gs: seq<JungleGame>): (xs: seq<real>)
    ensures |xs| == |gs| && forall i :: 0 <= i < |gs| ==> xs[i] == gs[i].visionScore as real
  {
    seq(|gs|, i requires 0 <= i < |gs| => gs[i].visionScore as real)
  }

  /** `getJungleStats`: null for no games. */
  function GetJungleStats(gs: seq<JungleGame>): (r: Option<JungleStats>)
    ensures r.None? <==> |gs| == 0
    ensures r.Some? ==> r.value.totalGames == |gs| && r.value.wins + r.value.losses == r.value.totalGames
    ensures r.Some? ==> 0.0 <= r.value.winrate <= 100.0 && 0.0 <= r.value.protocolCompliance <= 100.0
    ensures r.Some? ==> r.value.wins == Count(gs, IsWin) && Times(r.value.winrate, |gs|) == r.value.wins as real * 100.0
    ensures r.Some? ==> r.value.winrate == Winrate(gs) && r.value.avgDeaths == AvgDeaths(gs)
                        && r.value.protocolCompliance == ProtocolCompliance(gs)
    ensures r.Some? ==> Times(r.value.avgVisionScore, |gs|) == Sum(VisionScores(gs))
    ensures r.Some? ==> Times(r.value.avgObjectivesDamage, |gs|) == Sum(ObjectiveDamage(gs))
  {
    if |gs| == 0 then None
    else
      Some(JungleStats(
        |gs|, Count(gs, IsWin), |gs| - Count(gs, IsWin),
        Winrate(gs), AvgDeaths(gs),
        Mean(Sum(VisionScores(gs)), |gs|), Mean(Sum(ObjectiveDamage(gs)), |gs|),
        ProtocolCompliance(gs),
        FormText(Take(gs, 5)),
        FavoriteChampions(gs)))
  }

  /** Reads a form string back into results, word by word; None when it is
      not a run of "WIN"/"LOSS" words. */
  function DecodeForm(s: string): Option<seq<GameResult>>
    decreases |s|
  {
    if |s| == 0 then Some([])
    else if |s| >= 3 && s[..3] == "WIN" then
      match DecodeForm(s[3..])
      case Some(rs) => Some([Win] + rs)
      case None => None
    else if |s| >= 4 && s[..4] == "LOSS" then
      match DecodeForm(s[4..])
      case Some(rs) => Some([Loss] + rs)
      case None => None
    else None
  }

  function Results(gs: seq<JungleGame>): (rs: seq<GameResult>)
    ensures |rs| == |gs| && forall i :: 0 <= i < |gs| ==> rs[i] == gs[i].result
  {
    seq(|gs|, i requires 0 <= i < |gs| => gs[i].result)
  }

  lemma DecodeFormCons(r: GameResult, t: string)
    ensures DecodeForm(ResultText(r) + t) ==
      match DecodeForm(t)
      case Some(rs) => Some([r] + rs)
      case None => None
  {
    var w := ResultText(r);
    assert (w + t)[|w|..] == t;
    if r == Win {
      assert (w + t)[..3] == "WIN";
    } else {
      assert (w + t)[..4] == "LOSS";
      assert (w + t)[..3] != "WIN" by {
        assert (w + t)[0] == 'L';
      }
    }
  }

  /** The run-together form string is unambiguous: it reads back to the
      exact sequence of results. */
  lemma {:induction false} FormRoundTrip(gs: seq<JungleGame>)
    ensures DecodeForm(FormText(gs)) == Some(Results(gs))
    decreases |gs|
  {
    if |gs| > 0 {
      FormRoundTrip(gs[1..]);
      DecodeFormCons(gs[0].result, FormText(gs[1..]));
      assert Results(gs) == [gs[0].result] + Results(gs[1..]);
    }
  }

  /** The recent form of the overview names the results of the first five
      games (fewer if there are fewer), in order, and agrees with the
      analytics engine's win rate and compliance. */
  lemma JungleStatsFacts(gs: seq<JungleGame>)
    requires |gs| > 0
    ensures var st := GetJungleStats(gs).value;
      DecodeForm(st.recentForm) == Some(Results(Take(gs, 5)))
      && |st.favoriteChampions| <= 5
      && (ValidDurations(gs) ==>
            st.winrate == CalculateAdvancedKPIs(gs).winrate
            && st.avgDeaths == CalculateAdvancedKPIs(gs).avgDeaths
            && st.protocolCompliance == CalculateAdvancedKPIs(gs).protocolCompliance)
  {
    FormRoundTrip(Take(gs, 5));
  }
}
