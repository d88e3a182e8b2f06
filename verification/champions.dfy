/** Per-champion aggregation of game records. The analytics engine and the
    scraper's favourite-champion summary both fill a plain object keyed by
    champion name, in game order, and read it back with `Object.entries`,
    which lists keys in insertion order (champion names are not
    integer-like). The aggregates are modelled as a sequence in first-play
    order. */
module Champions {

  import opened Seqs
  import opened Sorting
  import opened RiotTypes

  /** `(kills + assists) / Math.max(deaths, 1)`. */
  function KdaRatio(g: JungleGame): (r: real)
    ensures 0.0 <= r <= (g.kills + g.assists) as real
    ensures g.deaths <= 1 ==> r == (g.kills + g.assists) as real
    ensures g.deaths > 1 ==> r * g.deaths as real == (g.kills + g.assists) as real
  {
    (g.kills + g.assists) as real / (if g.deaths > 1 then g.deaths else 1) as real
  }

  /** The running totals kept for one champion. */
  datatype ChampAgg = ChampAgg(
    champion: string,
    games: nat,
    wins: nat,
    deaths: nat,
    kda: real,
    cs: nat,
    vision: nat)

  /** Per-game contributions to the totals. */
  function One(g: JungleGame): nat { 1 }
  function WinCount(g: JungleGame): nat { if g.result == Win then 1 else 0 }
  function DeathsOf(g: JungleGame): nat { g.deaths }
  function CsOf(g: JungleGame): nat { g.cs }
  function VisionOf(g: JungleGame): nat { g.visionScore }

  /** Adds one game to a champion's totals. */
  function Absorb(a: ChampAgg, g: JungleGame): ChampAgg
  {
    a.(games := a.games + 1,
       wins := a.wins + WinCount(g),
       deaths := a.deaths + g.deaths,
       kda := a.kda + KdaRatio(g),
       cs := a.cs + g.cs,
       vision := a.vision + g.visionScore)
  }

  /** Position of the champion's entry, or |aggs| when it has none. */
  function IndexOf(aggs: seq<ChampAgg>, champion: string): (i: nat)
    ensures i <= |aggs|
    ensures i < |aggs| ==> aggs[i].champion == champion
    ensures forall j :: 0 <= j < i ==> aggs[j].champion != champion
    decreases |aggs|
  {
    if |aggs| == 0 then 0
    else if aggs[0].champion == champion then 0
    else 1 + IndexOf(aggs[1..], champion)
  }

  /** One step of the `forEach`: create the champion's entry on first sight,
      then add the game to it. */
  function AddGame(aggs: seq<ChampAgg>, g: JungleGame): seq<ChampAgg>
  {
    var i := IndexOf(aggs, g.champion);
    if i < |aggs| then aggs[i := Absorb(aggs[i], g)]
    else aggs + [Absorb(ChampAgg(g.champion, 0, 0, 0, 0.0, 0, 0), g)]
  }

  /** The aggregates after all games, in the order champions were first
      seen. */
  function Group(gs: seq<JungleGame>): seq<ChampAgg>
    decreases |gs|
  {
    if |gs| == 0 then [] else AddGame(Group(gs[..|gs| - 1]), gs[|gs| - 1])
  }

  /** Reference totals, independent of the grouping: the sum of `f` over the
      games on `champion`. */
  function Tally(gs: seq<JungleGame>, champion: string, f: JungleGame -> nat): nat
    decreases |gs|
  {
    if |gs| == 0 then 0
    else Tally(gs[..|gs| - 1], champion, f) + (if gs[|gs| - 1].champion == champion then f(gs[|gs| - 1]) else 0)
  }

  function TallyReal(gs: seq<JungleGame>, champion: string, f: JungleGame -> real): real
    decreases |gs|
  {
    if |gs| == 0 then 0.0
    else TallyReal(gs[..|gs| - 1], champion, f) + (if gs[|gs| - 1].champion == champion then f(gs[|gs| - 1]) else 0.0)
  }

  lemma TallySnoc(gs: seq<JungleGame>, g: JungleGame, champion: string, f: JungleGame -> nat, h: JungleGame -> real)
    ensures Tally(gs + [g], champion, f) == Tally(gs, champion, f) + (if g.champion == champion then f(g) else 0)
    ensures TallyReal(gs + [g], champion, h) == TallyReal(gs, champion, h) + (if g.champion == champion then h(g) else 0.0)
  {
    assert (gs + [g])[..|gs|] == gs;
  }

  /** A champion nobody played has zero totals. */
  lemma {:induction false} TallyAbsent(gs: seq<JungleGame>, champion: string, f: JungleGame -> nat, h: JungleGame -> real)
    requires forall j :: 0 <= j < |gs| ==> gs[j].champion != champion
    ensures Tally(gs, champion, f) == 0
    ensures TallyReal(gs, champion, h) == 0.0
    decreases |gs|
  {
    if |gs| > 0 {
      TallyAbsent(gs[..|gs| - 1], champion, f, h);
    }
  }

  function AggChampion(a: ChampAgg): string { a.champion }
  function AggGames(a: ChampAgg): int { a.games }

  /** The names a sequence of aggregates covers, and the names played. */
  function AggNames(aggs: seq<ChampAgg>): set<string>
  {
    set a | a in aggs :: a.champion
  }

  function Played(gs: seq<JungleGame>): set<string>
  {
    set g | g in gs :: g.champion
  }

  /** An aggregate holds exactly the reference totals of its champion. */
  predicate Accounts(gs: seq<JungleGame>, a: ChampAgg)
  {
    a.games >= 1
    && a.games == Tally(gs, a.champion, One)
    && a.wins == Tally(gs, a.champion, WinCount)
    && a.deaths == Tally(gs, a.champion, DeathsOf)
    && a.cs == Tally(gs, a.champion, CsOf)
    && a.vision == Tally(gs, a.champion, VisionOf)
    && a.kda == TallyReal(gs, a.champion, KdaRatio)
  }

  lemma PlayedSnoc(gs: seq<JungleGame>, g: JungleGame)
    ensures Played(gs + [g]) == Played(gs) + {g.champion}
  {
    var s := gs + [g];
    forall c | c in Played(s)
      ensures c in Played(gs) + {g.champion}
    {
      var x :| x in s && x.champion == c;
      if x != g {
        assert x in gs;
      }
    }
    forall c | c in Played(gs) + {g.champion}
      ensures c in Played(s)
    {
      if c == g.champion {
        assert g in s;
      } else {
        var x :| x in gs && x.champion == c;
        assert x in s;
      }
    }
  }

  /** Adding a game keeps the champions distinct. */
  lemma AddGameDistinct(aggs: seq<ChampAgg>, g: JungleGame)
    requires DistinctBy(AggChampion, aggs)
    ensures DistinctBy(AggChampion, AddGame(aggs, g))
  {
    var i := IndexOf(aggs, g.champion);
    var r := AddGame(aggs, g);
    if i < |aggs| {
      forall a, b | 0 <= a < b < |r|
        ensures AggChampion(r[a]) != AggChampion(r[b])
      {
        assert r[a].champion == aggs[a].champion && r[b].champion == aggs[b].champion;
      }
    }
  }

  /** Adding a game adds its champion to the names covered. */
  lemma AddGameNames(aggs: seq<ChampAgg>, g: JungleGame)
    ensures AggNames(AddGame(aggs, g)) == AggNames(aggs) + {g.champion}
  {
    var i := IndexOf(aggs, g.champion);
    var r := AddGame(aggs, g);
    if i < |aggs| {
      forall c | c in AggNames(r)
        ensures c in AggNames(aggs) + {g.champion}
      {
        var a :| a in r && a.champion == c;
        var j :| 0 <= j < |r| && r[j] == a;
        assert aggs[j].champion == c;
      }
      forall c | c in AggNames(aggs) + {g.champion}
        ensures c in AggNames(r)
      {
        if c == g.champion {
          assert r[i] in r;
        } else {
          var a :| a in aggs && a.champion == c;
          var j :| 0 <= j < |aggs| && aggs[j] == a;
          assert r[j] in r;
        }
      }
    } else {
      assert r == aggs + [r[|aggs|]];
    }
  }

  /** Adding a game adds one to the total game count. */
  lemma AddGameSum(aggs: seq<ChampAgg>, g: JungleGame)
    ensures SumOf(AggGames, AddGame(aggs, g)) == SumOf(AggGames, aggs) + 1
  {
    var i := IndexOf(aggs, g.champion);
    if i < |aggs| {
      SumOfUpdate(AggGames, aggs, i, Absorb(aggs[i], g));
    } else {
      SumOfAppend(AggGames, aggs, Absorb(ChampAgg(g.champion, 0, 0, 0, 0.0, 0, 0), g));
    }
  }

  lemma AccountsSnoc(front: seq<JungleGame>, g: JungleGame, a: ChampAgg)
    requires Accounts(front, a) && a.champion != g.champion
    ensures Accounts(front + [g], a)
  {
    var c := a.champion;
    TallySnoc(front, g, c, One, KdaRatio);
    TallySnoc(front, g, c, WinCount, KdaRatio);
    TallySnoc(front, g, c, DeathsOf, KdaRatio);
    TallySnoc(front, g, c, CsOf, KdaRatio);
    TallySnoc(front, g, c, VisionOf, KdaRatio);
  }

  lemma AccountsAbsorb(front: seq<JungleGame>, g: JungleGame, a: ChampAgg)
    requires a.champion == g.champion
    requires Accounts(front, a) || (a == ChampAgg(g.champion, 0, 0, 0, 0.0, 0, 0) && g.champion !in Played(front))
    ensures Accounts(front + [g], Absorb(a, g))
  {
    var c := a.champion;
    TallySnoc(front, g, c, One, KdaRatio);
    TallySnoc(front, g, c, WinCount, KdaRatio);
    TallySnoc(front, g, c, DeathsOf, KdaRatio);
    TallySnoc(front, g, c, CsOf, KdaRatio);
    TallySnoc(front, g, c, VisionOf, KdaRatio);
    if !Accounts(front, a) {
      forall m | 0 <= m < |front|
        ensures front[m].champion != c
      {
        assert front[m] in front;
      }
      TallyAbsent(front, c, One, KdaRatio);
      TallyAbsent(front, c, WinCount, KdaRatio);
      TallyAbsent(front, c, DeathsOf, KdaRatio);
      TallyAbsent(front, c, CsOf, KdaRatio);
      TallyAbsent(front, c, VisionOf, KdaRatio);
    }
  }

  /** Adding a game keeps every aggregate equal to its reference totals. */
  lemma AddGameAccounts(front: seq<JungleGame>, aggs: seq<ChampAgg>, g: JungleGame)
    requires DistinctBy(AggChampion, aggs) && AggNames(aggs) == Played(front)
    requires forall i :: 0 <= i < |aggs| ==> Accounts(front, aggs[i])
    ensures forall i :: 0 <= i < |AddGame(aggs, g)| ==> Accounts(front + [g], AddGame(aggs, g)[i])
  {
    var i := IndexOf(aggs, g.champion);
    var r := AddGame(aggs, g);
    if i == |aggs| {
      assert g.champion !in Played(front) by {
        forall a | a in aggs
          ensures a.champion != g.champion
        {
          var j :| 0 <= j < |aggs| && aggs[j] == a;
        }
      }
    }
    forall j | 0 <= j < |r|
      ensures Accounts(front + [g], r[j])
    {
      if j == i {
        AccountsAbsorb(front, g, if i < |aggs| then aggs[i] else ChampAgg(g.champion, 0, 0, 0, 0.0, 0, 0));
      } else {
        AccountsSnoc(front, g, aggs[j]);
      }
    }
  }

  /** The grouping has one entry per champion played and no other, each
      entry carries that champion's totals, and the game counts add up to
      the number of games. */
  lemma {:induction false} GroupFacts(gs: seq<JungleGame>)
    ensures DistinctBy(AggChampion, Group(gs))
    ensures AggNames(Group(gs)) == Played(gs)
    ensures forall i :: 0 <= i < |Group(gs)| ==> Accounts(gs, Group(gs)[i])
    ensures SumOf(AggGames, Group(gs)) == |gs|
    decreases |gs|
  {
    if |gs| > 0 {
      var front := gs[..|gs| - 1];
      var g := gs[|gs| - 1];
      assert gs == front + [g];
      GroupFacts(front);
      PlayedSnoc(front, g);
      AddGameDistinct(Group(front), g);
      AddGameNames(Group(front), g);
      AddGameSum(Group(front), g);
      AddGameAccounts(front, Group(front), g);
    }
  }

  /** A champion's summary as the analytics engine reports it. */
  datatype ChampionStats = ChampionStats(
    champion: string,
    games: nat,
    wins: nat,
    losses: int,
    winrate: real,
    avgDeaths: real,
    avgKDA: real,
    avgCS: real,
    avgVisionScore: real)

  function ToStats(a: ChampAgg): ChampionStats
    requires a.games > 0
  {
    var n := a.games as real;
    ChampionStats(a.champion, a.games, a.wins, a.games - a.wins,
      a.wins as real / n * 100.0, a.deaths as real / n, a.kda / n, a.cs as real / n, a.vision as real / n)
  }

  function StatsChampion(s: ChampionStats): string { s.champion }
  function StatsGames(s: ChampionStats): int { s.games }
  function GamesKey(s: ChampionStats): real { s.games as real }
  function WinrateKey(s: ChampionStats): real { s.winrate }
  predicate HasGames(s: ChampionStats) { s.games >= 1 }

  /** The grouped summaries, in first-play order, before filtering and
      sorting. */
  function Summaries(gs: seq<JungleGame>): (stats: seq<ChampionStats>)
    ensures |stats| == |Group(gs)|
  {
    var aggs := Group(gs);
    GroupFacts(gs);
    seq(|aggs|, i requires 0 <= i < |aggs| => ToStats(aggs[i]))
  }

  /** `analyzeChampionPerformance`: the grouped summaries, those with at
      least one game, ordered by games played and then by win rate, both
      descending. */
  function AnalyzeChampionPerformance(gs: seq<JungleGame>): seq<ChampionStats>
  {
    SortDesc(GamesKey, WinrateKey, Filter(Summaries(gs), HasGames))
  }

  /** The summary reports exactly the reference totals of its champion. */
  predicate Summarises(gs: seq<JungleGame>, s: ChampionStats)
  {
    var n := Tally(gs, s.champion, One);
    n >= 1
    && s.games == n
    && s.wins == Tally(gs, s.champion, WinCount)
    && s.wins + s.losses == s.games
    && s.winrate == s.wins as real / n as real * 100.0
    && s.avgDeaths == Tally(gs, s.champion, DeathsOf) as real / n as real
    && s.avgKDA == TallyReal(gs, s.champion, KdaRatio) / n as real
    && s.avgCS == Tally(gs, s.champion, CsOf) as real / n as real
    && s.avgVisionScore == Tally(gs, s.champion, VisionOf) as real / n as real
  }

  function StatsNames(r: seq<ChampionStats>): set<string>
  {
    set s | s in r :: s.champion
  }

  lemma SummariesFacts(gs: seq<JungleGame>)
    ensures DistinctBy(StatsChampion, Summaries(gs))
    ensures StatsNames(Summaries(gs)) == Played(gs)
    ensures forall i :: 0 <= i < |Summaries(gs)| ==> Summarises(gs, Summaries(gs)[i]) && HasGames(Summaries(gs)[i])
    ensures SumOf(StatsGames, Summaries(gs)) == |gs|
  {
    GroupFacts(gs);
    SummariesEach(gs);
    SummariesDistinct(gs);
    SummariesNames(gs);
    SumOfPointwise(StatsGames, Summaries(gs), AggGames, Group(gs));
  }

  lemma SummariesEach(gs: seq<JungleGame>)
    ensures forall i :: 0 <= i < |Summaries(gs)| ==> Summarises(gs, Summaries(gs)[i]) && HasGames(Summaries(gs)[i])
  {
    var aggs := Group(gs);
    GroupFacts(gs);
    var stats := Summaries(gs);
    forall i | 0 <= i < |stats|
      ensures Summarises(gs, stats[i]) && HasGames(stats[i])
    {
      assert Accounts(gs, aggs[i]);
    }
  }

  lemma SummariesDistinct(gs: seq<JungleGame>)
    ensures DistinctBy(StatsChampion, Summaries(gs))
  {
    var aggs := Group(gs);
    GroupFacts(gs);
    var stats := Summaries(gs);
    forall a, b | 0 <= a < b < |stats|
      ensures StatsChampion(stats[a]) != StatsChampion(stats[b])
    {
      assert AggChampion(aggs[a]) != AggChampion(aggs[b]);
    }
  }

  lemma SummariesNames(gs: seq<JungleGame>)
    ensures StatsNames(Summaries(gs)) == Played(gs)
  {
    var aggs := Group(gs);
    GroupFacts(gs);
    var stats := Summaries(gs);
    forall c | c in Played(gs)
      ensures c in StatsNames(stats)
    {
      assert c in AggNames(aggs);
      var a :| a in aggs && a.champion == c;
      var j :| 0 <= j < |aggs| && aggs[j] == a;
      assert stats[j] in stats;
    }
    forall c | c in StatsNames(stats)
      ensures c in Played(gs)
    {
      var x :| x in stats && x.champion == c;
      var j :| 0 <= j < |stats| && stats[j] == x;
      assert aggs[j] in aggs;
    }
  }

  /** The same elements, reordered, cover the same names. */
  lemma StatsNamesPermutation(r: seq<ChampionStats>, s: seq<ChampionStats>)
    requires multiset(r) == multiset(s)
    ensures StatsNames(r) == StatsNames(s)
  {
    forall c | c in StatsNames(r)
      ensures c in StatsNames(s)
    {
      var x :| x in r && x.champion == c;
      assert x in multiset(s);
    }
    forall c | c in StatsNames(s)
      ensures c in StatsNames(r)
    {
      var x :| x in s && x.champion == c;
      assert x in multiset(r);
    }
  }

  /** One summary per champion played, each with that champion's totals,
      with game counts adding up to the number of games. */
  lemma {:induction false} ChampionPerformance(gs: seq<JungleGame>)
    ensures var r := AnalyzeChampionPerformance(gs);
      DistinctBy(StatsChampion, r)
      && StatsNames(r) == Played(gs)
      && (forall i :: 0 <= i < |r| ==> Summarises(gs, r[i]))
      && SumOf(StatsGames, r) == |gs|
  {
    var stats := Summaries(gs);
    SummariesFacts(gs);
    FilterAll(stats, HasGames);
    var r := AnalyzeChampionPerformance(gs);
    assert r == SortDesc(GamesKey, WinrateKey, stats);
    SortDescCorrect(GamesKey, WinrateKey, stats);
    SortDescDistinct(GamesKey, WinrateKey, StatsChampion, stats);
    SortDescSum(GamesKey, WinrateKey, StatsGames, stats);
    StatsNamesPermutation(r, stats);
    forall i | 0 <= i < |r|
      ensures Summarises(gs, r[i])
    {
      assert r[i] in multiset(stats);
    }
  }

  /** The summaries are ordered by games played and then by win rate, both
      descending, and summaries tying on both keep first-play order. */
  lemma ChampionPerformanceOrder(gs: seq<JungleGame>, games: real, winrate: real)
    ensures SortedDesc(GamesKey, WinrateKey, AnalyzeChampionPerformance(gs))
    ensures KeyClass(GamesKey, WinrateKey, games, winrate, AnalyzeChampionPerformance(gs))
         == KeyClass(GamesKey, WinrateKey, games, winrate, Summaries(gs))
  {
    SummariesFacts(gs);
    FilterAll(Summaries(gs), HasGames);
    SortDescCorrect(GamesKey, WinrateKey, Summaries(gs));
    SortDescStable(GamesKey, WinrateKey, games, winrate, Summaries(gs));
  }
}
