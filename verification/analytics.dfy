/** The jungle analytics engine: eight KPIs over a list of game records, the
    coaching-insight rule table and its priority ordering, and the split of
    the history into trend periods. Ratios are exact `real`s; game durations
    are in milliseconds and must be positive, since the source divides by
    them. */
module Analytics {

  import opened Text
  import opened Seqs
  import opened Sorting
  import opened RiotTypes
  import opened Champions

  datatype Kpis = Kpis(
    winrate: real,
    avgDeaths: real,
    protocolCompliance: real,
    jungleEfficiency: real,
    objectiveControl: real,
    visionDominance: real,
    earlyGameImpact: real,
    lateGameCarry: real)

  const ZeroKpis := Kpis(0.0, 0.0, 0.0, 0.0, 0.0, 0.0, 0.0, 0.0)

  function RMin(a: real, b: real): real { if a < b then a else b }
  function RMax(a: real, b: real): real { if a < b then b else a }

  predicate IsWin(g: JungleGame) { g.result == Win }

  /** The "Death Binary Protocol": at most five deaths. */
  predicate Compliant(g: JungleGame) { g.deaths <= 5 }

  predicate ValidDurations(gs: seq<JungleGame>)
  {
    forall i :: 0 <= i < |gs| ==> gs[i].gameDuration > 0
  }

  /** The mean of values in [0, 1] lies in [0, 1]. */
  lemma MeanOfUnit(xs: seq<real>)
    requires |xs| > 0
    requires forall i :: 0 <= i < |xs| ==> 0.0 <= xs[i] <= 1.0
    ensures 0.0 <= Sum(xs) / |xs| as real <= 1.0
  {
    SumBounds(xs, 0.0, 1.0);
  }

  /** `x * n`, kept as a function so that the contracts below relate a
      result to its inputs without nonlinear arithmetic. */
  function Times(x: real, n: nat): real
  {
    x * n as real
  }

  /** A total spread over `n` items: the mean is the value that, taken `n`
      times, gives the total back. */
  function Mean(total: real, n: nat): (m: real)
    requires n > 0
    ensures Times(m, n) == total
  {
    var m := total / n as real;
    assert m * n as real == total;
    m
  }

  /** A part of a whole, in percent: `part / whole * 100`, in [0, 100], at
      100 exactly for the whole and at 0 exactly for nothing. */
  function Percent(part: nat, whole: nat): (p: real)
    requires 0 < whole && part <= whole
    ensures Times(p, whole) == part as real * 100.0
    ensures 0.0 <= p <= 100.0
    ensures p == 100.0 <==> part == whole
    ensures p == 0.0 <==> part == 0
  {
    var x := part as real / whole as real;
    assert part as real == x * whole as real;
    x * 100.0
  }

  function Minutes(g: JungleGame): (m: real)
    requires g.gameDuration > 0
    ensures m > 0.0
  {
    g.gameDuration as real / 60000.0
  }

  /** One game's clear efficiency: jungle CS per minute against a target of
      4, capped at 1. */
  function JungleEff(g: JungleGame): (e: real)
    requires g.gameDuration > 0
    ensures 0.0 <= e <= 1.0
    ensures e == 1.0 <==> g.jungleCS as real >= 4.0 * Minutes(g)
  {
    RMin(g.jungleCS as real / Minutes(g) / 4.0, 1.0)
  }

  /** One game's vision: vision score per minute against a target of 1.5,
      capped at 1. */
  function VisionEff(g: JungleGame): (e: real)
    requires g.gameDuration > 0
    ensures 0.0 <= e <= 1.0
    ensures e == 1.0 <==> g.visionScore as real >= 1.5 * Minutes(g)
  {
    RMin(g.visionScore as real / Minutes(g) / 1.5, 1.0)
  }

  /** One game's early impact: the KDA ratio scaled by a death penalty that
      reaches zero at five deaths, capped at 5 and brought to [0, 1]. */
  function EarlyScore(g: JungleGame): (e: real)
    ensures 0.0 <= e <= 1.0
    ensures g.deaths >= 5 ==> e == 0.0
  {
    var k := KdaRatio(g);
    var penalty := RMax(0.0, 5.0 - g.deaths as real) / 5.0;
    ScaledNonneg(k, penalty);
    RMin(k * penalty, 5.0) / 5.0
  }

  /** A non-negative ratio scaled by a penalty in [0, 1] stays non-negative,
      and is zero when the penalty is. */
  lemma ScaledNonneg(k: real, penalty: real)
    requires 0.0 <= k && 0.0 <= penalty
    ensures 0.0 <= k * penalty
    ensures penalty == 0.0 ==> k * penalty == 0.0
  {
  }

  function JungleEffs(gs: seq<JungleGame>): (xs: seq<real>)
    requires ValidDurations(gs)
    ensures |xs| == |gs| && forall i :: 0 <= i < |gs| ==> xs[i] == JungleEff(gs[i])
  {
    seq(|gs|, i requires 0 <= i < |gs| && ValidDurations(gs) => JungleEff(gs[i]))
  }

  function VisionEffs(gs: seq<JungleGame>): (xs: seq<real>)
    requires ValidDurations(gs)
    ensures |xs| == |gs| && forall i :: 0 <= i < |gs| ==> xs[i] == VisionEff(gs[i])
  {
    seq(|gs|, i requires 0 <= i < |gs| && ValidDurations(gs) => VisionEff(gs[i]))
  }

  function EarlyScores(gs: seq<JungleGame>): (xs: seq<real>)
    ensures |xs| == |gs| && forall i :: 0 <= i < |gs| ==> xs[i] == EarlyScore(gs[i])
  {
    seq(|gs|, i requires 0 <= i < |gs| => EarlyScore(gs[i]))
  }

  /** Per-game totals that are plain sums. */
  function Deaths(gs: seq<JungleGame>): (xs: seq<real>)
    ensures |xs| == |gs| && forall i :: 0 <= i < |gs| ==> xs[i] == gs[i].deaths as real
  {
    seq(|gs|, i requires 0 <= i < |gs| => gs[i].deaths as real)
  }

  function ObjectiveDamage(gs: seq<JungleGame>): (xs: seq<real>)
    ensures |xs| == |gs| && forall i :: 0 <= i < |gs| ==> xs[i] == gs[i].objectivesDamage as real
  {
    seq(|gs|, i requires 0 <= i < |gs| => gs[i].objectivesDamage as real)
  }

  function Gold(gs: seq<JungleGame>): (xs: seq<real>)
    ensures |xs| == |gs| && forall i :: 0 <= i < |gs| ==> xs[i] == gs[i].goldEarned as real
  {
    seq(|gs|, i requires 0 <= i < |gs| => gs[i].goldEarned as real)
  }

  /** The mean of a non-negative total, and the cap that turns an average
      into a percentage of a reference value. */
  function CappedPercent(total: real, n: nat, reference: real): (p: real)
    requires n > 0 && total >= 0.0 && reference > 0.0
    ensures 0.0 <= p <= 100.0
    ensures p == 100.0 <==> total / n as real >= reference
    ensures p < 100.0 ==> p * n as real * reference == total * 100.0
  {
    RMin(total / n as real / reference * 100.0, 100.0)
  }

  /** `calculateWinrate`: the share of wins, in percent. */
  function Winrate(gs: seq<JungleGame>): (w: real)
    requires |gs| > 0
    ensures Times(w, |gs|) == Count(gs, IsWin) as real * 100.0
    ensures 0.0 <= w <= 100.0
    ensures w == 100.0 <==> forall i :: 0 <= i < |gs| ==> gs[i].result == Win
    ensures w == 0.0 <==> forall i :: 0 <= i < |gs| ==> gs[i].result == Loss
  {
    CountExtremes(gs, IsWin);
    Percent(Count(gs, IsWin), |gs|)
  }

  /** `calculateAvgDeaths`: the total deaths over the number of games. */
  function AvgDeaths(gs: seq<JungleGame>): (d: real)
    requires |gs| > 0
    ensures Times(d, |gs|) == TotalDeaths(gs) as real
    ensures d >= 0.0
  {
    SumNonNegative(Deaths(gs));
    DeathsSum(gs);
    Sum(Deaths(gs)) / |gs| as real
  }

  /** The deaths of all games, added up as integers. */
  function TotalDeaths(gs: seq<JungleGame>): nat
    decreases |gs|
  {
    if |gs| == 0 then 0 else gs[0].deaths + TotalDeaths(gs[1..])
  }

  /** The real sum of the per-game deaths is the integer total. */
  lemma {:induction false} DeathsSum(gs: seq<JungleGame>)
    ensures Sum(Deaths(gs)) == TotalDeaths(gs) as real
    decreases |gs|
  {
    if |gs| > 0 {
      DeathsSum(gs[1..]);
      assert Deaths(gs)[1..] == Deaths(gs[1..]);
    }
  }

  /** `calculateProtocolCompliance`: the share of games with at most five
      deaths, in percent. */
  function ProtocolCompliance(gs: seq<JungleGame>): (c: real)
    requires |gs| > 0
    ensures Times(c, |gs|) == Count(gs, Compliant) as real * 100.0
    ensures 0.0 <= c <= 100.0
    ensures c == 100.0 <==> forall i :: 0 <= i < |gs| ==> gs[i].deaths <= 5
    ensures c == 0.0 <==> forall i :: 0 <= i < |gs| ==> gs[i].deaths > 5
  {
    CountExtremes(gs, Compliant);
    Percent(Count(gs, Compliant), |gs|)
  }

  /** The mean of per-game values in [0, 1], scaled to a percentage. */
  function MeanPercent(xs: seq<real>): (p: real)
    requires |xs| > 0
    requires forall i :: 0 <= i < |xs| ==> 0.0 <= xs[i] <= 1.0
    ensures Times(p, |xs|) == Sum(xs) * 100.0
    ensures 0.0 <= p <= 100.0
  {
    MeanOfUnit(xs);
    Sum(xs) / |xs| as real * 100.0
  }

  /** `calculateAdvancedKPIs`. */
  function CalculateAdvancedKPIs(gs: seq<JungleGame>): (k: Kpis)
    requires ValidDurations(gs)
    ensures |gs| == 0 ==> k == ZeroKpis
    ensures |gs| > 0 ==>
      k.winrate == Winrate(gs) && k.avgDeaths == AvgDeaths(gs) && k.protocolCompliance == ProtocolCompliance(gs)
      && k.jungleEfficiency == MeanPercent(JungleEffs(gs)) && k.visionDominance == MeanPercent(VisionEffs(gs))
      && k.earlyGameImpact == MeanPercent(EarlyScores(gs))
      && k.objectiveControl == RMin(Sum(ObjectiveDamage(gs)) / |gs| as real / 5000.0 * 100.0, 100.0)
      && k.lateGameCarry == RMin(Sum(Gold(gs)) / |gs| as real / 12000.0 * 100.0, 100.0)
    ensures 0.0 <= k.winrate <= 100.0
    ensures k.avgDeaths >= 0.0
    ensures 0.0 <= k.protocolCompliance <= 100.0
    ensures 0.0 <= k.jungleEfficiency <= 100.0
    ensures 0.0 <= k.objectiveControl <= 100.0
    ensures 0.0 <= k.visionDominance <= 100.0
    ensures 0.0 <= k.earlyGameImpact <= 100.0
    ensures 0.0 <= k.lateGameCarry <= 100.0
  {
    if |gs| == 0 then ZeroKpis
    else
      SumNonNegative(ObjectiveDamage(gs));
      SumNonNegative(Gold(gs));
      Kpis(
        Winrate(gs),
        AvgDeaths(gs),
        ProtocolCompliance(gs),
        MeanPercent(JungleEffs(gs)),
        CappedPercent(Sum(ObjectiveDamage(gs)), |gs|, 5000.0),
        MeanPercent(VisionEffs(gs)),
        MeanPercent(EarlyScores(gs)),
        CappedPercent(Sum(Gold(gs)), |gs|, 12000.0))
  }

  /** Full compliance bounds the average deaths by five. */
  lemma {:induction false} FullComplianceBoundsDeaths(gs: seq<JungleGame>)
    requires |gs| > 0
    requires ProtocolCompliance(gs) == 100.0
    ensures AvgDeaths(gs) <= 5.0
  {
    var xs := Deaths(gs);
    assert forall i :: 0 <= i < |xs| ==> 0.0 <= xs[i] <= 5.0 by {
      forall i | 0 <= i < |xs|
        ensures 0.0 <= xs[i] <= 5.0
      {
        assert Compliant(gs[i]);
      }
    }
    SumBounds(xs, 0.0, 5.0);
    DivideBound(Sum(xs), |gs| as real, 5.0);
  }

  /** A total of at most `n * c` over `n > 0` items averages at most `c`. */
  lemma DivideBound(total: real, n: real, c: real)
    requires n > 0.0 && total <= n * c
    ensures total / n <= c
  {
    assert (c - total / n) * n == c * n - total;
  }

  // ----- coaching insights -----

  datatype InsightType = Success | Warning | Info | Error
  datatype Category = Positioning | ChampionMastery | JungleEfficiency | Vision | Objectives
  datatype Priority = High | Medium | Low

  /** The `data` payload of each rule; message texts are not modelled. */
  datatype InsightData =
    | ComplianceData(currentCompliance: real, target: int)
    | EfficiencyData(currentEfficiency: real, target: int)
    | VisionData(currentVision: real, target: int)
    | ChampionData(stats: ChampionStats)
    | FormData(recentForm: string)
    | ObjectiveData(currentControl: real, target: int)

  datatype Insight = Insight(kind: InsightType, category: Category, priority: Priority, data: InsightData)

  /** `priorityOrder`: high 3, medium 2, low 1. */
  function Rank(i: Insight): (r: real)
    ensures 1.0 <= r <= 3.0
  {
    match i.priority
    case High => 3.0
    case Medium => 2.0
    case Low => 1.0
  }

  /** Death control: an error below 50% compliance, a warning below 70%. */
  function DeathRule(k: Kpis): seq<Insight>
  {
    if k.protocolCompliance < 50.0 then [Insight(Error, Positioning, High, ComplianceData(k.protocolCompliance, 80))]
    else if k.protocolCompliance < 70.0 then [Insight(Warning, Positioning, Medium, ComplianceData(k.protocolCompliance, 80))]
    else []
  }

  function EfficiencyRule(k: Kpis): seq<Insight>
  {
    if k.jungleEfficiency < 70.0 then [Insight(Warning, JungleEfficiency, Medium, EfficiencyData(k.jungleEfficiency, 85))] else []
  }

  function VisionRule(k: Kpis): seq<Insight>
  {
    if k.visionDominance < 60.0 then [Insight(Warning, Vision, Medium, VisionData(k.visionDominance, 75))] else []
  }

  function ObjectiveRule(k: Kpis): seq<Insight>
  {
    if k.objectiveControl < 60.0 then [Insight(Warning, Objectives, Medium, ObjectiveData(k.objectiveControl, 75))] else []
  }

  /** A champion played at least three times with a win rate under 40%. */
  predicate Poor(s: ChampionStats) { s.winrate < 40.0 && s.games >= 3 }

  /** A champion played at least three times with a win rate over 70%. */
  predicate Strong(s: ChampionStats) { s.winrate > 70.0 && s.games >= 3 }

  function Warn(s: ChampionStats): Insight
  {
    Insight(Warning, ChampionMastery, Medium, ChampionData(s))
  }

  /** A warning per champion, in order. */
  function PoorWarnings(poor: seq<ChampionStats>): (ws: seq<Insight>)
    ensures |ws| == |poor|
    decreases |poor|
  {
    if |poor| == 0 then [] else [Warn(poor[0])] + PoorWarnings(poor[1..])
  }

  lemma {:induction false} PoorWarningsAt(poor: seq<ChampionStats>, i: nat)
    requires i < |poor|
    ensures PoorWarnings(poor)[i] == Warn(poor[i])
    decreases i
  {
    if i > 0 {
      PoorWarningsAt(poor[1..], i - 1);
    }
  }

  /** Champion mastery: a success for the first (most played) champion when
      it is strong, then a warning per poor champion, in list order. */
  function ChampionRules(stats: seq<ChampionStats>): seq<Insight>
  {
    if |stats| == 0 then []
    else
      (if Strong(stats[0]) then [Insight(Success, ChampionMastery, High, ChampionData(stats[0]))] else [])
      + PoorWarnings(Filter(stats, Poor))
  }

  /** The results of a run of games, as "WIN"/"LOSS" words run together
      (`map(g => g.result).join('')`). */
  function FormText(gs: seq<JungleGame>): string
    decreases |gs|
  {
    if |gs| == 0 then "" else ResultText(gs[0].result) + FormText(gs[1..])
  }

  /** Recent form: an error when the first five games hold at most one win. */
  function FormRule(gs: seq<JungleGame>): seq<Insight>
  {
    var recent := Take(gs, 5);
    if Count(recent, IsWin) <= 1 then [Insight(Error, Positioning, High, FormData(FormText(recent)))] else []
  }

  /** The rules' insights in the order they are pushed. */
  function Fired(gs: seq<JungleGame>): seq<Insight>
    requires ValidDurations(gs)
  {
    var k := CalculateAdvancedKPIs(gs);
    DeathRule(k) + EfficiencyRule(k) + VisionRule(k)
    + ChampionRules(AnalyzeChampionPerformance(gs)) + FormRule(gs) + ObjectiveRule(k)
  }

  /** `generateCoachingInsights`: the fired insights, stably sorted by
      priority, highest first. */
  function GenerateCoachingInsights(gs: seq<JungleGame>): seq<Insight>
    requires ValidDurations(gs)
  {
    ByOne(Rank, Fired(gs))
  }

  /** The death-control rule emits at most one insight, by three exclusive
      tiers of compliance. */
  lemma DeathRuleTiers(k: Kpis)
    ensures |DeathRule(k)| <= 1
    ensures k.protocolCompliance < 50.0 <==>
      DeathRule(k) == [Insight(Error, Positioning, High, ComplianceData(k.protocolCompliance, 80))]
    ensures 50.0 <= k.protocolCompliance < 70.0 <==>
      DeathRule(k) == [Insight(Warning, Positioning, Medium, ComplianceData(k.protocolCompliance, 80))]
    ensures k.protocolCompliance >= 70.0 <==> DeathRule(k) == []
  {
  }

  predicate IsChampionSuccess(i: Insight) { i.kind == Success && i.category == ChampionMastery }
  predicate IsChampionWarning(i: Insight) { i.kind == Warning && i.category == ChampionMastery }

  /** The head of the champion rules: the success insight, if any. */
  function SuccessPart(stats: seq<ChampionStats>): seq<Insight>
    requires |stats| > 0
  {
    if Strong(stats[0]) then [Insight(Success, ChampionMastery, High, ChampionData(stats[0]))] else []
  }

  lemma {:induction false} PoorWarningsCount(poor: seq<ChampionStats>)
    ensures Count(PoorWarnings(poor), IsChampionSuccess) == 0
    ensures Count(PoorWarnings(poor), IsChampionWarning) == |poor|
    decreases |poor|
  {
    if |poor| > 0 {
      PoorWarningsCount(poor[1..]);
      var ws := PoorWarnings(poor);
      assert ws[1..] == PoorWarnings(poor[1..]);
    }
  }

  /** The success insight is decided on the first (most played) champion
      alone, and a warning is counted for each poor champion. */
  lemma ChampionRuleCounts(stats: seq<ChampionStats>)
    ensures Count(ChampionRules(stats), IsChampionSuccess) == (if |stats| > 0 && Strong(stats[0]) then 1 else 0)
    ensures Count(ChampionRules(stats), IsChampionWarning) == Count(stats, Poor)
  {
    if |stats| > 0 {
      var ws := PoorWarnings(Filter(stats, Poor));
      assert ChampionRules(stats) == SuccessPart(stats) + ws;
      PoorWarningsCount(Filter(stats, Poor));
      SuccessPartCount(stats);
      CountAppend(SuccessPart(stats), ws, IsChampionSuccess);
      CountAppend(SuccessPart(stats), ws, IsChampionWarning);
    }
  }

  lemma SuccessPartCount(stats: seq<ChampionStats>)
    requires |stats| > 0
    ensures Count(SuccessPart(stats), IsChampionSuccess) == (if Strong(stats[0]) then 1 else 0)
    ensures Count(SuccessPart(stats), IsChampionWarning) == 0
  {
    var h := SuccessPart(stats);
    if |h| > 0 {
      assert h[1..] == [];
    }
  }

  /** Each champion warning carries a poor champion of the list, and each
      poor champion of the list gets its warning. */
  lemma ChampionWarningsExact(stats: seq<ChampionStats>)
    ensures forall i :: 0 <= i < |ChampionRules(stats)| && IsChampionWarning(ChampionRules(stats)[i]) ==>
      ChampionRules(stats)[i].data.ChampionData?
      && ChampionRules(stats)[i].data.stats in stats && Poor(ChampionRules(stats)[i].data.stats)
    ensures forall i :: 0 <= i < |stats| && Poor(stats[i]) ==>
      Insight(Warning, ChampionMastery, Medium, ChampionData(stats[i])) in ChampionRules(stats)
  {
    if |stats| > 0 {
      var r := ChampionRules(stats);
      var head := SuccessPart(stats);
      var poor := Filter(stats, Poor);
      var ws := PoorWarnings(poor);
      forall i | 0 <= i < |stats| && Poor(stats[i])
        ensures Insight(Warning, ChampionMastery, Medium, ChampionData(stats[i])) in r
      {
        var j :| 0 <= j < |poor| && poor[j] == stats[i];
        PoorWarningsAt(poor, j);
        assert ws[j] == r[|head| + j];
      }
      forall i | 0 <= i < |r| && IsChampionWarning(r[i])
        ensures r[i].data.ChampionData? && r[i].data.stats in stats && Poor(r[i].data.stats)
      {
        assert r[i] == ws[i - |head|];
        PoorWarningsAt(poor, i - |head|);
      }
    }
  }

  /** The recent-form error fires exactly when the first five games (fewer
      if there are fewer) hold at most one win, so also on an empty list. */
  lemma FormRuleIff(gs: seq<JungleGame>)
    ensures |FormRule(gs)| <= 1
    ensures |FormRule(gs)| == 1 <==> Count(Take(gs, 5), IsWin) <= 1
    ensures |gs| == 0 ==> FormRule(gs) == [Insight(Error, Positioning, High, FormData(""))]
  {
  }

  /** The returned insights are the fired ones, reordered so that
      priorities never increase; insights of equal priority keep the order
      in which they were pushed. */
  lemma InsightsOrdered(gs: seq<JungleGame>, p: real)
    requires ValidDurations(gs)
    ensures var r := GenerateCoachingInsights(gs);
      multiset(r) == multiset(Fired(gs))
      && (forall i, j :: 0 <= i < j < |r| ==> Rank(r[i]) >= Rank(r[j]))
      && KeyClass(Rank, (_: Insight) => 0.0, p, 0.0, r) == KeyClass(Rank, (_: Insight) => 0.0, p, 0.0, Fired(gs))
  {
    SortDescCorrect(Rank, (_: Insight) => 0.0, Fired(gs));
    SortDescStable(Rank, (_: Insight) => 0.0, p, 0.0, Fired(gs));
  }

  /** With no games at all, every KPI is 0: both high-priority errors
      (death control, recent form) come first in the order pushed, then the
      three medium warnings (efficiency, vision, objectives). */
  lemma EmptyHistoryInsights()
    ensures GenerateCoachingInsights([]) == [
      Insight(Error, Positioning, High, ComplianceData(0.0, 80)),
      Insight(Error, Positioning, High, FormData("")),
      Insight(Warning, JungleEfficiency, Medium, EfficiencyData(0.0, 85)),
      Insight(Warning, Vision, Medium, VisionData(0.0, 75)),
      Insight(Warning, Objectives, Medium, ObjectiveData(0.0, 75))]
  {
    var d := Insight(Error, Positioning, High, ComplianceData(0.0, 80));
    var f := Insight(Error, Positioning, High, FormData(""));
    var e := Insight(Warning, JungleEfficiency, Medium, EfficiencyData(0.0, 85));
    var v := Insight(Warning, Vision, Medium, VisionData(0.0, 75));
    var o := Insight(Warning, Objectives, Medium, ObjectiveData(0.0, 75));
    EmptyHistoryFired();
    SortTwoHighThreeMedium(d, e, v, f, o);
  }

  /** With no games every threshold rule but the champion rules fires, in
      push order. */
  lemma EmptyHistoryFired()
    ensures Fired([]) == [
      Insight(Error, Positioning, High, ComplianceData(0.0, 80)),
      Insight(Warning, JungleEfficiency, Medium, EfficiencyData(0.0, 85)),
      Insight(Warning, Vision, Medium, VisionData(0.0, 75)),
      Insight(Error, Positioning, High, FormData("")),
      Insight(Warning, Objectives, Medium, ObjectiveData(0.0, 75))]
  {
    assert AnalyzeChampionPerformance([]) == [];
  }

  /** Sorting by priority moves the second high insight ahead of the three
      medium ones, keeping the order within each priority. */
  lemma SortTwoHighThreeMedium(d: Insight, e: Insight, v: Insight, f: Insight, o: Insight)
    requires Rank(d) == Rank(f) == 3.0
    requires Rank(e) == Rank(v) == Rank(o) == 2.0
    ensures ByOne(Rank, [d, e, v, f, o]) == [d, f, e, v, o]
  {
    var k2: Insight -> real := (_: Insight) => 0.0;
    assert Insert(Rank, k2, o, []) == [o];
    assert Insert(Rank, k2, f, [o]) == [f, o];
    assert Insert(Rank, k2, v, [o]) == [v, o];
    assert Insert(Rank, k2, v, [f, o]) == [f, v, o];
    assert Insert(Rank, k2, e, [v, o]) == [e, v, o];
    assert Insert(Rank, k2, e, [f, v, o]) == [f, e, v, o];
    assert Insert(Rank, k2, d, [f, e, v, o]) == [d, f, e, v, o];
    assert [d, e, v, f, o][1..] == [e, v, f, o];
    assert [e, v, f, o][1..] == [v, f, o];
    assert [v, f, o][1..] == [f, o];
    assert [f, o][1..] == [o];
    assert SortDesc(Rank, k2, [o]) == [o];
    assert SortDesc(Rank, k2, [f, o]) == [f, o];
    assert SortDesc(Rank, k2, [v, f, o]) == [f, v, o];
    assert SortDesc(Rank, k2, [e, v, f, o]) == [f, e, v, o];
    assert SortDesc(Rank, k2, [d, e, v, f, o]) == [d, f, e, v, o];
  }

  // ----- performance trends -----

  /** `Math.max(5, Math.floor(n / 4))`. */
  function ChunkSize(n: nat): (c: nat)
    ensures c >= 5
  {
    Max(5, n / 4)
  }

  /** The chunk size is five up to 19 games, and a quarter of the games,
      rounded down, from 20 on. */
  lemma ChunkSizeQuarter(n: nat)
    ensures n < 20 ==> ChunkSize(n) == 5
    ensures n >= 20 ==> 4 * ChunkSize(n) <= n < 4 * ChunkSize(n) + 4
  {
  }

  /** One trend period: games first..last (1-based, inclusive) and their
      KPIs. */
  datatype Trend = Trend(first: nat, last: nat, kpis: Kpis)

  /** The period label "Games <first>-<last>". */
  function PeriodLabel(t: Trend): string
  {
    "Games " + NatToString(t.first) + "-" + NatToString(t.last)
  }

  /** The loop `for (i = lo; i < n; i += size)`: the half-open index ranges
      [i, min(i + size, n)) of the chunks, in order. */
  function Spans(lo: nat, n: nat, size: nat): seq<(nat, nat)>
    requires size > 0
    decreases n - lo
  {
    if lo >= n then [] else [(lo, Min(lo + size, n))] + Spans(lo + size, n, size)
  }

  /** The spans tile [lo, n): they are non-empty, the first starts at lo,
      each starts where the previous one ends, all but the last are exactly
      `size` long, and the last ends at n. */
  lemma SpansTile(lo: nat, n: nat, size: nat)
    requires size > 0
    ensures |Spans(lo, n, size)| == 0 <==> lo >= n
    ensures |Spans(lo, n, size)| > 0 ==>
      Spans(lo, n, size)[0].0 == lo && Spans(lo, n, size)[|Spans(lo, n, size)| - 1].1 == n
    ensures forall i :: 0 <= i < |Spans(lo, n, size)| ==>
      lo <= Spans(lo, n, size)[i].0 < Spans(lo, n, size)[i].1 <= n
      && Spans(lo, n, size)[i].1 == Min(Spans(lo, n, size)[i].0 + size, n)
    ensures forall i :: 0 <= i < |Spans(lo, n, size)| - 1 ==>
      Spans(lo, n, size)[i + 1].0 == Spans(lo, n, size)[i].1
      && Spans(lo, n, size)[i].1 - Spans(lo, n, size)[i].0 == size
  {
    SpansInRange(lo, n, size);
    SpansAdjacent(lo, n, size);
    SpansEndAtN(lo, n, size);
  }

  /** Every span is a non-empty range inside [lo, n), cut at `size`. */
  lemma {:induction false} SpansInRange(lo: nat, n: nat, size: nat)
    requires size > 0
    ensures forall i :: 0 <= i < |Spans(lo, n, size)| ==>
      lo <= Spans(lo, n, size)[i].0 < Spans(lo, n, size)[i].1 <= n
      && Spans(lo, n, size)[i].1 == Min(Spans(lo, n, size)[i].0 + size, n)
    decreases n - lo
  {
    if lo < n {
      var sp := Spans(lo, n, size);
      var rest := Spans(lo + size, n, size);
      SpansInRange(lo + size, n, size);
      assert sp == [(lo, Min(lo + size, n))] + rest;
      forall i | 0 <= i < |sp|
        ensures lo <= sp[i].0 < sp[i].1 <= n && sp[i].1 == Min(sp[i].0 + size, n)
      {
        if i > 0 {
          assert sp[i] == rest[i - 1];
        } else {
          assert sp[0] == (lo, Min(lo + size, n));
        }
      }
    }
  }

  /** Each span starts where the previous one ends, and every span but the
      last is exactly `size` long. */
  lemma {:induction false} SpansAdjacent(lo: nat, n: nat, size: nat)
    requires size > 0
    ensures forall i :: 0 <= i < |Spans(lo, n, size)| - 1 ==>
      Spans(lo, n, size)[i + 1].0 == Spans(lo, n, size)[i].1
      && Spans(lo, n, size)[i].0 + size == Spans(lo, n, size)[i].1
    decreases n - lo
  {
    if lo < n {
      var sp := Spans(lo, n, size);
      var rest := Spans(lo + size, n, size);
      SpansAdjacent(lo + size, n, size);
      assert sp == [(lo, Min(lo + size, n))] + rest;
      forall i | 0 <= i < |sp| - 1
        ensures sp[i + 1].0 == sp[i].1 && sp[i].0 + size == sp[i].1
      {
        assert sp[i + 1] == rest[i];
        if i > 0 {
          assert sp[i] == rest[i - 1];
        } else {
          assert rest[0].0 == lo + size && lo + size < n;
        }
      }
    }
  }

  /** There are spans exactly when [lo, n) is not empty; the first starts at
      lo and the last ends at n. */
  lemma {:induction false} SpansEndAtN(lo: nat, n: nat, size: nat)
    requires size > 0
    ensures |Spans(lo, n, size)| == 0 <==> lo >= n
    ensures |Spans(lo, n, size)| > 0 ==>
      Spans(lo, n, size)[0].0 == lo && Spans(lo, n, size)[|Spans(lo, n, size)| - 1].1 == n
    decreases n - lo
  {
    if lo < n {
      var sp := Spans(lo, n, size);
      var rest := Spans(lo + size, n, size);
      SpansEndAtN(lo + size, n, size);
      assert sp == [(lo, Min(lo + size, n))] + rest;
      if |rest| > 0 {
        assert sp[|sp| - 1] == rest[|rest| - 1];
      }
    }
  }

  /** The i-th span starts at lo + i * size, the index the source's label
      is computed from. */
  lemma {:induction false} SpanStart(lo: nat, n: nat, size: nat, i: nat)
    requires size > 0 && i < |Spans(lo, n, size)|
    ensures Spans(lo, n, size)[i].0 == lo + i * size
    decreases i
  {
    if i > 0 {
      SpanStart(lo + size, n, size, i - 1);
      assert (i - 1) * size + size == i * size;
    }
  }

  /** The spans from 0 are exactly the chunks of the sequence. */
  lemma SpansAreChunks<T>(s: seq<T>, size: nat)
    requires size > 0
    ensures |Spans(0, |s|, size)| == |Chunks(s, size)|
    ensures forall i :: 0 <= i < |Chunks(s, size)| ==>
      Spans(0, |s|, size)[i].0 <= Spans(0, |s|, size)[i].1 <= |s|
      && Chunks(s, size)[i] == s[Spans(0, |s|, size)[i].0 .. Spans(0, |s|, size)[i].1]
  {
    SpansCountChunks(s, size);
    forall i | 0 <= i < |Chunks(s, size)|
      ensures Spans(0, |s|, size)[i].0 <= Spans(0, |s|, size)[i].1 <= |s|
        && Chunks(s, size)[i] == s[Spans(0, |s|, size)[i].0 .. Spans(0, |s|, size)[i].1]
    {
      SpanIsChunk(s, size, i);
    }
  }

  /** There are as many spans from 0 as chunks. */
  lemma SpansCountChunks<T>(s: seq<T>, size: nat)
    requires size > 0
    ensures |Spans(0, |s|, size)| == |Chunks(s, size)|
  {
    var sp := Spans(0, |s|, size);
    var m := |sp|;
    SpansEndAtN(0, |s|, size);
    if m > 0 {
      SpansInRange(0, |s|, size);
      SpanStart(0, |s|, size, m - 1);
      assert sp[m - 1].0 == (m - 1) * size < |s|;
      assert sp[m - 1].1 == |s| == Min((m - 1) * size + size, |s|);
      assert (m - 1) * size + size == m * size;
      ChunkExists(s, size, m - 1);
      ChunkExists(s, size, m);
    } else {
      ChunkExists(s, size, 0);
    }
  }

  /** Span i of the chunks from 0 is the range of chunk i. */
  lemma SpanIsChunk<T>(s: seq<T>, size: nat, i: nat)
    requires size > 0 && i < |Chunks(s, size)| && |Spans(0, |s|, size)| == |Chunks(s, size)|
    ensures Spans(0, |s|, size)[i].0 <= Spans(0, |s|, size)[i].1 <= |s|
    ensures Chunks(s, size)[i] == s[Spans(0, |s|, size)[i].0 .. Spans(0, |s|, size)[i].1]
  {
    var sp := Spans(0, |s|, size);
    SpansInRange(0, |s|, size);
    SpanStart(0, |s|, size, i);
    assert sp[i].0 == i * size && sp[i].1 == Min(i * size + size, |s|);
    ChunkAt(s, size, i, i * size);
  }

  lemma SliceValid(gs: seq<JungleGame>, lo: nat, hi: nat)
    requires ValidDurations(gs) && lo <= hi <= |gs|
    ensures ValidDurations(gs[lo..hi])
  {
    assert forall j :: 0 <= j < hi - lo ==> gs[lo..hi][j] == gs[lo + j];
  }

  /** `getPerformanceTrends`: for each chunk, its 1-based game range and the
      KPIs of its games. */
  function GetPerformanceTrends(gs: seq<JungleGame>): (ts: seq<Trend>)
    requires ValidDurations(gs)
    ensures |ts| == |Spans(0, |gs|, ChunkSize(|gs|))|
  {
    var sp := Spans(0, |gs|, ChunkSize(|gs|));
    SpansTile(0, |gs|, ChunkSize(|gs|));
    seq(|sp|, i requires 0 <= i < |sp| =>
      SliceValid(gs, sp[i].0, sp[i].1);
      Trend(sp[i].0 + 1, sp[i].1, CalculateAdvancedKPIs(gs[sp[i].0 .. sp[i].1])))
  }

  /** The i-th period is the i-th chunk of `chunkSize` games, labelled
      i*chunkSize+1 .. min((i+1)*chunkSize, n), and carries the KPIs of
      exactly that chunk. */
  lemma TrendIsChunk(gs: seq<JungleGame>, i: nat)
    requires ValidDurations(gs) && i < |GetPerformanceTrends(gs)|
    ensures var t := GetPerformanceTrends(gs)[i];
      var size := ChunkSize(|gs|);
      i < |Chunks(gs, size)|
      && t.first == i * size + 1
      && t.last == Min((i + 1) * size, |gs|)
      && ValidDurations(Chunks(gs, size)[i])
      && t.kpis == CalculateAdvancedKPIs(Chunks(gs, size)[i])
  {
    var size := ChunkSize(|gs|);
    var sp := Spans(0, |gs|, size);
    var ts := GetPerformanceTrends(gs);
    assert 0 <= sp[i].0 <= sp[i].1 <= |gs| by {
      SpansTile(0, |gs|, size);
    }
    var lo := sp[i].0;
    var hi := sp[i].1;
    assert hi == Min(lo + size, |gs|) by {
      SpansTile(0, |gs|, size);
    }
    SliceValid(gs, lo, hi);
    assert ts[i] == Trend(lo + 1, hi, CalculateAdvancedKPIs(gs[lo .. hi]));
    assert i < |Chunks(gs, size)| && Chunks(gs, size)[i] == gs[lo .. hi] by {
      SpansAreChunks(gs, size);
    }
    assert lo == i * size by {
      SpanStart(0, |gs|, size, i);
    }
    assert (i + 1) * size == i * size + size;
  }

  /** The periods tile games 1..n in order: no games, no periods; the first
      starts at game 1, each starts right after the previous one ends, all
      but the last hold exactly `chunkSize` games, and the last ends at game
      n. */
  lemma TrendsTile(gs: seq<JungleGame>)
    requires ValidDurations(gs)
    ensures |GetPerformanceTrends(gs)| == 0 <==> |gs| == 0
    ensures |GetPerformanceTrends(gs)| > 0 ==>
      GetPerformanceTrends(gs)[0].first == 1
      && GetPerformanceTrends(gs)[|GetPerformanceTrends(gs)| - 1].last == |gs|
    ensures forall i :: 0 <= i < |GetPerformanceTrends(gs)| ==>
      1 <= GetPerformanceTrends(gs)[i].first <= GetPerformanceTrends(gs)[i].last <= |gs|
    ensures forall i :: 0 <= i < |GetPerformanceTrends(gs)| - 1 ==>
      GetPerformanceTrends(gs)[i + 1].first == GetPerformanceTrends(gs)[i].last + 1
      && GetPerformanceTrends(gs)[i].last - GetPerformanceTrends(gs)[i].first + 1 == ChunkSize(|gs|)
  {
    SpansTile(0, |gs|, ChunkSize(|gs|));
  }
}
