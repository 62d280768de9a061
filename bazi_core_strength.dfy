/** calculate_wu_xing_strength of bazi_core.py: five points per stem and the
    hidden-stem weights per branch, summed by element, and the day master's
    share of the total. */
module BaziStrength {
  import opened Sexagenary
  import opened BaziCore

  /** The five keys of the score dictionary. */
  const AllElements: set<Element> := {Metal, Wood, Water, Fire, Earth}

  /** Five points for every stem of element e. */
  function StemScore(gans: seq<Stem>, e: Element): int
  {
    if |gans| == 0 then 0
    else StemScore(gans[..|gans| - 1], e) + (if StemElement(gans[|gans| - 1]) == e then 5 else 0)
  }

  /** The weights of the hidden stems of element e. */
  function HiddenScore(h: seq<(Stem, nat)>, e: Element): int
  {
    if |h| == 0 then 0
    else HiddenScore(h[..|h| - 1], e) + (if StemElement(h[|h| - 1].0) == e then h[|h| - 1].1 else 0)
  }

  /** The hidden-stem weights of element e over all branches. */
  function BranchScore(zhis: seq<Branch>, e: Element): int
  {
    if |zhis| == 0 then 0
    else BranchScore(zhis[..|zhis| - 1], e) + HiddenScore(HiddenStems(zhis[|zhis| - 1]), e)
  }

  function Score(gans: seq<Stem>, zhis: seq<Branch>, e: Element): int
  {
    StemScore(gans, e) + BranchScore(zhis, e)
  }

  function ScoreSum(scores: map<Element, int>): int
    requires AllElements <= scores.Keys
  {
    scores[Metal] + scores[Wood] + scores[Water] + scores[Fire] + scores[Earth]
  }

  /** The strength level for a day score out of a total: 强 above a quarter,
      中等 above 0.18, 弱 otherwise (and 弱 for a zero total, whose ratio is
      taken as 0). */
  function StrengthLevel(dayScore: int, total: int): (level: string)
    ensures level == "强" <==> total > 0 && 4 * dayScore > total
    ensures level == "中等" <==> total > 0 && 4 * dayScore <= total && 100 * dayScore > 18 * total
    ensures level == "弱" <==> total <= 0 || 100 * dayScore <= 18 * total
  {
    if total > 0 && 4 * dayScore > total then "强"
    else if total > 0 && 100 * dayScore > 18 * total then "中等"
    else "弱"
  }

  datatype WuXingStrength = WuXingStrength(
    scores: map<Element, int>,   // 五行得分
    dayElement: Element,         // 日主五行
    dayScore: int,               // 日主得分
    level: string)               // 强度等级

  /** Every stem scores 5, and every branch its hidden-stem weights, 8 in
      all, so the five scores add up to 5 per stem and 8 per branch. */
  lemma {:induction false} StemScoresTotal(gans: seq<Stem>)
    ensures StemScore(gans, Metal) + StemScore(gans, Wood) + StemScore(gans, Water)
          + StemScore(gans, Fire) + StemScore(gans, Earth) == 5 * |gans|
  {
    if |gans| > 0 {
      StemScoresTotal(gans[..|gans| - 1]);
    }
  }

  lemma {:induction false} HiddenScoresTotal(h: seq<(Stem, nat)>)
    ensures HiddenScore(h, Metal) + HiddenScore(h, Wood) + HiddenScore(h, Water)
          + HiddenScore(h, Fire) + HiddenScore(h, Earth) == WeightSum(h)
  {
    if |h| > 0 {
      HiddenScoresTotal(h[..|h| - 1]);
    }
  }

  lemma {:induction false} BranchScoresTotal(zhis: seq<Branch>)
    ensures BranchScore(zhis, Metal) + BranchScore(zhis, Wood) + BranchScore(zhis, Water)
          + BranchScore(zhis, Fire) + BranchScore(zhis, Earth) == 8 * |zhis|
  {
    if |zhis| > 0 {
      BranchScoresTotal(zhis[..|zhis| - 1]);
      HiddenScoresTotal(HiddenStems(zhis[|zhis| - 1]));
      HiddenStemsShape(zhis[|zhis| - 1]);
    }
  }

  lemma ScoresTotal(gans: seq<Stem>, zhis: seq<Branch>)
    ensures Score(gans, zhis, Metal) + Score(gans, zhis, Wood) + Score(gans, zhis, Water)
          + Score(gans, zhis, Fire) + Score(gans, zhis, Earth) == 5 * |gans| + 8 * |zhis|
  {
    StemScoresTotal(gans);
    BranchScoresTotal(zhis);
  }

  lemma StemScoreStep(gans: seq<Stem>, i: nat)
    requires i < |gans|
    ensures forall e :: StemScore(gans[..i + 1], e) == StemScore(gans[..i], e) + (if StemElement(gans[i]) == e then 5 else 0)
  {
    assert gans[..i + 1][..i] == gans[..i];
  }

  lemma HiddenScoreStep(h: seq<(Stem, nat)>, k: nat)
    requires k < |h|
    ensures forall e :: HiddenScore(h[..k + 1], e) == HiddenScore(h[..k], e) + (if StemElement(h[k].0) == e then h[k].1 else 0)
  {
    assert h[..k + 1][..k] == h[..k];
  }

  lemma BranchScoreStep(zhis: seq<Branch>, i: nat)
    requires i < |zhis|
    ensures forall e :: BranchScore(zhis[..i + 1], e) == BranchScore(zhis[..i], e) + HiddenScore(HiddenStems(zhis[i]), e)
  {
    assert zhis[..i + 1][..i] == zhis[..i];
  }

  /** calculate_wu_xing_strength: five points per stem and the hidden-stem
      weights per branch go to their elements; the day master's share of
      the total decides the level. */
  method CalculateWuXingStrength(gans: seq<Stem>, zhis: seq<Branch>, dayGan: Stem)
    returns (r: WuXingStrength)
    ensures r.scores.Keys == AllElements
    ensures forall e :: e in AllElements ==> r.scores[e] == Score(gans, zhis, e)
    ensures r.dayElement == StemElement(dayGan)
    ensures r.dayScore == Score(gans, zhis, StemElement(dayGan))
    ensures r.level == StrengthLevel(r.dayScore, 5 * |gans| + 8 * |zhis|)
  {
    var scores := ScoreStems(gans);
    scores := ScoreBranches(scores, gans, zhis);
    var dayEle := StemElement(dayGan);
    var dayScore := scores[dayEle];
    var total := ScoreSum(scores);
    ScoresTotal(gans, zhis);
    var level := StrengthLevel(dayScore, total);
    r := WuXingStrength(scores, dayEle, dayScore, level);
  }

  /** The first loop of calculate_wu_xing_strength: five points per stem,
      starting from zero for all five elements. */
  method ScoreStems(gans: seq<Stem>) returns (scores: map<Element, int>)
    ensures scores.Keys == AllElements
    ensures forall e :: e in AllElements ==> scores[e] == StemScore(gans, e)
  {
    scores := map[Metal := 0, Wood := 0, Water := 0, Fire := 0, Earth := 0];
    for i := 0 to |gans|
      invariant scores.Keys == AllElements
      invariant forall e :: e in AllElements ==> scores[e] == StemScore(gans[..i], e)
    {
      StemScoreStep(gans, i);
      var e := StemElement(gans[i]);
      scores := scores[e := scores[e] + 5];
    }
    assert gans[..|gans|] == gans;
  }

  /** The second loop of calculate_wu_xing_strength: every branch adds its
      hidden-stem weights. */
  method ScoreBranches(scores: map<Element, int>, gans: seq<Stem>, zhis: seq<Branch>) returns (updated: map<Element, int>)
    requires scores.Keys == AllElements
    requires forall e :: e in AllElements ==> scores[e] == StemScore(gans, e)
    ensures updated.Keys == AllElements
    ensures forall e :: e in AllElements ==> updated[e] == Score(gans, zhis, e)
  {
    updated := scores;
    for i := 0 to |zhis|
      invariant updated.Keys == AllElements
      invariant forall e :: e in AllElements ==> updated[e] == StemScore(gans, e) + BranchScore(zhis[..i], e)
    {
      updated := AddHiddenStems(updated, HiddenStems(zhis[i]));
      BranchScoreStep(zhis, i);
    }
    assert zhis[..|zhis|] == zhis;
  }

  /** The inner loop of calculate_wu_xing_strength: each hidden stem adds
      its weight to its element. */
  method AddHiddenStems(scores: map<Element, int>, items: seq<(Stem, nat)>) returns (updated: map<Element, int>)
    requires scores.Keys == AllElements
    ensures updated.Keys == AllElements
    ensures forall e :: e in AllElements ==> updated[e] == scores[e] + HiddenScore(items, e)
  {
    updated := scores;
    for k := 0 to |items|
      invariant updated.Keys == AllElements
      invariant forall e :: e in AllElements ==> updated[e] == scores[e] + HiddenScore(items[..k], e)
    {
      HiddenScoreStep(items, k);
      var (gan, weight) := items[k];
      var e := StemElement(gan);
      updated := updated[e := updated[e] + weight];
    }
    assert items[..|items|] == items;
  }

  /** A four-pillar chart scores 52 points in all. */
  lemma ChartTotal(gans: seq<Stem>, zhis: seq<Branch>)
    requires |gans| == 4 && |zhis| == 4
    ensures Score(gans, zhis, Metal) + Score(gans, zhis, Wood) + Score(gans, zhis, Water)
          + Score(gans, zhis, Fire) + Score(gans, zhis, Earth) == 52
  {
    ScoresTotal(gans, zhis);
  }
}
