/** bazi_calculator.py: the parts of BaziCalculator that work without the
    calendar library once the four pillars are known: the tai-yuan offset,
    the hidden-stem ten-gods lists, the five-element tally with its missing
    elements, and the helpers behind the element analysis. */
module BaziCalculator {
  import opened Sexagenary
  import opened DataModels
  import opened ShishenCalculator
  import BaziCalculatorNew
  import BaziCycle

  // ---------------------------------------------------------------------
  // Tai-yuan (lines 139-148)
  // ---------------------------------------------------------------------

  /** tg_list.index(month_gan) if month_gan in tg_list else 0, and the same
      for the branch; the conception pillar of that month pillar, the stem
      one on and the branch three on as in bazi_core.py. */
  function TaiYuan(monthGan: string, monthZhi: string): (r: string)
    ensures |r| == 2 && ParsePillar(r).Some?
  {
    var t := BaziCycle.TaiYuan(Pillar(StemText(monthGan).GetOr(0), BranchText(monthZhi).GetOr(0)));
    PillarTextRoundTrip(t);
    PillarText(t)
  }

  /** For the glyphs of a pillar the text parses back to its tai-yuan. */
  lemma TaiYuanOfPillar(p: Pillar)
    ensures ParsePillar(TaiYuan([TG[p.stem]], [DZ[p.branch]])) == Some(BaziCycle.TaiYuan(p))
  {
    StemGlyphText(p.stem);
    BranchGlyphText(p.branch);
    PillarTextRoundTrip(BaziCycle.TaiYuan(p));
  }

  /** A stem or branch glyph the lists lack is read as 甲 or 子. */
  lemma TaiYuanUnknownGlyph(monthGan: string, monthZhi: string)
    ensures StemText(monthGan).None? ==> TaiYuan(monthGan, monthZhi) == TaiYuan([TG[0]], monthZhi)
    ensures BranchText(monthZhi).None? ==> TaiYuan(monthGan, monthZhi) == TaiYuan(monthGan, [DZ[0]])
  {
    StemGlyphText(0);
    BranchGlyphText(0);
  }

  // ---------------------------------------------------------------------
  // Hidden-stem ten gods (lines 171-184)
  // ---------------------------------------------------------------------

  /** What the loop appends for one branch: for each hidden stem of
      zhi_hide_gan, in its order, the stem glyph followed by its relation to
      the day stem; nothing for a string that is not a branch. */
  function HiddenGods(dayGan: string, zhi: string): (r: seq<string>)
    ensures |r| == |BaziCalculatorNew.GetHideGan(zhi)|
    ensures forall k :: 0 <= k < |r| ==> BaziCalculatorNew.GetHideGan(zhi)[k] <= r[k]
  {
    var hidden := BaziCalculatorNew.GetHideGan(zhi);
    seq(|hidden|, k requires 0 <= k < |hidden| => hidden[k] + GetRelation(dayGan, hidden[k]))
  }

  /** The inner loop for one branch of the chart. */
  method BranchGods(dayGan: string, zhi: string) returns (gods: seq<string>)
    ensures gods == HiddenGods(dayGan, zhi)
  {
    gods := [];
    if BranchText(zhi).Some? {
      var hidden := BaziCalculatorNew.GetHideGan(zhi);
      for k := 0 to |hidden|
        invariant gods == HiddenGods(dayGan, zhi)[..k]
      {
        var shishen := GetRelation(dayGan, hidden[k]);
        PrefixStep(HiddenGods(dayGan, zhi), k);
        gods := gods + [hidden[k] + shishen];
      }
      assert HiddenGods(dayGan, zhi)[..|hidden|] == HiddenGods(dayGan, zhi);
    }
  }

  /** gods_detail: the stem relations of the year, month and hour stems
      with 日主 for the day stem, and the hidden-stem lists of the year,
      month, day and hour branches. */
  method GodsDetail(dayGan: string, yearGan: string, monthGan: string, timeGan: string,
                    yearZhi: string, monthZhi: string, dayZhi: string, timeZhi: string)
      returns (stemGods: seq<string>, branchGods: seq<seq<string>>)
    ensures stemGods == [GetRelation(dayGan, yearGan), GetRelation(dayGan, monthGan), "日主", GetRelation(dayGan, timeGan)]
    ensures branchGods == [HiddenGods(dayGan, yearZhi), HiddenGods(dayGan, monthZhi),
                           HiddenGods(dayGan, dayZhi), HiddenGods(dayGan, timeZhi)]
  {
    stemGods := [GetRelation(dayGan, yearGan), GetRelation(dayGan, monthGan), "日主", GetRelation(dayGan, timeGan)];
    var yearList := BranchGods(dayGan, yearZhi);
    var monthList := BranchGods(dayGan, monthZhi);
    var dayList := BranchGods(dayGan, dayZhi);
    var timeList := BranchGods(dayGan, timeZhi);
    branchGods := [yearList, monthList, dayList, timeList];
  }

  /** For a day stem and a branch: one entry per hidden stem, the stem glyph
      and the label the element cycles and polarity give it; the first entry
      is the branch's own element. */
  lemma HiddenGodsOfBranch(d: Stem, z: Branch)
    ensures var r := HiddenGods([TG[d]], [DZ[z]]);
      && |r| == |BaziCalculatorNew.HideGan(z)|
      && (forall k :: 0 <= k < |r| ==>
            var h := BaziCalculatorNew.HideGan(z)[k];
            r[k] == [TG[h]] + Label(KinGod(Kin(StemElement(d), StemElement(h)), IsYang(d) == IsYang(h))))
      && r[0] == [TG[BaziCalculatorNew.HideGan(z)[0]]]
                 + Label(KinGod(Kin(StemElement(d), BranchElement(z)), IsYang(d) == IsYang(BaziCalculatorNew.HideGan(z)[0])))
  {
    GlyphRoundTrip();
    var hs := BaziCalculatorNew.HideGan(z);
    forall k | 0 <= k < |hs|
      ensures GetRelation([TG[d]], [TG[hs[k]]])
           == Label(KinGod(Kin(StemElement(d), StemElement(hs[k])), IsYang(d) == IsYang(hs[k])))
    {
      GetRelationOfStems(d, hs[k]);
    }
    BaziCalculatorNew.HideGanMainElement(z);
  }

  /** A string that is not a branch gets an empty list. */
  lemma HiddenGodsOfNonBranch(dayGan: string, zhi: string)
    ensures BranchText(zhi).None? ==> HiddenGods(dayGan, zhi) == []
  {
  }

  // ---------------------------------------------------------------------
  // Elements of stems and branches (lines 524-548)
  // ---------------------------------------------------------------------

  /** _get_element: the element_map dictionary. Its values are the glyphs
      of the five elements and 未知 for any other key; Some(e) stands for the
      glyph of e and None for 未知 (ElementText). */
  function GetElement(gan: string): (r: Option<Element>)
    ensures StemText(gan).Some? ==> r == Some(StemElement(StemText(gan).value))
    ensures StemText(gan).None? ==> r == None
  {
    if |gan| != 1 then None
    else match gan[0]
      case '甲' | '乙' => Some(Wood)
      case '丙' | '丁' => Some(Fire)
      case '戊' | '己' => Some(Earth)
      case '庚' | '辛' => Some(Metal)
      case '壬' | '癸' => Some(Water)
      case _ => None
  }

  /** _get_zhi_element: the element_map dictionary for branches. */
  function GetZhiElement(zhi: string): (r: Option<Element>)
    ensures BranchText(zhi).Some? ==> r == Some(BranchElement(BranchText(zhi).value))
    ensures BranchText(zhi).None? ==> r == None
  {
    if |zhi| != 1 then None
    else match zhi[0]
      case '子' | '亥' => Some(Water)
      case '寅' | '卯' => Some(Wood)
      case '巳' | '午' => Some(Fire)
      case '申' | '酉' => Some(Metal)
      case '辰' | '戌' | '丑' | '未' => Some(Earth)
      case _ => None
  }

  /** The string the helpers return. */
  function ElementText(e: Option<Element>): (r: string)
    ensures r == Unknown <==> e.None?
  {
    match e
    case Some(x) => [ElementGlyph(x)]
    case None => Unknown
  }

  /** Different element values are different strings, so comparing the
      helpers' strings is comparing these values. */
  lemma ElementTextInjective(a: Option<Element>, b: Option<Element>)
    ensures ElementText(a) == ElementText(b) <==> a == b
  {
    if a.Some? && b.Some? && ElementText(a) == ElementText(b) {
      assert ElementText(a)[0] == ElementText(b)[0];
    }
  }

  /** Stems share an element exactly in the pairs 甲乙, 丙丁, 戊己, 庚辛,
      壬癸. */
  lemma GetElementPairs(s: Stem, t: Stem)
    ensures GetElement([TG[s]]) == GetElement([TG[t]]) <==> s / 2 == t / 2
  {
    StemGlyphText(s);
    StemGlyphText(t);
    StemElementPairs(s, t);
  }

  /** Exactly the four branches 辰戌丑未 are earth. */
  lemma GetZhiElementEarth(zhi: string)
    ensures GetZhiElement(zhi) == Some(Earth) <==> zhi == "辰" || zhi == "戌" || zhi == "丑" || zhi == "未"
  {
  }

  // ---------------------------------------------------------------------
  // The five-element tally (lines 198-215)
  // ---------------------------------------------------------------------

  /** The keys of wuxing_count, 金木水火土 in the dictionary's order. The
      tally is kept as a sequence of five counts, count[k] belonging to key
      k. */
  const WuxingKeys: seq<Element> := [Metal, Wood, Water, Fire, Earth]

  /** The position of an element's key. */
  function KeyIndex(e: Element): (k: nat)
    ensures k < 5 && WuxingKeys[k] == e
  {
    match e
    case Metal => 0
    case Wood => 1
    case Water => 2
    case Fire => 3
    case Earth => 4
  }

  /** How many of the stems have element e. */
  function GanCount(gans: seq<string>, e: Option<Element>): nat
  {
    if gans == [] then 0
    else GanCount(gans[..|gans| - 1], e) + Indicator(GetElement(gans[|gans| - 1]) == e)
  }

  /** How many of the branches have element e. */
  function ZhiCount(zhis: seq<string>, e: Option<Element>): nat
  {
    if zhis == [] then 0
    else ZhiCount(zhis[..|zhis| - 1], e) + Indicator(GetZhiElement(zhis[|zhis| - 1]) == e)
  }

  /** The tally the loops leave: per key, the stems and branches of that
      element. */
  function WuxingCount(gans: seq<string>, zhis: seq<string>): (count: seq<int>)
    ensures |count| == 5
    ensures forall k :: 0 <= k < 5 ==> count[k] >= 0
  {
    seq(5, k requires 0 <= k < 5 => GanCount(gans, Some(WuxingKeys[k])) + ZhiCount(zhis, Some(WuxingKeys[k])))
  }

  /** One more glyph of element e: the count of its key goes up by one and
      no other, and nothing changes for 未知, which is not a key. */
  function Bump(count: seq<int>, e: Option<Element>): (r: seq<int>)
    requires |count| == 5
    ensures |r| == 5
    ensures forall k :: 0 <= k < 5 ==> r[k] == count[k] + Indicator(e == Some(WuxingKeys[k]))
  {
    match e
    case Some(x) => count[KeyIndex(x) := count[KeyIndex(x)] + 1]
    case None => count
  }

  lemma GanCountStep(gans: seq<string>, i: int, e: Option<Element>)
    requires 0 <= i < |gans|
    ensures GanCount(gans[..i + 1], e) == GanCount(gans[..i], e) + Indicator(GetElement(gans[i]) == e)
  {
    assert gans[..i + 1][..i] == gans[..i];
  }

  lemma ZhiCountStep(zhis: seq<string>, i: int, e: Option<Element>)
    requires 0 <= i < |zhis|
    ensures ZhiCount(zhis[..i + 1], e) == ZhiCount(zhis[..i], e) + Indicator(GetZhiElement(zhis[i]) == e)
  {
    assert zhis[..i + 1][..i] == zhis[..i];
  }

  /** The two loops that fill wuxing_count: each stem, then each branch,
      whose element is a key adds one to that key. */
  method CountWuxing(gans: seq<string>, zhis: seq<string>) returns (count: seq<int>)
    ensures count == WuxingCount(gans, zhis)
  {
    count := [0, 0, 0, 0, 0];
    count := CountStems(count, gans);
    count := CountBranches(count, zhis);
  }

  /** The stem loop: each stem whose element is a key adds one to it. */
  method CountStems(start: seq<int>, gans: seq<string>) returns (count: seq<int>)
    requires |start| == 5
    ensures |count| == 5
    ensures forall k :: 0 <= k < 5 ==> count[k] == start[k] + GanCount(gans, Some(WuxingKeys[k]))
  {
    count := start;
    for i := 0 to |gans|
      invariant |count| == 5
      invariant forall k :: 0 <= k < 5 ==> count[k] == start[k] + GanCount(gans[..i], Some(WuxingKeys[k]))
    {
      var elementType := GetElement(gans[i]);
      forall k | 0 <= k < 5 {
        GanCountStep(gans, i, Some(WuxingKeys[k]));
      }
      count := AddOne(count, elementType);
    }
    assert gans[..|gans|] == gans;
  }

  /** The branch loop: each branch whose element is a key adds one to it. */
  method CountBranches(start: seq<int>, zhis: seq<string>) returns (count: seq<int>)
    requires |start| == 5
    ensures |count| == 5
    ensures forall k :: 0 <= k < 5 ==> count[k] == start[k] + ZhiCount(zhis, Some(WuxingKeys[k]))
  {
    count := start;
    for i := 0 to |zhis|
      invariant |count| == 5
      invariant forall k :: 0 <= k < 5 ==> count[k] == start[k] + ZhiCount(zhis[..i], Some(WuxingKeys[k]))
    {
      var elementType := GetZhiElement(zhis[i]);
      forall k | 0 <= k < 5 {
        ZhiCountStep(zhis, i, Some(WuxingKeys[k]));
      }
      count := AddOne(count, elementType);
    }
    assert zhis[..|zhis|] == zhis;
  }

  /** wuxing_count[element_type] += 1 when the element is a key. */
  method AddOne(count: seq<int>, elementType: Option<Element>) returns (r: seq<int>)
    requires |count| == 5
    ensures r == Bump(count, elementType)
  {
    r := count;
    if elementType.Some? {
      var key := KeyIndex(elementType.value);
      r := r[key := r[key] + 1];
    }
  }

  /** sum(wuxing_count.values()) */
  function Total(count: seq<int>): int
    requires |count| == 5
  {
    count[0] + count[1] + count[2] + count[3] + count[4]
  }

  /** Each stem glyph is counted under exactly one key and anything else
      under none: the keys together count at most the stems there are, and
      all of them when every entry is a stem glyph. */
  lemma {:induction false} GanCountTotal(gans: seq<string>)
    ensures Total(seq(5, k requires 0 <= k < 5 => GanCount(gans, Some(WuxingKeys[k])) as int)) <= |gans|
    ensures (forall i :: 0 <= i < |gans| ==> StemText(gans[i]).Some?) ==>
              Total(seq(5, k requires 0 <= k < 5 => GanCount(gans, Some(WuxingKeys[k])) as int)) == |gans|
  {
    if gans != [] {
      var init := gans[..|gans| - 1];
      GanCountTotal(init);
      assert forall i :: 0 <= i < |init| ==> init[i] == gans[i];
    }
  }

  /** The same for branches. */
  lemma {:induction false} ZhiCountTotal(zhis: seq<string>)
    ensures Total(seq(5, k requires 0 <= k < 5 => ZhiCount(zhis, Some(WuxingKeys[k])) as int)) <= |zhis|
    ensures (forall i :: 0 <= i < |zhis| ==> BranchText(zhis[i]).Some?) ==>
              Total(seq(5, k requires 0 <= k < 5 => ZhiCount(zhis, Some(WuxingKeys[k])) as int)) == |zhis|
  {
    if zhis != [] {
      var init := zhis[..|zhis| - 1];
      ZhiCountTotal(init);
      assert forall i :: 0 <= i < |init| ==> init[i] == zhis[i];
    }
  }

  /** For four stem glyphs and four branch glyphs the counts add up to 8;
      in general to at most the number of glyphs. */
  lemma WuxingCountTotal(gans: seq<string>, zhis: seq<string>)
    ensures Total(WuxingCount(gans, zhis)) <= |gans| + |zhis|
    ensures (forall i :: 0 <= i < |gans| ==> StemText(gans[i]).Some?) &&
            (forall i :: 0 <= i < |zhis| ==> BranchText(zhis[i]).Some?) ==>
              Total(WuxingCount(gans, zhis)) == |gans| + |zhis|
  {
    GanCountTotal(gans);
    ZhiCountTotal(zhis);
  }

  /** An element has count 0 exactly when no stem has it. */
  lemma {:induction false} GanCountZero(gans: seq<string>, e: Option<Element>)
    ensures GanCount(gans, e) == 0 <==> forall i :: 0 <= i < |gans| ==> GetElement(gans[i]) != e
  {
    if gans != [] {
      var init := gans[..|gans| - 1];
      GanCountZero(init, e);
      assert forall i :: 0 <= i < |init| ==> init[i] == gans[i];
    }
  }

  /** An element has count 0 exactly when no branch has it. */
  lemma {:induction false} ZhiCountZero(zhis: seq<string>, e: Option<Element>)
    ensures ZhiCount(zhis, e) == 0 <==> forall i :: 0 <= i < |zhis| ==> GetZhiElement(zhis[i]) != e
  {
    if zhis != [] {
      var init := zhis[..|zhis| - 1];
      ZhiCountZero(init, e);
      assert forall i :: 0 <= i < |init| ==> init[i] == zhis[i];
    }
  }

  /** missing_elements: the keys with count 0, in key order. */
  function Missing(count: seq<int>): (r: seq<Element>)
    requires |count| == 5
    ensures forall e :: e in r <==> count[KeyIndex(e)] == 0
    ensures forall i, j :: 0 <= i < j < |r| ==> KeyIndex(r[i]) < KeyIndex(r[j])
  {
    MissingFrom(count, 0)
  }

  /** The keys from position k on whose count is 0. */
  function MissingFrom(count: seq<int>, k: nat): (r: seq<Element>)
    requires |count| == 5 && k <= 5
    ensures forall e :: e in r <==> k <= KeyIndex(e) && count[KeyIndex(e)] == 0
    ensures forall i, j :: 0 <= i < j < |r| ==> KeyIndex(r[i]) < KeyIndex(r[j])
    decreases 5 - k
  {
    if k == 5 then []
    else (if count[k] == 0 then [WuxingKeys[k]] else []) + MissingFrom(count, k + 1)
  }

  /** An element is missing exactly when no stem and no branch of the chart
      has it. */
  lemma MissingIffAbsent(gans: seq<string>, zhis: seq<string>, e: Element)
    ensures e in Missing(WuxingCount(gans, zhis)) <==>
              (forall i :: 0 <= i < |gans| ==> GetElement(gans[i]) != Some(e))
              && (forall i :: 0 <= i < |zhis| ==> GetZhiElement(zhis[i]) != Some(e))
  {
    GanCountZero(gans, Some(e));
    ZhiCountZero(zhis, Some(e));
  }

  /** ninclude: the glyphs of the missing elements, or ["无"] when none is
      missing. */
  function NInclude(missing: seq<Element>): (r: seq<string>)
    ensures missing == [] ==> r == ["无"]
    ensures missing != [] ==> |r| == |missing| && forall i :: 0 <= i < |r| ==> r[i] == ElementText(Some(missing[i]))
  {
    if missing != [] then seq(|missing|, i requires 0 <= i < |missing| => [ElementGlyph(missing[i])]) else ["无"]
  }

  // ---------------------------------------------------------------------
  // Text helpers (lines 515-522, 550-569, 600-610)
  // ---------------------------------------------------------------------

  /** _get_shishen_for_pillar: the relation of the pillar's first glyph to
      the day stem, 未知 for a string shorter than two. */
  function GetShishenForPillar(dayGan: string, pillar: string): (r: string)
    ensures |pillar| < 2 ==> r == Unknown
    ensures |pillar| >= 2 ==> r == GetRelation(dayGan, pillar[..1])
  {
    if |pillar| >= 2 then GetRelation(dayGan, [pillar[0]]) else Unknown
  }

  /** For a pillar's text it is the stem's label; its branch plays no part. */
  lemma GetShishenForPillarOfPillar(d: Stem, p: Pillar)
    ensures GetShishenForPillar([TG[d]], PillarText(p))
         == Label(KinGod(Kin(StemElement(d), StemElement(p.stem)), IsYang(d) == IsYang(p.stem)))
    ensures GetShishenForPillar([TG[d]], PillarText(p)) == GetShishenForPillar([TG[d]], PillarText(Pillar(p.stem, (p.branch + 2) % 12)))
  {
    GetRelationOfStems(d, p.stem);
    assert [PillarText(p)[0]] == [TG[p.stem]];
    assert [PillarText(Pillar(p.stem, (p.branch + 2) % 12))[0]] == [TG[p.stem]];
  }

  /** A longer string whose first glyph is neither a stem nor a branch gets
      "" from get_relation, not 未知. */
  lemma GetShishenForPillarOfOther(dayGan: string, pillar: string)
    requires |pillar| >= 2 && pillar[0] !in TG && pillar[0] !in DZ
    ensures GetShishenForPillar(dayGan, pillar) == ""
  {
  }

  /** The stems and branches whose element string equals the day stem's;
      an unknown day stem has 未知, which every unknown glyph shares. */
  function SameCount(dayGan: string, gans: seq<string>, zhis: seq<string>): nat
  {
    var dayElement := GetElement(dayGan);
    GanCount(gans, dayElement) + ZhiCount(zhis, dayElement)
  }

  /** _analyze_strength */
  function AnalyzeStrength(dayGan: string, gans: seq<string>, zhis: seq<string>): (r: string)
    ensures r == "强" || r == "弱" || r == "中和"
  {
    var sameCount := SameCount(dayGan, gans, zhis);
    if sameCount >= 3 then "强"
    else if sameCount <= 1 then "弱"
    else "中和"
  }

  /** For a stem day stem the count is the tally of its element, so the
      verdict reads off wuxing_count: 强 from 3, 弱 up to 1, 中和 at 2. */
  lemma AnalyzeStrengthOfTally(dayGan: string, gans: seq<string>, zhis: seq<string>)
    requires StemText(dayGan).Some?
    ensures GetElement(dayGan).Some?
    ensures var c := WuxingCount(gans, zhis)[KeyIndex(GetElement(dayGan).value)];
      && SameCount(dayGan, gans, zhis) == c
      && (AnalyzeStrength(dayGan, gans, zhis) == "强" <==> c >= 3)
      && (AnalyzeStrength(dayGan, gans, zhis) == "弱" <==> c <= 1)
      && (AnalyzeStrength(dayGan, gans, zhis) == "中和" <==> c == 2)
  {
  }

  /** A stem in the list that shares the day stem's element (the day stem
      itself, say) counts, so the count is at least 1. */
  lemma AnalyzeStrengthSelf(dayGan: string, gans: seq<string>, zhis: seq<string>, i: int)
    requires 0 <= i < |gans| && GetElement(gans[i]) == GetElement(dayGan)
    ensures SameCount(dayGan, gans, zhis) >= 1
  {
    GanCountZero(gans, GetElement(dayGan));
  }

  /** An unknown day stem has element 未知, which no stem or branch glyph
      has: such a chart is 弱. */
  lemma AnalyzeStrengthUnknownDay(dayGan: string, gans: seq<string>, zhis: seq<string>)
    requires StemText(dayGan).None?
    requires forall i :: 0 <= i < |gans| ==> StemText(gans[i]).Some?
    requires forall i :: 0 <= i < |zhis| ==> BranchText(zhis[i]).Some?
    ensures AnalyzeStrength(dayGan, gans, zhis) == "弱"
  {
    GanCountZero(gans, None);
    ZhiCountZero(zhis, None);
  }

  /** The key positions from k on with a positive count, in order. */
  function PresentFrom(count: seq<int>, k: nat): (r: seq<nat>)
    requires |count| == 5 && k <= 5
    ensures forall j :: j in r <==> k <= j < 5 && count[j] > 0
    ensures forall i :: 0 <= i < |r| ==> k <= r[i] < 5
    ensures forall i, j :: 0 <= i < j < |r| ==> r[i] < r[j]
    decreases 5 - k
  {
    if k == 5 then []
    else (if count[k] > 0 then [k] else []) + PresentFrom(count, k + 1)
  }

  /** With no negative count, the positions with a positive count and the
      missing keys are all five keys. */
  lemma {:induction false} PresentAndMissing(count: seq<int>, k: nat)
    requires |count| == 5 && k <= 5
    requires forall j :: 0 <= j < 5 ==> count[j] >= 0
    ensures |PresentFrom(count, k)| + |MissingFrom(count, k)| == 5 - k
    decreases 5 - k
  {
    if k < 5 {
      PresentAndMissing(count, k + 1);
    }
  }

  /** f"{k}{v}个" for key position k. */
  function EntryText(count: seq<int>, k: nat): string
    requires |count| == 5 && k < 5
  {
    [ElementGlyph(WuxingKeys[k])] + IntText(count[k]) + "个"
  }

  /** An entry begins with its key's glyph. */
  lemma EntryFirst(count: seq<int>, k: nat)
    requires |count| == 5 && k < 5
    ensures EntryText(count, k) != [] && EntryText(count, k)[0] == ElementGlyph(WuxingKeys[k])
  {
  }

  /** "，".join(parts) */
  function Join<T>(parts: seq<seq<T>>, sep: seq<T>): (r: seq<T>)
    ensures parts == [] ==> r == []
    ensures parts != [] && parts[0] != [] ==> r != [] && r[0] == parts[0][0]
  {
    if parts == [] then []
    else if |parts| == 1 then parts[0]
    else parts[0] + sep + Join(parts[1..], sep)
  }

  /** _format_wuxing_distribution: the entries of the keys with a positive
      count, in key order, joined by "，". */
  function FormatWuxingDistribution(count: seq<int>): (r: string)
    requires |count| == 5
    ensures r == "" <==> PresentFrom(count, 0) == []
  {
    var present := PresentFrom(count, 0);
    if present == [] then Join(Entries(count), "，")
    else
      EntryFirst(count, present[0]);
      Join(Entries(count), "，")
  }

  /** The entries, one per key position with a positive count. */
  function Entries(count: seq<int>): (r: seq<string>)
    requires |count| == 5
    ensures |r| == |PresentFrom(count, 0)|
  {
    var present := PresentFrom(count, 0);
    seq(|present|, i requires 0 <= i < |present| => EntryText(count, present[i]))
  }

  /** The text is empty exactly when no count is positive. */
  lemma FormatWuxingDistributionEmpty(count: seq<int>)
    requires |count| == 5
    ensures FormatWuxingDistribution(count) == "" <==> forall k :: 0 <= k < 5 ==> count[k] <= 0
  {
    NonePresent(count);
  }

  lemma NonePresent(count: seq<int>)
    requires |count| == 5
    ensures PresentFrom(count, 0) == [] <==> forall k :: 0 <= k < 5 ==> count[k] <= 0
  {
    var present := PresentFrom(count, 0);
    if present != [] {
      assert present[0] in present;
    }
  }

  /** A nonempty text begins with the glyph of the first key with a
      positive count. */
  lemma FormatWuxingDistributionFirst(count: seq<int>)
    requires |count| == 5
    ensures PresentFrom(count, 0) != [] ==>
              FormatWuxingDistribution(count) != "" &&
              FormatWuxingDistribution(count)[0] == ElementGlyph(WuxingKeys[PresentFrom(count, 0)[0]])
  {
    var present := PresentFrom(count, 0);
    if present != [] {
      var parts := Entries(count);
      assert parts[0] == EntryText(count, present[0]);
      EntryFirst(count, present[0]);
      assert Join(parts, "，")[0] == parts[0][0];
    }
  }

  /** _overall_luck_analysis */
  function OverallLuckAnalysis(count: seq<int>): (r: string)
    requires |count| == 5
    ensures r == "五行较全，运势平稳" || r == "五行偏少，需注意平衡" || r == "五行适中，运势良好"
  {
    var total := Total(count);
    if total >= 6 then "五行较全，运势平稳"
    else if total <= 4 then "五行偏少，需注意平衡"
    else "五行适中，运势良好"
  }

  /** Four stem glyphs and four branch glyphs always tally 8, so the verdict
      of a chart is always 较全. */
  lemma OverallLuckOfChart(gans: seq<string>, zhis: seq<string>)
    requires |gans| == 4 && |zhis| == 4
    requires forall i :: 0 <= i < 4 ==> StemText(gans[i]).Some? && BranchText(zhis[i]).Some?
    ensures Total(WuxingCount(gans, zhis)) == 8
    ensures OverallLuckAnalysis(WuxingCount(gans, zhis)) == "五行较全，运势平稳"
  {
    WuxingCountTotal(gans, zhis);
  }
}
