/** The main rule tables of bazi_core.py: the hidden stems of each branch
    and the ten-gods and twelve-stage table, with ten_shen and ten_shen_dz
    that read them. The elemental strength, shen-sha, branch relations and
    cycle lookups of the same file are the modules BaziStrength,
    BaziShensha, BaziRelations and BaziCycle. */
module BaziCore {
  import opened Sexagenary

  // ---------------------------------------------------------------------
  // Hidden stems

  /** DZ_CANG_GAN for 子..亥: the stems hidden in each branch with their
      weights, in the table's own order (main qi first). */
  const DzCangGan: seq<seq<(Stem, nat)>> := [
      [(9, 8)], // 子
      [(5, 5), (9, 2), (7, 1)], // 丑
      [(0, 5), (2, 2), (4, 1)], // 寅
      [(1, 8)], // 卯
      [(4, 5), (1, 2), (9, 1)], // 辰
      [(2, 5), (4, 2), (6, 1)], // 巳
      [(3, 5), (5, 3)], // 午
      [(5, 5), (3, 2), (1, 1)], // 未
      [(6, 5), (8, 2), (4, 1)], // 申
      [(7, 8)], // 酉
      [(4, 5), (7, 2), (3, 1)], // 戌
      [(8, 5), (0, 3)]  // 亥
    ]

  function HiddenStems(z: Branch): (h: seq<(Stem, nat)>)
  {
    DzCangGan[z]
  }

  /** The sum of the weights of a hidden-stem list. */
  function WeightSum(h: seq<(Stem, nat)>): nat
  {
    if |h| == 0 then 0 else WeightSum(h[..|h| - 1]) + h[|h| - 1].1
  }

  /** Every branch hides stems of total weight 8, listed by non-increasing
      weight, and the first one is strictly heavier than the rest. */
  lemma HiddenStemsShape(z: Branch)
    ensures WeightSum(HiddenStems(z)) == 8
    ensures forall i, j :: 0 <= i < j < |HiddenStems(z)| ==> HiddenStems(z)[i].1 >= HiddenStems(z)[j].1
    ensures forall i :: 0 < i < |HiddenStems(z)| ==> HiddenStems(z)[i].1 < HiddenStems(z)[0].1
  {
    var h := HiddenStems(z);
    assert 1 <= |h| <= 3 by {
      if z == 0 {} else if z == 1 {} else if z == 2 {} else if z == 3 {}
      else if z == 4 {} else if z == 5 {} else if z == 6 {} else if z == 7 {}
      else if z == 8 {} else if z == 9 {} else if z == 10 {} else {}
    }
    assert WeightSum(h) == WeightSum(h[..|h| - 1]) + h[|h| - 1].1;
    if |h| > 1 {
      assert WeightSum(h[..|h| - 1]) == WeightSum(h[..|h| - 2]) + h[|h| - 2].1;
    }
    if |h| > 2 {
      assert WeightSum(h[..|h| - 2]) == WeightSum(h[..|h| - 3]) + h[|h| - 3].1;
    }
    if z == 0 {} else if z == 1 {} else if z == 2 {} else if z == 3 {}
    else if z == 4 {} else if z == 5 {} else if z == 6 {} else if z == 7 {}
    else if z == 8 {} else if z == 9 {} else if z == 10 {} else {}
  }

  /** Python's max(items, key=weight): a left-to-right scan that replaces
      the best item only by a strictly heavier one, so the first item of
      maximal weight wins. */
  function MaxByWeight(h: seq<(Stem, nat)>): (m: (Stem, nat))
    requires |h| > 0
    ensures m in h
    ensures forall k :: 0 <= k < |h| ==> h[k].1 <= m.1
    ensures exists i :: 0 <= i < |h| && h[i] == m && forall k :: 0 <= k < i ==> h[k].1 < m.1
  {
    if |h| == 1 then h[0]
    else
      var best := MaxByWeight(h[..|h| - 1]);
      if h[|h| - 1].1 > best.1 then h[|h| - 1] else best
  }

  /** When the first item is strictly heaviest, max picks it. */
  lemma MaxIsFirst(h: seq<(Stem, nat)>)
    requires |h| > 0
    requires forall i :: 0 < i < |h| ==> h[i].1 < h[0].1
    ensures MaxByWeight(h) == h[0]
  {
  }

  // ---------------------------------------------------------------------
  // TEN_DEITIES

  /** The ten-gods glyph of target stems 甲..癸 for each day stem. */
  function DeityRow(d: Stem): (row: string)
    ensures |row| == 10
  {
    match d
    case 0 => "比劫食伤才财杀官枭印" // 甲
    case 1 => "劫比伤食财才官杀印枭" // 乙
    case 2 => "枭印比劫食伤才财杀官" // 丙
    case 3 => "印枭劫比伤食财才官杀" // 丁
    case 4 => "杀官枭印比劫食伤才财" // 戊
    case 5 => "官杀印枭劫比伤食财才" // 己
    case 6 => "才财杀官枭印比劫食伤" // 庚
    case 7 => "财才官杀印枭劫比伤食" // 辛
    case 8 => "食伤才财杀官枭印比劫" // 壬
    case 9 => "伤食财才官杀印枭劫比" // 癸
  }

  /** The twelve-stage glyph of branches 子..亥 for each day stem. */
  function StageRow(d: Stem): (row: string)
    ensures |row| == 12
  {
    match d
    case 0 => "沐冠建帝衰病死墓绝胎养长" // 甲
    case 1 => "病衰帝建冠沐长养胎绝墓死" // 乙
    case 2 => "胎养长沐冠建帝衰病死墓绝" // 丙
    case 3 => "绝墓死病衰帝建冠沐长养胎" // 丁
    case 4 => "胎养长沐冠建帝衰病死墓绝" // 戊
    case 5 => "绝墓死病衰帝建冠沐长养胎" // 己
    case 6 => "死墓绝胎养长沐冠建帝衰病" // 庚
    case 7 => "长养胎绝墓死病衰帝建冠沐" // 辛
    case 8 => "帝衰病死墓绝胎养长沐冠建" // 壬
    case 9 => "建冠沐长养胎绝墓死病衰帝" // 癸
  }

  /** The twelve stages in their order, from birth 长 through 养. */
  const Stages: string := "长沐冠建帝衰病死墓绝胎养"

  /** The remaining eight keys of a TEN_DEITIES row: 库 storehouse, 本 own
      element, 克 the element it conquers, 被克 the element conquering it,
      生我 the element feeding it, 生 the element it feeds, 合 its combining
      stem and 冲 its clashing stem (the empty string for 戊 and 己). */
  function SpecialKey(d: Stem, key: string): (r: Option<string>)
    ensures r.Some? ==> |r.value| <= 2
  {
    if key == "库" then Some(["未_", "未_", "戌_", "戌_", "辰_", "辰_", "丑_", "丑_", "辰_", "辰_"][d])
    else if key == "本" then Some(["木木火火土土金金水水"[d]])
    else if key == "克" then Some(["土土金金水水木木火火"[d]])
    else if key == "被克" then Some(["金金水水木木火火土土"[d]])
    else if key == "生我" then Some(["水水木木火火土土金金"[d]])
    else if key == "生" then Some(["火火土土金金水水木木"[d]])
    else if key == "合" then Some(["己庚辛壬癸甲乙丙丁戊"[d]])
    else if key == "冲" then Some(ClashStem(d))
    else None
  }

  /** The 冲 entries; the rows of 戊 and 己 hold the empty string. */
  function ClashStem(d: Stem): string
  {
    match d
    case 0 => "庚"
    case 1 => "辛"
    case 2 => "壬"
    case 3 => "癸"
    case 4 => ""
    case 5 => ""
    case 6 => "甲"
    case 7 => "乙"
    case 8 => "丙"
    case 9 => "丁"
  }

  /** TEN_DEITIES[d].get(key): a stem key gives a ten-gods glyph, a branch
      key a twelve-stage glyph, and the eight named keys their entries. */
  function TenDeities(d: Stem, key: string): (r: Option<string>)
    ensures StemText(key).Some? || BranchText(key).Some? ==> r.Some? && |r.value| == 1
    ensures r.Some? ==> |r.value| <= 2
  {
    match StemText(key)
    case Some(t) => Some([DeityRow(d)[t]])
    case None =>
      match BranchText(key)
      case Some(z) => Some([StageRow(d)[z]])
      case None => SpecialKey(d, key)
  }

  /** The ten-gods glyph that generation, conquest and polarity assign: 比/劫
      for the same element, 食/伤 for an element the day master feeds,
      才/财 for one it conquers, 杀/官 for one conquering it and 枭/印 for
      one feeding it, the first of each pair for equal polarity. */
  function KinGlyph(k: Kinship, samePolarity: bool): char
  {
    match k
    case Peer => if samePolarity then '比' else '劫'
    case Feeds => if samePolarity then '食' else '伤'
    case Controls => if samePolarity then '才' else '财'
    case ControlledBy => if samePolarity then '杀' else '官'
    case FedBy => if samePolarity then '枭' else '印'
  }

  /** The literal stem rows follow the generation/conquest rule. */
  lemma DeityRowRule(d: Stem, t: Stem)
    ensures DeityRow(d)[t] == KinGlyph(Kin(StemElement(d), StemElement(t)), IsYang(d) == IsYang(t))
  {
  }

  /** The element keys follow the element cycles: 本 is the stem's element,
      生/克 the elements it feeds and conquers, 生我/被克 those feeding and
      conquering it. */
  lemma SpecialKeyElements(d: Stem)
    ensures SpecialKey(d, "本") == Some([ElementGlyph(StemElement(d))])
    ensures SpecialKey(d, "生") == Some([ElementGlyph(Generates(StemElement(d)))])
    ensures SpecialKey(d, "克") == Some([ElementGlyph(Conquers(StemElement(d)))])
    ensures forall e :: Generates(e) == StemElement(d) ==> SpecialKey(d, "生我") == Some([ElementGlyph(e)])
    ensures forall e :: Conquers(e) == StemElement(d) ==> SpecialKey(d, "被克") == Some([ElementGlyph(e)])
  {
  }

  /** 合 is the stem five places on; 冲 the stem six places on within the
      same half of the cycle, and the empty string for 戊 and 己. */
  lemma SpecialKeyStems(d: Stem)
    ensures SpecialKey(d, "合") == Some([TG[(d + 5) % 10]])
    ensures d < 4 ==> SpecialKey(d, "冲") == Some([TG[d + 6]])
    ensures d >= 6 ==> SpecialKey(d, "冲") == Some([TG[d - 6]])
    ensures d == 4 || d == 5 ==> SpecialKey(d, "冲") == Some("")
  {
  }

  /** Each row is a bidict, so its ten stem values are distinct: the
      kinship and the polarity of a target determine it. */
  lemma DeityRowInjective(d: Stem, t: Stem, u: Stem)
    requires t != u
    ensures DeityRow(d)[t] != DeityRow(d)[u]
  {
    DeityRowRule(d, t);
    DeityRowRule(d, u);
    var e := StemElement(d);
    if DeityRow(d)[t] == DeityRow(d)[u] {
      KinGlyphInjective(Kin(e, StemElement(t)), IsYang(d) == IsYang(t), Kin(e, StemElement(u)), IsYang(d) == IsYang(u));
      KinInjective(e, StemElement(t), StemElement(u));
      StemElementPairs(t, u);
      assert false;
    }
  }

  lemma KinGlyphInjective(k: Kinship, p: bool, l: Kinship, q: bool)
    requires KinGlyph(k, p) == KinGlyph(l, q)
    ensures k == l && p == q
  {
  }


  /** ten_shen: the day stem's row entry for the target key, or 未知 when
      either the day stem or the key is not in the table. */
  function TenShen(dayGan: string, target: string): (r: string)
    ensures StemText(dayGan).None? ==> r == Unknown
  {
    match StemText(dayGan)
    case None => Unknown
    case Some(d) => TenDeities(d, target).GetOr(Unknown)
  }

  /** A stem is its own 比, every stem target gets one of ten glyphs, and
      which one follows the generation/conquest rule. */
  lemma TenShenOfStems(d: Stem, t: Stem)
    ensures TenShen([TG[d]], [TG[t]]) == [KinGlyph(Kin(StemElement(d), StemElement(t)), IsYang(d) == IsYang(t))]
    ensures TenShen([TG[d]], [TG[d]]) == "比"
    ensures TenShen([TG[d]], [TG[t]]) in {"比", "劫", "食", "伤", "才", "财", "杀", "官", "枭", "印"}
  {
    GlyphRoundTrip();
    DeityRowRule(d, t);
    DeityRowRule(d, d);
  }

  /** 冲 is a key of every row: the stem six away, and the empty string
      rather than 未知 for 戊 and 己. */
  lemma TenShenOfClash(d: Stem)
    ensures TenShen([TG[d]], "冲") == if d == 4 || d == 5 then "" else if d < 4 then [TG[d + 6]] else [TG[d - 6]]
  {
    StemGlyphText(d);
    ClashKeyIsNoGlyph();
    SpecialKeyStems(d);
  }

  /** 冲 names neither a stem nor a branch. */
  lemma ClashKeyIsNoGlyph()
    ensures StemText("冲").None? && BranchText("冲").None?
  {
    assert "冲"[0] !in TG && "冲"[0] !in DZ;
  }

  /** A target that is no stem, no branch and none of the eight named keys
      gives 未知. */
  lemma TenShenUnknownTarget(dayGan: string, target: string)
    requires StemText(target).None? && BranchText(target).None?
    requires target !in {"库", "本", "克", "被克", "生我", "生", "合", "冲"}
    ensures TenShen(dayGan, target) == Unknown
  {
  }

  /** ten_shen_dz: the relation of the day stem to the heaviest hidden stem
      of the branch, 未知 for a string that is no branch. */
  function TenShenDz(dayGan: string, targetDz: string): (r: string)
    ensures BranchText(targetDz).None? ==> r == Unknown
  {
    match BranchText(targetDz)
    case None => Unknown
    case Some(z) => TenShen(dayGan, [TG[MaxByWeight(HiddenStems(z)).0]])
  }

  /** The heaviest hidden stem is the first listed one, so the branch
      relation is the stem relation to the main qi. */
  lemma TenShenDzIsMainQi(dayGan: string, z: Branch)
    ensures TenShenDz(dayGan, [DZ[z]]) == TenShen(dayGan, [TG[HiddenStems(z)[0].0]])
  {
    GlyphRoundTrip();
    HiddenStemsShape(z);
    MaxIsFirst(HiddenStems(z));
  }
}
