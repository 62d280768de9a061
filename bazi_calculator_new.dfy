/** bazi_calculator_new.py: the pure helpers of this BaziCalculator: the
    literal stem ten-gods table, branch relations through the main hidden
    stem, pillar codes, hidden stems, the four stem gods of a chart and the
    western sign. */
module BaziCalculatorNew {
  import opened Sexagenary
  import opened DataModels

  /** shishen_map of _get_shishen_gan, row by day stem, column by target
      stem. */
  const ShishenGanRows: seq<seq<TenGod>> := [
    [Friend, RobWealth, EatingGod, HurtingOfficer, IndirectWealth, DirectWealth, SevenKillings, DirectOfficer, IndirectSeal, DirectSeal], // 甲
    [RobWealth, Friend, HurtingOfficer, EatingGod, DirectWealth, IndirectWealth, DirectOfficer, SevenKillings, DirectSeal, IndirectSeal], // 乙
    [IndirectSeal, DirectSeal, Friend, RobWealth, EatingGod, HurtingOfficer, IndirectWealth, DirectWealth, SevenKillings, DirectOfficer], // 丙
    [DirectSeal, IndirectSeal, RobWealth, Friend, HurtingOfficer, EatingGod, DirectWealth, IndirectWealth, DirectOfficer, SevenKillings], // 丁
    [SevenKillings, DirectOfficer, IndirectSeal, DirectSeal, Friend, RobWealth, EatingGod, HurtingOfficer, IndirectWealth, DirectWealth], // 戊
    [DirectOfficer, SevenKillings, DirectSeal, IndirectSeal, RobWealth, Friend, HurtingOfficer, EatingGod, DirectWealth, IndirectWealth], // 己
    [IndirectWealth, DirectWealth, SevenKillings, DirectOfficer, IndirectSeal, DirectSeal, Friend, RobWealth, EatingGod, HurtingOfficer], // 庚
    [DirectWealth, IndirectWealth, DirectOfficer, SevenKillings, DirectSeal, IndirectSeal, RobWealth, Friend, HurtingOfficer, EatingGod], // 辛
    [EatingGod, HurtingOfficer, IndirectWealth, DirectWealth, SevenKillings, DirectOfficer, IndirectSeal, DirectSeal, Friend, RobWealth], // 壬
    [HurtingOfficer, EatingGod, DirectWealth, IndirectWealth, DirectOfficer, SevenKillings, DirectSeal, IndirectSeal, RobWealth, Friend]  // 癸
  ]

  function ShishenGanGod(d: Stem, t: Stem): TenGod
  {
    ShishenGanRows[d][t]
  }

  /** The conventional rule: same polarity gives 比肩, 食神, 偏印, 偏财 or
      七杀, opposite polarity 劫财, 伤官, 正印, 正财 or 正官. */
  function TableGod(k: Kinship, samePolarity: bool): TenGod
  {
    match k
    case Peer => if samePolarity then Friend else RobWealth
    case Feeds => if samePolarity then EatingGod else HurtingOfficer
    case FedBy => if samePolarity then IndirectSeal else DirectSeal
    case Controls => if samePolarity then IndirectWealth else DirectWealth
    case ControlledBy => if samePolarity then SevenKillings else DirectOfficer
  }

  /** Every entry of the literal table follows the conventional rule. */
  lemma ShishenGanRule(d: Stem, t: Stem)
    ensures ShishenGanGod(d, t) == TableGod(Kin(StemElement(d), StemElement(t)), IsYang(d) == IsYang(t))
  {
    match t
    case 0 => {} case 1 => {} case 2 => {} case 3 => {} case 4 => {}
    case 5 => {} case 6 => {} case 7 => {} case 8 => {} case 9 => {}
  }

  /** _get_shishen_gan: the table entry of the concatenated key, 未知 for a
      key that is not two stem glyphs. */
  function GetShishenGan(dayGan: string, targetGan: string): (r: string)
    ensures var key := dayGan + targetGan;
      r == Unknown <==> !(|key| == 2 && key[0] in TG && key[1] in TG)
    ensures var key := dayGan + targetGan;
      r != Unknown ==> r == Label(ShishenGanGod(StemOf(key[0]).value, StemOf(key[1]).value))
  {
    var key := dayGan + targetGan;
    if |key| == 2 && StemOf(key[0]).Some? && StemOf(key[1]).Some? then
      LabelNotUnknown(ShishenGanGod(StemOf(key[0]).value, StemOf(key[1]).value));
      Label(ShishenGanGod(StemOf(key[0]).value, StemOf(key[1]).value))
    else Unknown
  }

  lemma LabelNotUnknown(g: TenGod)
    ensures Label(g) != Unknown
  {
  }

  /** For stem glyphs the lookup is the table entry. */
  lemma GetShishenGanOfStems(d: Stem, t: Stem)
    ensures GetShishenGan([TG[d]], [TG[t]]) == Label(ShishenGanGod(d, t))
  {
    GlyphRoundTrip();
    assert [TG[d]] + [TG[t]] == [TG[d], TG[t]];
  }

  /** A day stem is 比肩 to itself and only to itself. */
  lemma GetShishenGanFriend(d: Stem, t: Stem)
    ensures GetShishenGan([TG[d]], [TG[t]]) == "比肩" <==> d == t
  {
    GetShishenGanOfStems(d, t);
    ShishenGanRule(d, t);
    StemElementPairs(d, t);
    LabelRoundTrip(ShishenGanGod(d, t));
    assert GodOfLabel("比肩") == Some(Friend);
  }

  /** 甲 sees 壬 (same polarity, feeding it) as 偏印 and 癸 as 正印. */
  lemma GetShishenGanSeals()
    ensures GetShishenGan("甲", "壬") == "偏印" && GetShishenGan("甲", "癸") == "正印"
  {
    GetShishenGanOfStems(0, 8);
    GetShishenGanOfStems(0, 9);
    assert "甲" == [TG[0]] && "壬" == [TG[8]] && "癸" == [TG[9]];
  }

  /** zhi_hide_gan: the hidden stems of each branch, main stem first. */
  function HideGan(z: Branch): (r: seq<Stem>)
    ensures 1 <= |r| <= 3
  {
    match z
    case 0 => [9]
    case 1 => [5, 7, 9]
    case 2 => [0, 2, 4]
    case 3 => [1]
    case 4 => [4, 1, 9]
    case 5 => [2, 6, 4]
    case 6 => [3, 5]
    case 7 => [5, 3, 1]
    case 8 => [6, 8, 4]
    case 9 => [7]
    case 10 => [4, 7, 3]
    case 11 => [8, 0]
  }

  /** The main hidden stem shares its branch's element. */
  lemma HideGanMainElement(z: Branch)
    ensures StemElement(HideGan(z)[0]) == BranchElement(z)
  {
  }

  /** The glyphs of a list of stems. */
  function StemGlyphs(s: seq<Stem>): (r: seq<string>)
    ensures |r| == |s| && forall k :: 0 <= k < |s| ==> r[k] == [TG[s[k]]]
  {
    seq(|s|, k requires 0 <= k < |s| => [TG[s[k]]])
  }

  /** _get_hide_gan: the one to three hidden-stem glyphs of a branch glyph,
      the empty list for anything else. */
  function GetHideGan(zhi: string): (r: seq<string>)
    ensures BranchText(zhi).None? ==> r == []
    ensures BranchText(zhi).Some? ==> 1 <= |r| <= 3 && r == StemGlyphs(HideGan(BranchText(zhi).value))
    ensures forall k :: 0 <= k < |r| ==> StemText(r[k]).Some?
  {
    match BranchText(zhi)
    case Some(z) =>
      GlyphRoundTrip();
      StemGlyphs(HideGan(z))
    case None => []
  }

  /** _get_shishen_zhi: the stem relation of the branch's main hidden stem,
      未知 for a glyph that is not a branch. */
  function GetShishenZhi(dayGan: string, zhi: string): (r: string)
    ensures BranchText(zhi).None? ==> r == Unknown
    ensures BranchText(zhi).Some? ==> r == GetShishenGan(dayGan, [TG[HideGan(BranchText(zhi).value)[0]]])
  {
    match BranchText(zhi)
    case Some(z) => GetShishenGan(dayGan, [TG[HideGan(z)[0]]])
    case None => Unknown
  }

  /** For a day stem and a branch: the table entry of the main hidden stem. */
  lemma GetShishenZhiOfBranch(d: Stem, z: Branch)
    ensures GetShishenZhi([TG[d]], [DZ[z]]) == Label(ShishenGanGod(d, HideGan(z)[0]))
  {
    GlyphRoundTrip();
    GetShishenGanOfStems(d, HideGan(z)[0]);
  }

  /** SHI_SHEN_SIMPLIFIE.get(label, label): the one-glyph code of a label,
      anything else unchanged. */
  function Simplified(relation: string): (r: string)
    ensures Simplifie(relation).None? ==> r == relation
    ensures GodOfLabel(relation).Some? ==> |r| == 1
  {
    Simplifie(relation).GetOr(relation)
  }

  /** _get_shishen_by_pillar: 童限 unchanged; for two or more glyphs the
      codes of the stem relation and of the branch relation, an unknown
      relation passing through as 未知; 未知 for shorter input. */
  function GetShishenByPillar(dayGan: string, pillar: string): (r: string)
    ensures pillar == "童限" ==> r == "童限"
    ensures |pillar| < 2 ==> r == Unknown
    ensures pillar != "童限" && |pillar| >= 2 ==>
      r == Simplified(GetShishenGan(dayGan, [pillar[0]])) + Simplified(GetShishenZhi(dayGan, [pillar[1]]))
  {
    if pillar == "童限" then "童限"
    else if |pillar| >= 2 then
      var gan, zhi := [pillar[0]], [pillar[1]];
      Simplified(GetShishenGan(dayGan, gan)) + Simplified(GetShishenZhi(dayGan, zhi))
    else Unknown
  }

  /** A day stem and a pillar give the two one-glyph codes of the table
      entries of its stem and of its branch's main hidden stem. */
  lemma GetShishenByPillarOfPillar(d: Stem, p: Pillar)
    ensures GetShishenByPillar([TG[d]], PillarText(p))
         == [Abbrev(ShishenGanGod(d, p.stem)), Abbrev(ShishenGanGod(d, HideGan(p.branch)[0]))]
  {
    var s := PillarText(p);
    assert s != "童限" by {
      assert StemOf(s[0]).Some? && StemOf('童').None?;
    }
    assert [s[0]] == [TG[p.stem]] && [s[1]] == [DZ[p.branch]];
    GetShishenGanOfStems(d, p.stem);
    GetShishenZhiOfBranch(d, p.branch);
    SimplifieOfLabel(ShishenGanGod(d, p.stem));
    SimplifieOfLabel(ShishenGanGod(d, HideGan(p.branch)[0]));
  }

  /** An unknown relation is kept in full: a stem day with a pillar whose
      second glyph is not a branch gives the stem code followed by 未知. */
  lemma GetShishenByPillarPassesUnknown()
    ensures GetShishenByPillar("甲", "甲x") == "比未知"
  {
    assert ["甲x"[0]] == "甲" && ["甲x"[1]] == "x";
    assert BranchText("x").None?;
    GetShishenGanOfStems(0, 0);
    SimplifieOfLabel(Friend);
    assert Simplifie(Unknown).None? by {
      assert GodOfLabel(Unknown).None?;
    }
  }

  /** _get_gods_list: the relations of the year, month and hour stems to the
      day stem, with 比肩 in third place for the day stem itself; the branch
      arguments are not used. */
  method GetGodsList(dayGan: string, yearGan: string, monthGan: string, timeGan: string,
                     yearZhi: string, monthZhi: string, dayZhi: string, timeZhi: string)
      returns (gods: seq<string>)
    ensures |gods| == 4
    ensures gods == [GetShishenGan(dayGan, yearGan), GetShishenGan(dayGan, monthGan), "比肩", GetShishenGan(dayGan, timeGan)]
  {
    gods := [];
    var yearGanShishen := GetShishenGan(dayGan, yearGan);
    gods := gods + [yearGanShishen];
    var monthGanShishen := GetShishenGan(dayGan, monthGan);
    gods := gods + [monthGanShishen];
    var dayGanShishen := "比肩";
    gods := gods + [dayGanShishen];
    var timeGanShishen := GetShishenGan(dayGan, timeGan);
    gods := gods + [timeGanShishen];
  }

  /** For stem glyphs, the fixed third entry is what the table gives for the
      day stem against itself, and every entry is a label. */
  lemma GodsListOfStems(d: Stem, y: Stem, m: Stem, t: Stem)
    ensures var gods := [GetShishenGan([TG[d]], [TG[y]]), GetShishenGan([TG[d]], [TG[m]]), "比肩", GetShishenGan([TG[d]], [TG[t]])];
      && gods[2] == GetShishenGan([TG[d]], [TG[d]])
      && forall k :: 0 <= k < 4 ==> GodOfLabel(gods[k]).Some?
  {
    GetShishenGanOfStems(d, d);
    GetShishenGanOfStems(d, y);
    GetShishenGanOfStems(d, m);
    GetShishenGanOfStems(d, t);
    LabelRoundTrip(ShishenGanGod(d, y));
    LabelRoundTrip(ShishenGanGod(d, m));
    LabelRoundTrip(ShishenGanGod(d, t));
    LabelRoundTrip(Friend);
  }

  /** _get_constellation: the if/elif chain of day ranges, 未知 when no
      range matches. */
  function GetConstellation(month: int, day: int): (r: string)
    ensures !(1 <= month <= 12) ==> r == Unknown
  {
    if (month == 3 && day >= 21) || (month == 4 && day <= 19) then "白羊座"
    else if (month == 4 && day >= 20) || (month == 5 && day <= 20) then "金牛座"
    else if (month == 5 && day >= 21) || (month == 6 && day <= 21) then "双子座"
    else if (month == 6 && day >= 22) || (month == 7 && day <= 22) then "巨蟹座"
    else if (month == 7 && day >= 23) || (month == 8 && day <= 22) then "狮子座"
    else if (month == 8 && day >= 23) || (month == 9 && day <= 22) then "处女座"
    else if (month == 9 && day >= 23) || (month == 10 && day <= 23) then "天秤座"
    else if (month == 10 && day >= 24) || (month == 11 && day <= 22) then "天蝎座"
    else if (month == 11 && day >= 23) || (month == 12 && day <= 21) then "射手座"
    else if (month == 12 && day >= 22) || (month == 1 && day <= 19) then "摩羯座"
    else if (month == 1 && day >= 20) || (month == 2 && day <= 18) then "水瓶座"
    else if (month == 2 && day >= 19) || (month == 3 && day <= 20) then "双鱼座"
    else Unknown
  }

  /** A sign's range: it starts in its month on its first day and ends in
      the next month on its last day. */
  datatype SignRange = SignRange(name: string, month: int, firstDay: int, lastDay: int)

  /** The twelve ranges the chain tests, in its order. */
  const SignRanges: seq<SignRange> := [
    SignRange("白羊座", 3, 21, 19), SignRange("金牛座", 4, 20, 20), SignRange("双子座", 5, 21, 21),
    SignRange("巨蟹座", 6, 22, 22), SignRange("狮子座", 7, 23, 22), SignRange("处女座", 8, 23, 22),
    SignRange("天秤座", 9, 23, 23), SignRange("天蝎座", 10, 24, 22), SignRange("射手座", 11, 23, 21),
    SignRange("摩羯座", 12, 22, 19), SignRange("水瓶座", 1, 20, 18), SignRange("双鱼座", 2, 19, 20)]

  /** The date lies in a range: in its month from its first day, or in the
      following month up to its last day. */
  predicate InRange(r: SignRange, month: int, day: int)
  {
    (month == r.month && day >= r.firstDay) || (month == r.month % 12 + 1 && day <= r.lastDay)
  }

  /** 未知 exactly for a month outside 1..12. */
  lemma GetConstellationUnknown(month: int, day: int)
    ensures GetConstellation(month, day) == Unknown <==> !(1 <= month <= 12)
  {
    if 1 <= month <= 12 {
      assert forall k :: 0 <= k < 12 ==> SignRanges[k].name != Unknown;
    }
  }

  /** Every date of a month 1..12 lies in exactly one range, and the sign
      is that range's. */
  lemma GetConstellationRanges(month: int, day: int)
    requires 1 <= month <= 12
    ensures exists k :: 0 <= k < 12 && InRange(SignRanges[k], month, day)
    ensures forall k, j :: 0 <= k < 12 && 0 <= j < 12 && InRange(SignRanges[k], month, day) && InRange(SignRanges[j], month, day) ==> k == j
    ensures forall k :: 0 <= k < 12 && InRange(SignRanges[k], month, day) ==> GetConstellation(month, day) == SignRanges[k].name
  {
    // k is the range starting in this month, j the one ending in it
    var k := if month >= 3 then month - 3 else month + 9;
    var j := if month >= 4 then month - 4 else month + 8;
    RangesOfMonth(month);
    forall i | 0 <= i < 12 && InRange(SignRanges[i], month, day)
      ensures i == k || i == j
    {
    }
    if day >= SignRanges[k].firstDay {
      assert InRange(SignRanges[k], month, day) && !InRange(SignRanges[j], month, day);
    } else {
      assert InRange(SignRanges[j], month, day) && !InRange(SignRanges[k], month, day);
    }
    ChainPicks(month, day);
  }

  /** The chain returns the sign of the range starting in the month from
      its first day on, and of the range ending in it before that. */
  lemma ChainPicks(month: int, day: int)
    requires 1 <= month <= 12
    ensures var k := if month >= 3 then month - 3 else month + 9;
      var j := if month >= 4 then month - 4 else month + 8;
      GetConstellation(month, day) == (if day >= SignRanges[k].firstDay then SignRanges[k].name else SignRanges[j].name)
  {
    if month == 1 {} else if month == 2 {} else if month == 3 {} else if month == 4 {}
    else if month == 5 {} else if month == 6 {} else if month == 7 {} else if month == 8 {}
    else if month == 9 {} else if month == 10 {} else if month == 11 {} else {}
  }

  /** Range k starts in the month and range j, ending in it, stops the day
      before; no other range touches the month. */
  lemma RangesOfMonth(month: int)
    requires 1 <= month <= 12
    ensures var k := if month >= 3 then month - 3 else month + 9;
      var j := if month >= 4 then month - 4 else month + 8;
      && SignRanges[k].month == month && SignRanges[j].month % 12 + 1 == month
      && SignRanges[j].lastDay == SignRanges[k].firstDay - 1
      && (forall i :: 0 <= i < 12 && i != k ==> SignRanges[i].month != month)
      && (forall i :: 0 <= i < 12 && i != j ==> SignRanges[i].month % 12 + 1 != month)
  {
    if month == 1 {} else if month == 2 {} else if month == 3 {} else if month == 4 {}
    else if month == 5 {} else if month == 6 {} else if month == 7 {} else if month == 8 {}
    else if month == 9 {} else if month == 10 {} else if month == 11 {} else {}
  }
}
