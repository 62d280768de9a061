/** Where the overlapping reimplementations agree and where they do not.
    Each file is modelled as written in its own module; these lemmas relate
    them: the seal polarity of the derived stem table, the branch tables
    and hidden-stem orders, na-yin coverage, the void of the 甲申 decade,
    the first decade of the luck cycle, the month pillars, the western
    sign boundaries and the twelve-stage offsets. */
module Agreement {
  import opened Sexagenary
  import opened DataModels
  import BaziCore
  import BaziCycle
  import BaziDaYun
  import ShishenCalculator
  import DayunCalculator
  import LunarCalculator
  import BaziCalculatorNew
  import BaziCalculator

  // ---------------------------------------------------------------------
  // Ten gods of stems

  /** 正印 and 偏印 exchanged, every other relation kept. */
  function SwapSeal(g: TenGod): TenGod
  {
    match g
    case DirectSeal => IndirectSeal
    case IndirectSeal => DirectSeal
    case _ => g
  }

  /** The literal tables of bazi_core.py and bazi_calculator_new.py name the
      same relation for every stem pair; the table shishen_calculator.py
      derives agrees with them except when the target feeds the day master,
      where it has the seal polarity the other way round. */
  lemma StemTablesCompared(d: Stem, t: Stem)
    ensures BaziCore.DeityRow(d)[t] == Abbrev(BaziCalculatorNew.ShishenGanGod(d, t))
    ensures ShishenCalculator.Derived(d, t) == Some(SwapSeal(BaziCalculatorNew.ShishenGanGod(d, t)))
    ensures (ShishenCalculator.Derived(d, t) == Some(BaziCalculatorNew.ShishenGanGod(d, t)))
            <==> Kin(StemElement(d), StemElement(t)) != FedBy
  {
    BaziCore.DeityRowRule(d, t);
    BaziCalculatorNew.ShishenGanRule(d, t);
    ShishenCalculator.DerivedByKin(d, t);
  }

  /** As strings: get_relation and _get_shishen_gan give the same label for
      two stem glyphs exactly when the target does not feed the day master. */
  lemma StemRelationsCompared(d: Stem, t: Stem)
    ensures (ShishenCalculator.GetRelation([TG[d]], [TG[t]]) == BaziCalculatorNew.GetShishenGan([TG[d]], [TG[t]]))
            <==> Kin(StemElement(d), StemElement(t)) != FedBy
  {
    StemTablesCompared(d, t);
    ShishenCalculator.GetRelationOfStems(d, t);
    BaziCalculatorNew.GetShishenGanOfStems(d, t);
    var k := Kin(StemElement(d), StemElement(t));
    var same := IsYang(d) == IsYang(t);
    if Label(ShishenCalculator.KinGod(k, same)) == Label(BaziCalculatorNew.ShishenGanGod(d, t)) {
      LabelRoundTrip(ShishenCalculator.KinGod(k, same));
      LabelRoundTrip(BaziCalculatorNew.ShishenGanGod(d, t));
    }
  }

  /** 甲 with 壬, a yang water feeding a yang wood: 正印 in the derived table,
      偏印 in the literal one, 枭 in bazi_core's row. */
  lemma SealExample()
    ensures ShishenCalculator.Derived(0, 8) == Some(DirectSeal)
    ensures BaziCalculatorNew.ShishenGanGod(0, 8) == IndirectSeal
    ensures BaziCore.DeityRow(0)[8] == '枭'
  {
    StemTablesCompared(0, 8);
  }

  // ---------------------------------------------------------------------
  // Ten gods of branches and hidden stems

  /** SHI_SHEN_ZHI is _get_shishen_zhi's rule: the literal stem table at the
      branch's main hidden stem, which all three hidden-stem tables list
      first; bazi_core's row at that stem gives its abbreviation. */
  lemma BranchTableIsMainQi(d: Stem, z: Branch)
    ensures ShiShenZhiGod(d, z) == BaziCalculatorNew.ShishenGanGod(d, BaziCalculatorNew.HideGan(z)[0])
    ensures BaziCore.HiddenStems(z)[0].0 == BaziCalculatorNew.HideGan(z)[0]
    ensures BaziCore.DeityRow(d)[BaziCore.HiddenStems(z)[0].0] == Abbrev(ShiShenZhiGod(d, z))
  {
    StemTablesCompared(d, BaziCalculatorNew.HideGan(z)[0]);
    match z
    case 0 => {} case 1 => {} case 2 => {} case 3 => {} case 4 => {} case 5 => {}
    case 6 => {} case 7 => {} case 8 => {} case 9 => {} case 10 => {} case 11 => {}
  }

  /** The stems of a DZ_CANG_GAN entry, without their weights. */
  function StemsOf(h: seq<(Stem, nat)>): (r: seq<Stem>)
    ensures |r| == |h| && forall i :: 0 <= i < |h| ==> r[i] == h[i].0
  {
    seq(|h|, i requires 0 <= i < |h| => h[i].0)
  }

  /** DZ_CANG_GAN and zhi_hide_gan hide the same stems in every branch, and
      list them in the same order except in 丑 (己癸辛 against 己辛癸) and 巳
      (丙戊庚 against 丙庚戊), where the last two change places. */
  lemma HiddenStemOrders(z: Branch)
    ensures multiset(StemsOf(BaziCore.HiddenStems(z))) == multiset(BaziCalculatorNew.HideGan(z))
    ensures (StemsOf(BaziCore.HiddenStems(z)) == BaziCalculatorNew.HideGan(z)) <==> z != 1 && z != 5
  {
    var a, b := StemsOf(BaziCore.HiddenStems(z)), BaziCalculatorNew.HideGan(z);
    if z == 1 || z == 5 {
      HiddenStemsSwapped(z);
      SwappedTail(a, b);
    } else if z < 6 {
      HiddenStemsSameLow(z);
    } else {
      HiddenStemsSameHigh(z);
    }
  }

  lemma HiddenStemsSwapped(z: Branch)
    requires z == 1 || z == 5
    ensures |BaziCore.HiddenStems(z)| == |BaziCalculatorNew.HideGan(z)| == 3
    ensures var a, b := StemsOf(BaziCore.HiddenStems(z)), BaziCalculatorNew.HideGan(z);
      a[0] == b[0] && a[1] == b[2] && a[2] == b[1] && a[1] != a[2]
  {
  }

  /** Two lists of three that exchange their last two entries hold the same
      stems, and differ when those two do. */
  lemma SwappedTail(a: seq<Stem>, b: seq<Stem>)
    requires |a| == |b| == 3 && a[0] == b[0] && a[1] == b[2] && a[2] == b[1] && a[1] != a[2]
    ensures multiset(a) == multiset(b) && a != b
  {
    assert a == [b[0], b[2], b[1]] && a[1] != b[1];
    assert b == [b[0], b[1], b[2]];
  }

  lemma HiddenStemsSameLow(z: Branch)
    requires z < 6 && z != 1 && z != 5
    ensures StemsOf(BaziCore.HiddenStems(z)) == BaziCalculatorNew.HideGan(z)
  {
  }

  lemma HiddenStemsSameHigh(z: Branch)
    requires z >= 6
    ensures StemsOf(BaziCore.HiddenStems(z)) == BaziCalculatorNew.HideGan(z)
  {
  }

  // ---------------------------------------------------------------------
  // Na-yin and void

  /** lunar_calculator.py's table agrees with NAYINS on the first fifty
      positions of the cycle and lacks the last ten, 甲寅 to 癸亥. */
  lemma NaYinCoverage(i: nat)
    requires i < 60
    ensures i < 50 ==> LunarCalculator.LunarNayinTable(i % 10, i % 12) == BaziCycle.NaYinTable(i % 10, i % 12)
    ensures i < 50 ==> LunarCalculator.LunarNayinTable(i % 10, i % 12).Some?
    ensures i >= 50 ==> LunarCalculator.LunarNayinTable(i % 10, i % 12).None? && BaziCycle.NaYinTable(i % 10, i % 12).Some?
  {
    BaziCycle.NaYinByCycle(i);
    if i < 10 { NaYinCoverage0(i); }
    else if i < 20 { NaYinCoverage1(i); }
    else if i < 30 { NaYinCoverage2(i); }
    else if i < 40 { NaYinCoverage3(i); }
    else if i < 50 { NaYinCoverage4(i); }
    else { NaYinCoverage5(i); }
  }

  lemma NaYinCoverage0(i: nat)
    requires 0 <= i < 10
    ensures LunarCalculator.LunarNayinTable(i % 10, i % 12) == BaziCycle.NaYinTable(i % 10, i % 12) != None
  {
  }

  lemma NaYinCoverage1(i: nat)
    requires 10 <= i < 20
    ensures LunarCalculator.LunarNayinTable(i % 10, i % 12) == BaziCycle.NaYinTable(i % 10, i % 12) != None
  {
  }

  lemma NaYinCoverage2(i: nat)
    requires 20 <= i < 30
    ensures LunarCalculator.LunarNayinTable(i % 10, i % 12) == BaziCycle.NaYinTable(i % 10, i % 12) != None
  {
  }

  lemma NaYinCoverage3(i: nat)
    requires 30 <= i < 40
    ensures LunarCalculator.LunarNayinTable(i % 10, i % 12) == BaziCycle.NaYinTable(i % 10, i % 12) != None
  {
  }

  lemma NaYinCoverage4(i: nat)
    requires 40 <= i < 50
    ensures LunarCalculator.LunarNayinTable(i % 10, i % 12) == BaziCycle.NaYinTable(i % 10, i % 12) != None
  {
  }

  lemma NaYinCoverage5(i: nat)
    requires 50 <= i < 60
    ensures LunarCalculator.LunarNayinTable(i % 10, i % 12).None?
  {
  }

  /** 甲寅 as a string: 大溪水 from calculate_nayin, 未知 from get_nayin. */
  lemma NaYinOfJiaYin()
    ensures BaziCycle.CalculateNaYin("甲寅") == "大溪水"
    ensures LunarCalculator.GetNayin("甲", "寅") == Unknown
  {
    LunarCalculator.GetNayinExamples();
    assert ParsePillar("甲寅") == Some(Pillar(0, 2));
    assert CycleIndex(Pillar(0, 2)) == 50;
  }

  /** 甲申: EMPTIES gives 午未, get_empty 戌亥. */
  lemma VoidOfJiaShen()
    ensures BaziCycle.EmptyTable(0, 8) == Some((6, 7))
    ensures LunarCalculator.GetEmpty("甲", "申") == Some(("戌", "亥"))
  {
    LunarCalculator.GetEmptyOfJiaShen();
  }

  /** empty_map holds six different pairs. */
  lemma EmptyMapInjective(a: int, b: int)
    requires 0 <= a <= 50 && a % 10 == 0 && 0 <= b <= 50 && b % 10 == 0
    requires LunarCalculator.EmptyMap(a) == LunarCalculator.EmptyMap(b)
    ensures a == b
  {
  }

  /** For a pillar of the cycle, get_empty gives the EMPTIES pair exactly
      when its decade formula lands on the pillar's true decade. */
  lemma VoidAgreement(p: Pillar)
    requires p.Valid()
    ensures var v := BaziCycle.EmptyTable(p.stem, p.branch);
      && v.Some?
      && (LunarCalculator.GetEmpty([TG[p.stem]], [DZ[p.branch]]) == Some(([DZ[v.value.0]], [DZ[v.value.1]]))
          <==> LunarCalculator.XunStart(p.stem, p.branch) == LunarCalculator.XunStartOfCycle(p))
  {
    var i := CycleIndex(p);
    BaziCycle.EmptyByCycle(i);
    LunarCalculator.XunStartOfCycleIsVoid(p);
    StemGlyphText(p.stem);
    BranchGlyphText(p.branch);
    var x, y := LunarCalculator.XunStart(p.stem, p.branch), LunarCalculator.XunStartOfCycle(p);
    if LunarCalculator.EmptyMap(x) == LunarCalculator.EmptyMap(y) {
      EmptyMapInjective(x, y);
    }
  }

  // ---------------------------------------------------------------------
  // Luck cycles

  /** calc_da_yun steps once before its first decade, _generate_dayun_list
      emits the month pillar itself first: calc_da_yun's decade i is the
      other list's decade i + 1, and the two first decades differ. */
  lemma FirstDecadeStep(birthYear: int, month: Pillar, direction: int, dayGan: string, i: nat)
    requires i < 7
    requires direction == 1 || direction == -1
    ensures PillarText(BaziDaYun.Decade(month, direction, i))
         == DayunCalculator.DayunList(birthYear, month, direction, dayGan)[i + 1].pillar
    ensures DayunCalculator.DayunList(birthYear, month, direction, dayGan)[0].pillar == PillarText(month)
    ensures BaziDaYun.Decade(month, direction, 0) != month
  {
    DayunCalculator.DayunListFacts(birthYear, month, direction, dayGan, 0);
    DayunCalculator.DayunListFacts(birthYear, month, direction, dayGan, i + 1);
    BaziCycle.SteppedOffset(month, direction, i + 1);
    BaziCycle.SteppedOffset(month, direction, 1);
    assert (i + 1) * direction == (i + 1) * direction;
    StepMoves(month, direction);
  }

  /** One step forward or backward changes the stem. */
  lemma StepMoves(p: Pillar, direction: int)
    requires direction == 1 || direction == -1
    ensures BaziCycle.NextPillar(p, 1 * direction) != p
  {
    assert 1 * direction == direction;
    if direction == 1 {
      assert (p.stem + 1) % 10 != p.stem;
    } else {
      assert (p.stem - 1) % 10 != p.stem;
    }
  }

  /** The two direction rules agree for the genders each knows: gender 1
      is 男 and 2 is 女. */
  lemma DirectionsAgree(year: int)
    ensures DayunCalculator.DayunDirection(year, 1) == BaziDaYun.DaYunDirection(year, "男")
    ensures DayunCalculator.DayunDirection(year, 2) == BaziDaYun.DaYunDirection(year, "女")
  {
    DayunCalculator.DayunDirectionCases(year, 1);
    BaziDaYun.DaYunDirectionFlips(year);
    TwosDropped(year - 4, 2);
  }

  // ---------------------------------------------------------------------
  // Month and year pillars

  /** The decade seed is lunar_calculator.py's month pillar, and each year
      of a decade gets lunar_calculator.py's year pillar. */
  lemma SeedIsLunarMonth(year: int, month: int, dayOffset: int, hour: int)
    ensures LunarCalculator.GetGanZhiFromDate(year, month, dayOffset, hour).month == DayunCalculator.SeedPillar(year, month)
    ensures forall k :: 0 <= k < 10 ==>
              DayunCalculator.YearItemAt(year, 0, "", k).pillar
              == PillarText(LunarCalculator.GetGanZhiFromDate(year + k, month, dayOffset, hour).year)
  {
  }

  /** _generate_month_list's month k has the branch of the month offset but
      a stem two behind it: (y·12 + k) mod 10 against ((y − 1984)·12 + k)
      mod 10, and 1984·12 leaves 8 modulo 10. */
  lemma MonthListStem(year: int, k: nat, dayOffset: int, hour: int)
    requires k < 12
    ensures var lunar := LunarCalculator.GetGanZhiFromDate(year, k + 1, dayOffset, hour).month;
      && DayunCalculator.MonthPillar(year, k).branch == lunar.branch
      && DayunCalculator.MonthPillar(year, k).stem == (lunar.stem + 8) % 10
      && DayunCalculator.MonthPillar(year, k) != lunar
  {
    var lunar := LunarCalculator.GetGanZhiFromDate(year, k + 1, dayOffset, hour).month;
    assert lunar == CyclePillar((year - 1984) * 12 + k);
    StemTwoBehind(year, k);
    BranchOfMonth(year, k);
  }

  lemma StemTwoBehind(year: int, k: nat)
    ensures (year * 12 + k) % 10 == (((year - 1984) * 12 + k) % 10 + 8) % 10
  {
    var x := (year - 1984) * 12 + k;
    assert year * 12 + k == (x + 8) + 10 * 2380;
    TensDropped(x + 8, 2380);
    BaziCycle.AddMod(x, 0, 8, 10);
  }

  lemma BranchOfMonth(year: int, k: nat)
    requires k < 12
    ensures ((year - 1984) * 12 + k) % 12 == k
  {
    TwelvesDropped(k, year - 1984);
  }

  // ---------------------------------------------------------------------
  // Western signs

  /** For months 1..12 the two sign functions agree on every day but three:
      6/21, 10/23 and 11/22, where the boundary list starts the next sign a
      day before the if/elif ranges do; any other month gives 摩羯座 against
      未知. */
  lemma SignsCompared(month: int, day: int)
    ensures 1 <= month <= 12 ==>
      (LunarCalculator.ConstellationOf(month, day) == BaziCalculatorNew.GetConstellation(month, day)
       <==> !((month == 6 && day == 21) || (month == 10 && day == 23) || (month == 11 && day == 22)))
    ensures !(1 <= month <= 12) ==>
      LunarCalculator.ConstellationOf(month, day) == "摩羯座" && BaziCalculatorNew.GetConstellation(month, day) == Unknown
  {
    var l, n := LunarCalculator.ConstellationOf(month, day), BaziCalculatorNew.GetConstellation(month, day);
    if month == 1 {} else if month == 2 {} else if month == 3 {} else if month == 4 {}
    else if month == 5 {} else if month == 6 {} else if month == 7 {} else if month == 8 {}
    else if month == 9 {} else if month == 10 {} else if month == 11 {} else if month == 12 {}
    else {}
  }

  // ---------------------------------------------------------------------
  // Tai-yuan and the twelve stages

  /** s turned left by o places. */
  function Rotated(s: string, o: nat): (r: string)
    requires o <= |s|
    ensures |r| == |s|
  {
    s[o..] + s[..o]
  }

  lemma RotatedAt(s: string, o: nat, z: nat)
    requires |s| == 12 && o < 12 && z < 12
    ensures Rotated(s, o)[z] == s[(z + o) % 12]
  {
    if z + o < 12 {
      assert Rotated(s, o)[z] == s[o..][z];
    } else {
      assert Rotated(s, o)[z] == s[..o][z - (12 - o)];
    }
  }

  /** The twelve stages from 养 back to 长. */
  const StagesBackward: string := "养胎绝墓死病衰帝建冠沐长"

  lemma StagesBackwardAt(j: nat)
    requires j < 12
    ensures StagesBackward[j] == BaziCore.Stages[11 - j]
  {
    match j
    case 0 => {} case 1 => {} case 2 => {} case 3 => {} case 4 => {} case 5 => {}
    case 6 => {} case 7 => {} case 8 => {} case 9 => {} case 10 => {} case 11 => {}
  }

  /** The twelve-stage rows of TEN_DEITIES follow CHANG_SHENG_OFFSET: a yang
      stem counts the stages forward from the offset, a yin stem backward. */
  lemma StageRowsFollowOffset(d: Stem, z: Branch)
    ensures IsYang(d) ==> BaziCore.StageRow(d)[z] == BaziCore.Stages[(z + ChangShengOffset(d)) % 12]
    ensures !IsYang(d) ==> BaziCore.StageRow(d)[z] == BaziCore.Stages[(ChangShengOffset(d) - z) % 12]
  {
    if IsYang(d) {
      YangStage(d, z);
    } else {
      YinStage(d, z);
    }
  }

  lemma YangStage(d: Stem, z: Branch)
    requires IsYang(d)
    ensures BaziCore.StageRow(d)[z] == BaziCore.Stages[(z + ChangShengOffset(d)) % 12]
  {
    YangStageRow(d);
    RotatedAt(BaziCore.Stages, ChangShengOffset(d), z);
  }

  lemma YinStage(d: Stem, z: Branch)
    requires !IsYang(d)
    ensures BaziCore.StageRow(d)[z] == BaziCore.Stages[(ChangShengOffset(d) - z) % 12]
  {
    YinStageRow(d);
    var o := ChangShengOffset(d);
    RotatedAt(StagesBackward, 11 - o, z);
    BackwardIndex(o, z);
  }

  /** Counting back from o is counting forward through the reversed stages
      from 11 - o. */
  lemma BackwardIndex(o: nat, z: nat)
    requires o < 12 && z < 12
    ensures StagesBackward[(z + (11 - o)) % 12] == BaziCore.Stages[(o - z) % 12]
  {
    StagesBackwardAt((z + (11 - o)) % 12);
    BackwardOffset(o, z);
  }

  lemma BackwardOffset(o: int, z: int)
    requires 0 <= o < 12 && 0 <= z < 12
    ensures 11 - (z + (11 - o)) % 12 == (o - z) % 12
  {
    var j := (z + (11 - o)) % 12;
    var q := (z + 11 - o) / 12;
    assert z + 11 - o == j + 12 * q;
    assert 11 - j == (o - z) + 12 * q;
    TwelvesDropped(o - z, q);
    assert (11 - j) % 12 == 11 - j;
  }

  lemma YangStageRow(d: Stem)
    requires IsYang(d)
    ensures BaziCore.StageRow(d) == Rotated(BaziCore.Stages, ChangShengOffset(d))
  {
    if d < 5 { YangStageRowLow(d); } else { YangStageRowHigh(d); }
  }

  lemma YangStageRowLow(d: Stem)
    requires d == 0 || d == 2 || d == 4
    ensures BaziCore.StageRow(d) == Rotated(BaziCore.Stages, ChangShengOffset(d))
  {
    if d == 0 {} else if d == 2 {} else {}
  }

  lemma YangStageRowHigh(d: Stem)
    requires d == 6 || d == 8
    ensures BaziCore.StageRow(d) == Rotated(BaziCore.Stages, ChangShengOffset(d))
  {
    if d == 6 {} else {}
  }

  lemma YinStageRow(d: Stem)
    requires !IsYang(d)
    ensures BaziCore.StageRow(d) == Rotated(StagesBackward, 11 - ChangShengOffset(d))
  {
    if d < 5 { YinStageRowLow(d); } else { YinStageRowHigh(d); }
  }

  lemma YinStageRowLow(d: Stem)
    requires d == 1 || d == 3
    ensures BaziCore.StageRow(d) == Rotated(StagesBackward, 11 - ChangShengOffset(d))
  {
    if d == 1 {} else {}
  }

  lemma YinStageRowHigh(d: Stem)
    requires d == 5 || d == 7 || d == 9
    ensures BaziCore.StageRow(d) == Rotated(StagesBackward, 11 - ChangShengOffset(d))
  {
    if d == 5 {} else if d == 7 {} else {}
  }
}
