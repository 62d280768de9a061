/** The lookups of bazi_core.py over the sixty-pillar cycle: na-yin and
    void (NAYINS, EMPTIES), get_next_gan_zhi, and the
    tai-yuan pillar. */
module BaziCycle {
  import opened Sexagenary
  import opened BaziCore

  /** NAYINS: the na-yin name of each of the sixty pillars. */
  function NaYinTable(g: Stem, z: Branch): Option<string>
  {
    match (g, z)
    case (0, 0) => Some("海中金")  case (1, 1) => Some("海中金")
    case (8, 2) => Some("金泊金")  case (9, 3) => Some("金泊金")
    case (6, 4) => Some("白蜡金")  case (7, 5) => Some("白蜡金")
    case (0, 6) => Some("砂中金")  case (1, 7) => Some("砂中金")
    case (8, 8) => Some("剑锋金")  case (9, 9) => Some("剑锋金")
    case (6, 10) => Some("钗钏金")  case (7, 11) => Some("钗钏金")
    case (4, 0) => Some("霹雳火")  case (5, 1) => Some("霹雳火")
    case (2, 2) => Some("炉中火")  case (3, 3) => Some("炉中火")
    case (0, 4) => Some("覆灯火")  case (1, 5) => Some("覆灯火")
    case (4, 6) => Some("天上火")  case (5, 7) => Some("天上火")
    case (2, 8) => Some("山下火")  case (3, 9) => Some("山下火")
    case (0, 10) => Some("山头火")  case (1, 11) => Some("山头火")
    case (8, 0) => Some("桑柘木")  case (9, 1) => Some("桑柘木")
    case (6, 2) => Some("松柏木")  case (7, 3) => Some("松柏木")
    case (4, 4) => Some("大林木")  case (5, 5) => Some("大林木")
    case (8, 6) => Some("杨柳木")  case (9, 7) => Some("杨柳木")
    case (6, 8) => Some("石榴木")  case (7, 9) => Some("石榴木")
    case (4, 10) => Some("平地木")  case (5, 11) => Some("平地木")
    case (6, 0) => Some("壁上土")  case (7, 1) => Some("壁上土")
    case (4, 2) => Some("城头土")  case (5, 3) => Some("城头土")
    case (2, 4) => Some("砂中土")  case (3, 5) => Some("砂中土")
    case (6, 6) => Some("路旁土")  case (7, 7) => Some("路旁土")
    case (4, 8) => Some("大驿土")  case (5, 9) => Some("大驿土")
    case (2, 10) => Some("屋上土")  case (3, 11) => Some("屋上土")
    case (2, 0) => Some("涧下水")  case (3, 1) => Some("涧下水")
    case (0, 2) => Some("大溪水")  case (1, 3) => Some("大溪水")
    case (8, 4) => Some("长流水")  case (9, 5) => Some("长流水")
    case (2, 6) => Some("天河水")  case (3, 7) => Some("天河水")
    case (0, 8) => Some("井泉水")  case (1, 9) => Some("井泉水")
    case (8, 10) => Some("大海水")  case (9, 11) => Some("大海水")
    case _ => None
  }

  /** The thirty na-yin names in cycle order; each covers two consecutive
      pillars. */
  const NaYinNames: seq<string> := [
    "海中金", "炉中火", "大林木", "路旁土", "剑锋金", "山头火",
    "涧下水", "城头土", "白蜡金", "杨柳木", "井泉水", "屋上土",
    "霹雳火", "松柏木", "长流水", "砂中金", "山下火", "平地木",
    "壁上土", "金泊金", "覆灯火", "天河水", "大驿土", "钗钏金",
    "桑柘木", "大溪水", "砂中土", "天上火", "石榴木", "大海水"]

  /** Position i of the cycle carries name i / 2 of the thirty. */
  lemma NaYinByCycle(i: nat)
    requires i < 60
    ensures NaYinTable(i % 10, i % 12) == Some(NaYinNames[i / 2])
  {
    if i < 10 { NaYinDecade0(i); }
    else if i < 20 { NaYinDecade1(i); }
    else if i < 30 { NaYinDecade2(i); }
    else if i < 40 { NaYinDecade3(i); }
    else if i < 50 { NaYinDecade4(i); }
    else { NaYinDecade5(i); }
  }

  lemma NaYinDecade0(i: nat)
    requires 0 <= i < 10
    ensures NaYinTable(i % 10, i % 12) == Some(NaYinNames[i / 2])
  {
    if i == 0 {} else if i == 1 {} else if i == 2 {} else if i == 3 {} else if i == 4 {}
    else if i == 5 {} else if i == 6 {} else if i == 7 {} else if i == 8 {} else {}
  }

  lemma NaYinDecade1(i: nat)
    requires 10 <= i < 20
    ensures NaYinTable(i % 10, i % 12) == Some(NaYinNames[i / 2])
  {
    if i == 10 {} else if i == 11 {} else if i == 12 {} else if i == 13 {} else if i == 14 {}
    else if i == 15 {} else if i == 16 {} else if i == 17 {} else if i == 18 {} else {}
  }

  lemma NaYinDecade2(i: nat)
    requires 20 <= i < 30
    ensures NaYinTable(i % 10, i % 12) == Some(NaYinNames[i / 2])
  {
    if i == 20 {} else if i == 21 {} else if i == 22 {} else if i == 23 {} else if i == 24 {}
    else if i == 25 {} else if i == 26 {} else if i == 27 {} else if i == 28 {} else {}
  }

  lemma NaYinDecade3(i: nat)
    requires 30 <= i < 40
    ensures NaYinTable(i % 10, i % 12) == Some(NaYinNames[i / 2])
  {
    if i == 30 {} else if i == 31 {} else if i == 32 {} else if i == 33 {} else if i == 34 {}
    else if i == 35 {} else if i == 36 {} else if i == 37 {} else if i == 38 {} else {}
  }

  lemma NaYinDecade4(i: nat)
    requires 40 <= i < 50
    ensures NaYinTable(i % 10, i % 12) == Some(NaYinNames[i / 2])
  {
    if i == 40 {} else if i == 41 {} else if i == 42 {} else if i == 43 {} else if i == 44 {}
    else if i == 45 {} else if i == 46 {} else if i == 47 {} else if i == 48 {} else {}
  }

  lemma NaYinDecade5(i: nat)
    requires 50 <= i < 60
    ensures NaYinTable(i % 10, i % 12) == Some(NaYinNames[i / 2])
  {
    if i == 50 {} else if i == 51 {} else if i == 52 {} else if i == 53 {} else if i == 54 {}
    else if i == 55 {} else if i == 56 {} else if i == 57 {} else if i == 58 {} else {}
  }

  /** Only the sixty valid pillars are keys of NAYINS. */
  lemma NaYinKeys(g: Stem, z: Branch)
    ensures NaYinTable(g, z).Some? <==> Pillar(g, z).Valid()
    ensures NaYinTable(g, z).Some? ==> NaYinTable(g, z).value != Unknown
  {
    if Pillar(g, z).Valid() {
      var i := CycleIndex(Pillar(g, z));
      NaYinByCycle(i);
      assert NaYinNames[i / 2] != Unknown;
    }
  }

  /** calculate_nayin: the two glyphs of the pillar string are unpacked and
      looked up, with "未知" for a pair the table lacks. */
  function CalculateNaYin(ganZhi: string): (r: string)
    requires |ganZhi| == 2
    ensures r != Unknown <==> ParsePillar(ganZhi).Some? && ParsePillar(ganZhi).value.Valid()
    ensures r != Unknown ==> r == NaYinNames[CycleIndex(ParsePillar(ganZhi).value) / 2]
  {
    match (StemOf(ganZhi[0]), BranchOf(ganZhi[1]))
    case (Some(g), Some(z)) =>
      NaYinKeys(g, z);
      if Pillar(g, z).Valid() then NaYinByCycle(CycleIndex(Pillar(g, z))); NaYinTable(g, z).GetOr(Unknown)
      else NaYinTable(g, z).GetOr(Unknown)
    case _ => Unknown
  }

  /** 丙子 is 涧下水, and an invalid pair such as 甲丑 gives 未知. */
  lemma NaYinExamples()
    ensures CalculateNaYin("丙子") == "涧下水"
    ensures CalculateNaYin("甲丑") == Unknown
  {
  }
  /** EMPTIES: the void branch pair of each of the sixty pillars. */
  function EmptyTable(g: Stem, z: Branch): Option<(Branch, Branch)>
  {
    match (g, z)
    case (0, 0) => Some((10, 11))  case (1, 1) => Some((10, 11))
    case (2, 2) => Some((10, 11))  case (3, 3) => Some((10, 11))
    case (4, 4) => Some((10, 11))  case (5, 5) => Some((10, 11))
    case (6, 6) => Some((10, 11))  case (7, 7) => Some((10, 11))
    case (8, 8) => Some((10, 11))  case (9, 9) => Some((10, 11))
    case (0, 10) => Some((8, 9))  case (1, 11) => Some((8, 9))
    case (2, 0) => Some((8, 9))  case (3, 1) => Some((8, 9))
    case (4, 2) => Some((8, 9))  case (5, 3) => Some((8, 9))
    case (6, 4) => Some((8, 9))  case (7, 5) => Some((8, 9))
    case (8, 6) => Some((8, 9))  case (9, 7) => Some((8, 9))
    case (0, 8) => Some((6, 7))  case (1, 9) => Some((6, 7))
    case (2, 10) => Some((6, 7))  case (3, 11) => Some((6, 7))
    case (4, 0) => Some((6, 7))  case (5, 1) => Some((6, 7))
    case (6, 2) => Some((6, 7))  case (7, 3) => Some((6, 7))
    case (8, 4) => Some((6, 7))  case (9, 5) => Some((6, 7))
    case (0, 6) => Some((4, 5))  case (1, 7) => Some((4, 5))
    case (2, 8) => Some((4, 5))  case (3, 9) => Some((4, 5))
    case (4, 10) => Some((4, 5))  case (5, 11) => Some((4, 5))
    case (6, 0) => Some((4, 5))  case (7, 1) => Some((4, 5))
    case (8, 2) => Some((4, 5))  case (9, 3) => Some((4, 5))
    case (0, 4) => Some((2, 3))  case (1, 5) => Some((2, 3))
    case (2, 6) => Some((2, 3))  case (3, 7) => Some((2, 3))
    case (4, 8) => Some((2, 3))  case (5, 9) => Some((2, 3))
    case (6, 10) => Some((2, 3))  case (7, 11) => Some((2, 3))
    case (8, 0) => Some((2, 3))  case (9, 1) => Some((2, 3))
    case (0, 2) => Some((0, 1))  case (1, 3) => Some((0, 1))
    case (2, 4) => Some((0, 1))  case (3, 5) => Some((0, 1))
    case (4, 6) => Some((0, 1))  case (5, 7) => Some((0, 1))
    case (6, 8) => Some((0, 1))  case (7, 9) => Some((0, 1))
    case (8, 10) => Some((0, 1))  case (9, 11) => Some((0, 1))
    case _ => None
  }

  /** The void pair is fixed by the decade of the cycle: decade k, the ten
      pillars from 甲子, 甲戌, ... 甲寅 on, voids branches 10 - 2k and
      11 - 2k. */
  lemma EmptyByCycle(i: nat)
    requires i < 60
    ensures EmptyTable(i % 10, i % 12) == Some((10 - 2 * (i / 10), 11 - 2 * (i / 10)))
    ensures EmptyTable(i % 10, i % 12) == Some(VoidBranches(CyclePillar(i)))
  {
    var k := i / 10;
    assert 10 * k <= i < 10 * k + 10;
    if k == 0 { EmptyDecade0(i); }
    else if k == 1 { EmptyDecade1(i); }
    else if k == 2 { EmptyDecade2(i); }
    else if k == 3 { EmptyDecade3(i); }
    else if k == 4 { EmptyDecade4(i); }
    else { EmptyDecade5(i); }
    VoidOfCycle(i);
  }

  lemma EmptyDecade0(i: nat)
    requires 0 <= i < 10
    ensures EmptyTable(i % 10, i % 12) == Some((10, 11))
  {
    if i == 0 {} else if i == 1 {} else if i == 2 {} else if i == 3 {} else if i == 4 {}
    else if i == 5 {} else if i == 6 {} else if i == 7 {} else if i == 8 {} else {}
  }

  lemma EmptyDecade1(i: nat)
    requires 10 <= i < 20
    ensures EmptyTable(i % 10, i % 12) == Some((8, 9))
  {
    if i == 10 {} else if i == 11 {} else if i == 12 {} else if i == 13 {} else if i == 14 {}
    else if i == 15 {} else if i == 16 {} else if i == 17 {} else if i == 18 {} else {}
  }

  lemma EmptyDecade2(i: nat)
    requires 20 <= i < 30
    ensures EmptyTable(i % 10, i % 12) == Some((6, 7))
  {
    if i == 20 {} else if i == 21 {} else if i == 22 {} else if i == 23 {} else if i == 24 {}
    else if i == 25 {} else if i == 26 {} else if i == 27 {} else if i == 28 {} else {}
  }

  lemma EmptyDecade3(i: nat)
    requires 30 <= i < 40
    ensures EmptyTable(i % 10, i % 12) == Some((4, 5))
  {
    if i == 30 {} else if i == 31 {} else if i == 32 {} else if i == 33 {} else if i == 34 {}
    else if i == 35 {} else if i == 36 {} else if i == 37 {} else if i == 38 {} else {}
  }

  lemma EmptyDecade4(i: nat)
    requires 40 <= i < 50
    ensures EmptyTable(i % 10, i % 12) == Some((2, 3))
  {
    if i == 40 {} else if i == 41 {} else if i == 42 {} else if i == 43 {} else if i == 44 {}
    else if i == 45 {} else if i == 46 {} else if i == 47 {} else if i == 48 {} else {}
  }

  lemma EmptyDecade5(i: nat)
    requires 50 <= i < 60
    ensures EmptyTable(i % 10, i % 12) == Some((0, 1))
  {
    if i == 50 {} else if i == 51 {} else if i == 52 {} else if i == 53 {} else if i == 54 {}
    else if i == 55 {} else if i == 56 {} else if i == 57 {} else if i == 58 {} else {}
  }

  /** Only the sixty valid pillars are keys of EMPTIES, and each carries
      its void pair. */
  lemma EmptyKeys(g: Stem, z: Branch)
    ensures EmptyTable(g, z).Some? <==> Pillar(g, z).Valid()
    ensures Pillar(g, z).Valid() ==> EmptyTable(g, z) == Some(VoidBranches(Pillar(g, z)))
  {
    if Pillar(g, z).Valid() {
      EmptyByCycle(CycleIndex(Pillar(g, z)));
    } else {
      EmptyKeysValid(g, z);
    }
  }

  lemma EmptyKeysValid(g: Stem, z: Branch)
    ensures EmptyTable(g, z).Some? ==> Pillar(g, z).Valid()
  {
  }

  /** The two glyph strings of a void pair, as EMPTIES lists them. */
  function VoidText(v: (Branch, Branch)): seq<string>
  {
    [[DZ[v.0]], [DZ[v.1]]]
  }

  /** What calculate_empty is given: the source's callers pass the pillar
      as a two-glyph string, while EMPTIES is keyed by (stem, branch)
      tuples. */
  datatype EmptyKey = TextKey(text: string) | PairKey(gan: char, zhi: char)

  /** calculate_empty: EMPTIES[key] as the two glyph strings when the key
      is in the table, [] otherwise. A string never equals a tuple key. */
  function CalculateEmpty(key: EmptyKey): (r: seq<string>)
    ensures key.TextKey? ==> r == []
    ensures key.PairKey? ==>
      match (StemOf(key.gan), BranchOf(key.zhi))
      case (Some(g), Some(z)) => r == if Pillar(g, z).Valid() then VoidText(VoidBranches(Pillar(g, z))) else []
      case _ => r == []
  {
    match key
    case TextKey(_) => []
    case PairKey(gan, zhi) =>
      match (StemOf(gan), BranchOf(zhi))
      case (Some(g), Some(z)) =>
        EmptyKeys(g, z);
        (match EmptyTable(g, z)
         case Some(v) => VoidText(v)
         case None => [])
      case _ => []
  }

  /** The lookup calc_bazi evidently intends: the pillar string taken apart
      into its (stem, branch) key. */
  function CalculateEmptyOfPillar(ganZhi: string): (r: seq<string>)
    requires |ganZhi| == 2
    ensures r != [] <==> ParsePillar(ganZhi).Some? && ParsePillar(ganZhi).value.Valid()
    ensures r != [] ==> r == VoidText(VoidBranches(ParsePillar(ganZhi).value))
  {
    CalculateEmpty(PairKey(ganZhi[0], ganZhi[1]))
  }

  /** calc_bazi passes each pillar as a string, so every pillar's void list
      comes out empty, even 甲子's, whose void pair is 戌亥. */
  lemma EmptyOfPillarStringIsLost(ganZhi: string)
    requires ganZhi == "甲子"
    ensures CalculateEmpty(TextKey(ganZhi)) == []
    ensures CalculateEmptyOfPillar(ganZhi) == ["戌", "亥"]
  {
    EmptyKeys(0, 0);
  }

  // ---------------------------------------------------------------------
  // Decade fortunes

  /** get_next_gan_zhi on indices: stem and branch each move by direction
      steps, wrapping modulo 10 and 12. */
  function NextPillar(p: Pillar, direction: int): (q: Pillar)
    ensures q.stem == (p.stem + direction) % 10 && q.branch == (p.branch + direction) % 12
  {
    Pillar((p.stem + direction) % 10, (p.branch + direction) % 12)
  }

  /** get_next_gan_zhi: the source indexes the two glyphs, so both must be
      a stem and a branch. */
  function GetNextGanZhi(ganZhi: string, direction: int): (r: string)
    requires ParsePillar(ganZhi).Some?
    ensures ParsePillar(r) == Some(NextPillar(ParsePillar(ganZhi).value, direction))
  {
    PillarTextRoundTrip(NextPillar(ParsePillar(ganZhi).value, direction));
    PillarText(NextPillar(ParsePillar(ganZhi).value, direction))
  }

  /** Stepping is additive: two steps are one step by the sum. */
  lemma NextPillarAdds(p: Pillar, a: int, b: int)
    ensures NextPillar(NextPillar(p, a), b) == NextPillar(p, a + b)
  {
    AddMod(p.stem, a, b, 10);
    AddMod(p.branch, a, b, 12);
  }

  lemma AddMod(x: int, a: int, b: int, n: int)
    requires n == 10 || n == 12
    ensures ((x + a) % n + b) % n == (x + a + b) % n
  {
    var q := (x + a) / n;
    assert x + a + b == ((x + a) % n + b) + n * q;
    if n == 10 {
      TensDropped((x + a) % n + b, q);
    } else {
      TwelvesDropped((x + a) % n + b, q);
    }
  }

  /** A step one way and back is the identity. */
  lemma NextPillarInverse(p: Pillar, direction: int)
    ensures NextPillar(NextPillar(p, direction), -direction) == p
  {
    NextPillarAdds(p, direction, -direction);
  }

  /** Stepping moves along the sexagenary cycle, so it keeps stem and
      branch parity equal. */
  lemma NextPillarOnCycle(i: int, direction: int)
    ensures NextPillar(CyclePillar(i), direction) == CyclePillar(i + direction)
  {
    AddMod(i, 0, direction, 10);
    AddMod(i, 0, direction, 12);
  }

  lemma NextPillarValid(p: Pillar, direction: int)
    requires p.Valid()
    ensures NextPillar(p, direction).Valid()
  {
    NextPillarOnCycle(CycleIndex(p), direction);
  }

  /** The pillar p advanced n times, one step in the direction each time. */
  function Stepped(p: Pillar, direction: int, n: nat): Pillar
  {
    if n == 0 then p else NextPillar(Stepped(p, direction, n - 1), direction)
  }

  /** n single steps make one step of n * direction, so a valid pillar stays
      valid. */
  lemma {:induction false} SteppedOffset(p: Pillar, direction: int, n: nat)
    ensures Stepped(p, direction, n) == NextPillar(p, n * direction)
    ensures p.Valid() ==> Stepped(p, direction, n).Valid()
  {
    if n == 0 {
      assert NextPillar(p, 0) == p;
    } else {
      SteppedOffset(p, direction, n - 1);
      NextPillarAdds(p, (n - 1) * direction, direction);
      assert (n - 1) * direction + direction == n * direction;
    }
    if p.Valid() {
      NextPillarValid(p, n * direction);
    }
  }

  // ---------------------------------------------------------------------
  // Tai-yuan

  /** The conception pillar: the month stem one on and the month branch
      three on. */
  function TaiYuan(month: Pillar): (t: Pillar)
    ensures t.stem == (month.stem + 1) % 10 && t.branch == (month.branch + 3) % 12
  {
    Pillar((month.stem + 1) % 10, (month.branch + 3) % 12)
  }

  /** calc_bazi's tai_yuan string; TG.index and DZ.index need the month
      pillar's glyphs to be a stem and a branch. */
  function TaiYuanText(monthGanZhi: string): (r: string)
    requires ParsePillar(monthGanZhi).Some?
    ensures ParsePillar(r) == Some(TaiYuan(ParsePillar(monthGanZhi).value))
  {
    PillarTextRoundTrip(TaiYuan(ParsePillar(monthGanZhi).value));
    PillarText(TaiYuan(ParsePillar(monthGanZhi).value))
  }

  /** On the cycle the tai-yuan lies 51 positions after the month pillar,
      so it is a valid pillar whenever the month pillar is. */
  lemma TaiYuanOnCycle(i: int)
    ensures TaiYuan(CyclePillar(i)) == CyclePillar(i + 51)
  {
    AddMod(i, 0, 1, 10);
    AddMod(i, 0, 3, 12);
    TensDropped(i + 1, 5);
    TwelvesDropped(i + 3, 4);
  }

  lemma TaiYuanValid(month: Pillar)
    requires month.Valid()
    ensures TaiYuan(month).Valid()
  {
    TaiYuanOnCycle(CycleIndex(month));
  }
}
