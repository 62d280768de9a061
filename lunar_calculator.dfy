/** lunar_calculator.py: the simplified calendar arithmetic of
    LunarCalculator: the four pillars of a date counted from 1984 (甲子), the
    zodiac animal, the western sign, the na-yin table and the void (空亡). */
module LunarCalculator {
  import opened Sexagenary

  /** The zodiac animals in branch order. */
  const ZodiacNames: seq<string> := ["鼠", "牛", "虎", "兔", "龙", "蛇", "马", "羊", "猴", "鸡", "狗", "猪"]

  /** The western signs, 水瓶座 first. */
  const ConstellationNames: seq<string> := [
    "水瓶座", "双鱼座", "白羊座", "金牛座", "双子座", "巨蟹座",
    "狮子座", "处女座", "天秤座", "天蝎座", "射手座", "摩羯座"]

  /** The (month, day) on which each sign after the previous one begins. */
  const ConstellationDates: seq<(int, int)> := [
    (1, 20), (2, 19), (3, 21), (4, 20), (5, 21), (6, 21),
    (7, 23), (8, 23), (9, 23), (10, 23), (11, 22), (12, 22)]

  /** The year, month, day and hour pillars of a date. */
  datatype DatePillars = DatePillars(year: Pillar, month: Pillar, day: Pillar, time: Pillar)

  /** The hour branch index: two-hour blocks, the first starting at 23:00. */
  function HourIndex(hour: int): Branch
  {
    ((hour + 1) / 2) % 12
  }

  /** get_gan_zhi_from_date, with the date given as year, month, the number
      of days since 1984-01-01 and the hour: the year pillar counts years
      from 1984, the month pillar months from January 1984, the day pillar
      the days, and the hour stem is twice the day stem plus the hour
      branch. */
  function GetGanZhiFromDate(year: int, month: int, dayOffset: int, hour: int): (r: DatePillars)
    ensures r.year.Valid() && r.month.Valid() && r.day.Valid() && r.time.Valid()
    ensures r.time.branch == HourIndex(hour)
  {
    var yearOffset := year - 1984;
    var monthOffset := (year - 1984) * 12 + month - 1;
    var dayGanIndex := dayOffset % 10;
    var hourIndex := HourIndex(hour);
    var timeGanIndex := (dayGanIndex * 2 + hourIndex) % 10;
    TimeStemParity(dayGanIndex, hourIndex);
    DatePillars(CyclePillar(yearOffset), CyclePillar(monthOffset), CyclePillar(dayOffset),
                Pillar(timeGanIndex, hourIndex))
  }

  /** The hour stem has the parity of the hour branch. */
  lemma TimeStemParity(d: int, h: Branch)
    ensures ((d * 2 + h) % 10) % 2 == h % 2
  {
    var x := d * 2 + h;
    assert x == x % 10 + 2 * (5 * (x / 10));
    TwosDropped(x % 10, 5 * (x / 10));
    TwosDropped(h, d);
  }

  /** 1984-01-01 at midnight is 甲子 year and day, and 甲子 hour; the year
      and day pillars repeat every sixty and step forward by one. */
  lemma DatePillarCycle(year: int, month: int, dayOffset: int, hour: int)
    ensures GetGanZhiFromDate(1984, 1, 0, 0) == DatePillars(Pillar(0, 0), Pillar(0, 0), Pillar(0, 0), Pillar(0, 0))
    ensures GetGanZhiFromDate(year + 60, month, dayOffset + 60, hour).year == GetGanZhiFromDate(year, month, dayOffset, hour).year
    ensures GetGanZhiFromDate(year, month, dayOffset + 60, hour).day == GetGanZhiFromDate(year, month, dayOffset, hour).day
    ensures GetGanZhiFromDate(year + 1, month, dayOffset, hour).year == NextPillarOf(GetGanZhiFromDate(year, month, dayOffset, hour).year)
    ensures GetGanZhiFromDate(year, month, dayOffset + 1, hour).day == NextPillarOf(GetGanZhiFromDate(year, month, dayOffset, hour).day)
  {
    CycleSixty(year - 1984);
    CycleSixty(dayOffset);
    CycleNext(year - 1984);
    CycleNext(dayOffset);
  }

  /** The pillar one place further along the cycle. */
  function NextPillarOf(p: Pillar): Pillar
  {
    Pillar((p.stem + 1) % 10, (p.branch + 1) % 12)
  }

  lemma CycleNext(i: int)
    ensures CyclePillar(i + 1) == NextPillarOf(CyclePillar(i))
  {
    var q, r := i / 10, i / 12;
    assert i + 1 == (i % 10 + 1) + 10 * q;
    TensDropped(i % 10 + 1, q);
    assert i + 1 == (i % 12 + 1) + 12 * r;
    TwelvesDropped(i % 12 + 1, r);
  }

  /** Hours 23 and 0 are both 子, each later branch covers the two hours
      from an odd hour, and the 子 hour's stem is twice the day stem, so
      days five apart share their hour stems. */
  lemma HourFacts(year: int, month: int, dayOffset: int, hour: int)
    ensures 0 <= hour < 24 ==> (HourIndex(hour) == 0 <==> hour == 23 || hour == 0)
    ensures 0 <= hour < 23 ==> HourIndex(hour) == (hour + 1) / 2
    ensures HourIndex(hour) == 0 ==>
      GetGanZhiFromDate(year, month, dayOffset, hour).time.stem == (2 * GetGanZhiFromDate(year, month, dayOffset, hour).day.stem) % 10
    ensures GetGanZhiFromDate(year, month, dayOffset + 5, hour).time == GetGanZhiFromDate(year, month, dayOffset, hour).time
  {
    var d := dayOffset % 10;
    var e := (dayOffset + 5) % 10;
    var h := HourIndex(hour);
    if d < 5 {
      assert e == d + 5 by {
        assert dayOffset + 5 == (d + 5) + 10 * (dayOffset / 10);
        TensDropped(d + 5, dayOffset / 10);
      }
      assert e * 2 + h == (d * 2 + h) + 10 * 1;
      TensDropped(d * 2 + h, 1);
    } else {
      assert e == d - 5 by {
        assert dayOffset + 5 == (d - 5) + 10 * (dayOffset / 10 + 1);
        TensDropped(d - 5, dayOffset / 10 + 1);
      }
      assert e * 2 + h == (d * 2 + h) + 10 * -1;
      TensDropped(d * 2 + h, -1);
    }
  }

  /** get_zodiac: the animal of (year - 4) mod 12. */
  function GetZodiac(year: int): (r: string)
    ensures r in ZodiacNames
  {
    ZodiacNames[(year - 4) % 12]
  }

  /** The animal repeats every twelve years and is the animal of the year
      pillar's branch. */
  lemma ZodiacFacts(year: int, month: int, dayOffset: int, hour: int)
    ensures GetZodiac(year + 12) == GetZodiac(year)
    ensures GetZodiac(year) == ZodiacNames[GetGanZhiFromDate(year, month, dayOffset, hour).year.branch]
  {
    TwelvesDropped(year - 4, 1);
    assert year - 4 == (year - 1984) + 12 * 165;
    TwelvesDropped(year - 1984, 165);
  }

  /** A date lies before boundary (m, d). */
  predicate Before(month: int, day: int, boundary: (int, int))
  {
    month < boundary.0 || (month == boundary.0 && day < boundary.1)
  }

  /** The sign of a date: for a month 1..12, the sign that begins in it from
      its boundary day on, the previous sign before that; any other month
      gives the last sign. */
  function ConstellationOf(month: int, day: int): (r: string)
    ensures r in ConstellationNames
  {
    ConstellationNames[ConstellationIndex(month, day)]
  }

  /** The position of that sign among the twelve. */
  function ConstellationIndex(month: int, day: int): (k: int)
    ensures 0 <= k < 12
  {
    if 1 <= month <= 12 then
      if day < ConstellationDates[month - 1].1 then (month - 2) % 12 else (month - 1) % 12
    else 11
  }

  /** get_constellation: the first boundary the date lies before names the
      sign preceding it; past every boundary, the last sign. */
  method GetConstellation(month: int, day: int) returns (name: string)
    ensures name == ConstellationOf(month, day)
  {
    var i := 0;
    while i < |ConstellationDates|
      invariant 0 <= i <= |ConstellationDates|
      invariant forall k :: 0 <= k < i ==> !Before(month, day, ConstellationDates[k])
      invariant i > 0 ==> month >= i
    {
      var (m, d) := ConstellationDates[i];
      if month < m || (month == m && day < d) {
        assert i > 0 ==> !Before(month, day, ConstellationDates[i - 1]);
        assert (i - 1) % 12 == ConstellationIndex(month, day);
        return ConstellationNames[(i - 1) % 12];
      }
      i := i + 1;
    }
    assert !Before(month, day, ConstellationDates[11]);
    assert ConstellationIndex(month, day) == 11;
    return ConstellationNames[11];
  }

  /** Boundary days belong to the new sign, the day before to the old. */
  lemma ConstellationExamples()
    ensures ConstellationOf(1, 19) == "摩羯座" && ConstellationOf(1, 20) == "水瓶座"
    ensures ConstellationOf(3, 21) == "白羊座" && ConstellationOf(12, 22) == "摩羯座"
    ensures ConstellationOf(13, 1) == "摩羯座" && ConstellationOf(0, 1) == "摩羯座"
  {
  }

  /** nayin_map: the na-yin of the first fifty pillars of the cycle. */
  function LunarNayinTable(g: Stem, z: Branch): Option<string>
  {
    match (g, z)
    case (0, 0) => Some("海中金")  case (1, 1) => Some("海中金")
    case (2, 2) => Some("炉中火")  case (3, 3) => Some("炉中火")
    case (4, 4) => Some("大林木")  case (5, 5) => Some("大林木")
    case (6, 6) => Some("路旁土")  case (7, 7) => Some("路旁土")
    case (8, 8) => Some("剑锋金")  case (9, 9) => Some("剑锋金")
    case (0, 10) => Some("山头火")  case (1, 11) => Some("山头火")
    case (2, 0) => Some("涧下水")  case (3, 1) => Some("涧下水")
    case (4, 2) => Some("城头土")  case (5, 3) => Some("城头土")
    case (6, 4) => Some("白蜡金")  case (7, 5) => Some("白蜡金")
    case (8, 6) => Some("杨柳木")  case (9, 7) => Some("杨柳木")
    case (0, 8) => Some("井泉水")  case (1, 9) => Some("井泉水")
    case (2, 10) => Some("屋上土")  case (3, 11) => Some("屋上土")
    case (4, 0) => Some("霹雳火")  case (5, 1) => Some("霹雳火")
    case (6, 2) => Some("松柏木")  case (7, 3) => Some("松柏木")
    case (8, 4) => Some("长流水")  case (9, 5) => Some("长流水")
    case (0, 6) => Some("砂中金")  case (1, 7) => Some("砂中金")
    case (2, 8) => Some("山下火")  case (3, 9) => Some("山下火")
    case (4, 10) => Some("平地木")  case (5, 11) => Some("平地木")
    case (6, 0) => Some("壁上土")  case (7, 1) => Some("壁上土")
    case (8, 2) => Some("金泊金")  case (9, 3) => Some("金泊金")
    case (0, 4) => Some("覆灯火")  case (1, 5) => Some("覆灯火")
    case (2, 6) => Some("天河水")  case (3, 7) => Some("天河水")
    case (4, 8) => Some("大驿土")  case (5, 9) => Some("大驿土")
    case (6, 10) => Some("钗钏金")  case (7, 11) => Some("钗钏金")
    case (8, 0) => Some("桑柘木")  case (9, 1) => Some("桑柘木")
    case _ => None
  }

  /** get_nayin: the table entry of a stem glyph and a branch glyph, 未知 for
      a pair the table lacks or for other strings. */
  function GetNayin(gan: string, zhi: string): (r: string)
    ensures StemText(gan).None? || BranchText(zhi).None? ==> r == Unknown
    ensures StemText(gan).Some? && BranchText(zhi).Some? ==>
      r == LunarNayinTable(StemText(gan).value, BranchText(zhi).value).GetOr(Unknown)
  {
    match (StemText(gan), BranchText(zhi))
    case (Some(g), Some(z)) => LunarNayinTable(g, z).GetOr(Unknown)
    case _ => Unknown
  }

  /** 甲子 has its name; 甲寅, the first pillar past the fifty, and the
      invalid pair 甲丑 do not. */
  lemma GetNayinExamples()
    ensures GetNayin("甲", "子") == "海中金"
    ensures GetNayin("癸", "丑") == "桑柘木"
    ensures GetNayin("甲", "寅") == Unknown
    ensures GetNayin("甲", "丑") == Unknown
    ensures GetNayin("甲子", "") == Unknown
  {
    assert StemText("甲") == Some(0) && StemText("癸") == Some(9);
    assert BranchText("子") == Some(0) && BranchText("丑") == Some(1) && BranchText("寅") == Some(2);
  }

  /** The start of the decade get_empty looks up: six times the stem plus
      the branch, mod 60, rounded down to a multiple of ten. */
  function XunStart(g: Stem, z: Branch): (k: int)
    ensures 0 <= k <= 50 && k % 10 == 0
  {
    ((g * 6 + z) % 60 / 10) * 10
  }

  /** empty_map: the void pair of each decade start. */
  function EmptyMap(k: int): Option<(string, string)>
  {
    if k == 0 then Some(("戌", "亥"))
    else if k == 10 then Some(("申", "酉"))
    else if k == 20 then Some(("午", "未"))
    else if k == 30 then Some(("辰", "巳"))
    else if k == 40 then Some(("寅", "卯"))
    else if k == 50 then Some(("子", "丑"))
    else None
  }

  /** get_empty, None standing for the error `index` raises on a glyph that
      is not a stem or not a branch. The ("", "") default of the lookup is
      never taken. */
  function GetEmpty(dayGan: string, dayZhi: string): (r: Option<(string, string)>)
    ensures r.Some? <==> StemText(dayGan).Some? && BranchText(dayZhi).Some?
    ensures r.Some? ==> r.value != ("", "") && EmptyMap(XunStart(StemText(dayGan).value, BranchText(dayZhi).value)).Some?
  {
    match (StemText(dayGan), BranchText(dayZhi))
    case (Some(g), Some(z)) => Some(EmptyMap(XunStart(g, z)).GetOr(("", "")))
    case _ => None
  }

  /** Each decade start gives the two branches that decade of the cycle
      leaves without a stem. */
  lemma EmptyMapIsVoid(i: nat)
    requires i < 60
    ensures EmptyMap((i / 10) * 10) == Some(([DZ[10 - 2 * (i / 10)]], [DZ[11 - 2 * (i / 10)]]))
  {
  }

  /** 甲子 gets (戌, 亥); so does 甲申, although 甲申 heads the decade
      甲申…癸巳, which leaves 午 and 未 void: at 甲申 the formula's position 8
      is not the cycle position 20. */
  lemma GetEmptyOfJiaShen()
    ensures GetEmpty("甲", "子") == Some(("戌", "亥"))
    ensures GetEmpty("甲", "申") == Some(("戌", "亥"))
    ensures XunStart(0, 8) == 0 && CycleIndex(Pillar(0, 8)) == 20
    ensures VoidBranches(Pillar(0, 8)) == (6, 7) && [DZ[6]] == "午" && [DZ[7]] == "未"
  {
    assert StemText("甲") == Some(0);
    assert BranchText("子") == Some(0) && BranchText("申") == Some(8);
    assert CyclePillar(20) == Pillar(0, 8);
  }

  /** The decade start from the cycle position, as get_empty evidently
      means it: the pillar's place in the sixty, rounded down. */
  function XunStartOfCycle(p: Pillar): (k: int)
    requires p.Valid()
    ensures 0 <= k <= 50 && k % 10 == 0
  {
    var q := CycleIndex(p) / 10;
    assert 0 <= q <= 5;
    TensDropped(0, q);
    q * 10
  }

  /** With the cycle position, empty_map gives the pillar's void branches. */
  lemma XunStartOfCycleIsVoid(p: Pillar)
    requires p.Valid()
    ensures EmptyMap(XunStartOfCycle(p)) == Some(([DZ[VoidBranches(p).0]], [DZ[VoidBranches(p).1]]))
  {
    var i := CycleIndex(p);
    VoidOfCycle(i);
    EmptyMapIsVoid(i);
  }
  /** get_empty with the decade taken from the cycle position: the void
      branches of a valid pillar, None for a glyph that is not a stem or a
      branch and for a stem and branch of opposite polarity. */
  function GetEmptyByCycle(dayGan: string, dayZhi: string): (r: Option<(string, string)>)
    ensures r.Some? <==> (StemText(dayGan).Some? && BranchText(dayZhi).Some?
      && Pillar(StemText(dayGan).value, BranchText(dayZhi).value).Valid())
    ensures r.Some? ==> var v := VoidBranches(Pillar(StemText(dayGan).value, BranchText(dayZhi).value));
      r.value == ([DZ[v.0]], [DZ[v.1]])
  {
    match (StemText(dayGan), BranchText(dayZhi))
    case (Some(g), Some(z)) =>
      if Pillar(g, z).Valid() then
        XunStartOfCycleIsVoid(Pillar(g, z));
        EmptyMap(XunStartOfCycle(Pillar(g, z)))
      else None
    case _ => None
  }

  /** 甲申 heads the decade 甲申…癸巳, which leaves 午 and 未 void. */
  lemma GetEmptyByCycleOfJiaShen()
    ensures GetEmptyByCycle("甲", "申") == Some(("午", "未"))
    ensures GetEmptyByCycle("甲", "子") == Some(("戌", "亥"))
  {
    assert StemText("甲") == Some(0);
    assert BranchText("子") == Some(0) && BranchText("申") == Some(8);
    assert CyclePillar(20) == Pillar(0, 8);
    assert CyclePillar(0) == Pillar(0, 0);
  }
}
