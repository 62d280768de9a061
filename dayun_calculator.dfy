/** dayun_calculator.py: the decade (大运), year (流年) and month (流月)
    lists of DayunCalculator, counted from the 1984 甲子 anchor, and the jump
    of a TendData to the decade holding a given year. */
module DayunCalculator {
  import opened Sexagenary
  import opened DataModels
  import opened ShishenCalculator
  import opened BaziCycle

  /** The fixed start age of the first decade. */
  const StartAge: int := 8

  /** The number of decades generated. */
  const DayunSteps: nat := 8

  /** The number of years in a decade's year list. */
  const DecadeYears: nat := 10

  /** The solar-term name of each month index. */
  const JieqiMap: seq<string> := ["立春", "惊蛰", "清明", "立夏", "芒种", "小暑",
                                  "立秋", "白露", "寒露", "立冬", "大雪", "小寒"]

  /** Months elapsed since January 1984 (甲子 month in this count). */
  function MonthOffset(year: int, month: int): int
  {
    (year - 1984) * 12 + month - 1
  }

  /** The month pillar calculate_dayun starts from: stem and branch of the
      month offset. */
  function SeedPillar(year: int, month: int): (p: Pillar)
    ensures p.Valid()
    ensures p.stem == MonthOffset(year, month) % 10 && p.branch == MonthOffset(year, month) % 12
  {
    CyclePillar(MonthOffset(year, month))
  }

  /** Twelve months after a seed comes the seed two stems on, same branch. */
  lemma SeedPillarNextYear(year: int, month: int)
    ensures SeedPillar(year + 1, month) == Pillar((SeedPillar(year, month).stem + 2) % 10, SeedPillar(year, month).branch)
  {
    var m := MonthOffset(year, month);
    assert MonthOffset(year + 1, month) == m + 12;
    assert m + 12 == (m + 2) + 10 * 1;
    TensDropped(m + 2, 1);
    TwelvesDropped(m, 1);
    AddMod(m, 0, 2, 10);
  }

  /** The direction of calculate_dayun: gender 1 (男) in a yang year or
      gender 2 (女) in a yin year counts forward, anything else backward. */
  function DayunDirection(year: int, gender: int): (d: int)
    ensures d == 1 || d == -1
  {
    var yearGanIndex := (year - 1984) % 10;
    var isYangYear := yearGanIndex % 2 == 0;
    if (isYangYear && gender == 1) || (!isYangYear && gender == 2) then 1 else -1
  }

  /** A man counts forward exactly in even years, a woman the other way,
      consecutive years alternate, and any other gender code goes backward. */
  lemma DayunDirectionCases(year: int, gender: int)
    ensures DayunDirection(year, 1) == 1 <==> year % 2 == 0
    ensures DayunDirection(year, 2) == -DayunDirection(year, 1)
    ensures DayunDirection(year + 1, 1) == -DayunDirection(year, 1)
    ensures gender != 1 && gender != 2 ==> DayunDirection(year, gender) == -1
  {
    YearParity(year);
    YearParity(year + 1);
  }

  /** The parity of the year stem index is the parity of the year. */
  lemma YearParity(year: int)
    ensures ((year - 1984) % 10) % 2 == year % 2
  {
    var x := year - 1984;
    assert x == (x % 10) + 2 * (5 * (x / 10));
    TwosDropped(x % 10, 5 * (x / 10));
    assert year == x + 2 * 992;
    TwosDropped(x, 992);
  }

  /** Decade i of _generate_dayun_list: it starts in the year of birth plus
      eight plus ten years per step, at age eight plus ten per step, on the
      seed moved i steps in the direction. */
  function DayunItemAt(birthYear: int, seed: Pillar, direction: int, dayGan: string, i: nat): (r: DayunItem)
    ensures r.startYear - r.startAge == birthYear
    ensures ParsePillar(r.pillar) == Some(Stepped(seed, direction, i))
  {
    PillarTextRoundTrip(Stepped(seed, direction, i));
    var pillar := PillarText(Stepped(seed, direction, i));
    DayunItem(birthYear + StartAge + i * 10, StartAge + i * 10, pillar, GetRelationByPillar(dayGan, pillar))
  }

  /** The eight decades. */
  function DayunList(birthYear: int, seed: Pillar, direction: int, dayGan: string): (r: seq<DayunItem>)
    ensures |r| == DayunSteps
    ensures forall i :: 0 < i < |r| ==> r[i].startAge == r[i - 1].startAge + 10
  {
    seq(DayunSteps, i requires 0 <= i < DayunSteps => DayunItemAt(birthYear, seed, direction, dayGan, i))
  }

  /** _generate_dayun_list: eight decades, the stem and branch indices moving
      by the direction (mod 10 and mod 12) after each one. The 童限 branch
      needs a start age below eight, and the start age is fixed at eight. */
  method GenerateDayunList(birthYear: int, seed: Pillar, direction: int, dayGan: string)
      returns (items: seq<DayunItem>)
    ensures items == DayunList(birthYear, seed, direction, dayGan)
  {
    var spec := DayunList(birthYear, seed, direction, dayGan);
    items := [];
    var ganIndex: Stem := seed.stem;
    var zhiIndex: Branch := seed.branch;
    var startAge := StartAge;
    for i := 0 to DayunSteps
      invariant items == spec[..i]
      invariant Pillar(ganIndex, zhiIndex) == Stepped(seed, direction, i)
    {
      var item := DecadeOfLoop(birthYear, seed, direction, dayGan, i, startAge, ganIndex, zhiIndex);
      PrefixStep(spec, i);
      items := items + [item];
      IndexStep(ganIndex, zhiIndex, direction);
      ganIndex := (ganIndex + direction) % 10;
      zhiIndex := (zhiIndex + direction) % 12;
    }
  }

  /** One pass of the decade loop, on the indices moved i steps from the
      seed. */
  method DecadeOfLoop(birthYear: int, seed: Pillar, direction: int, dayGan: string, i: nat,
                      startAge: int, ganIndex: Stem, zhiIndex: Branch) returns (item: DayunItem)
    requires startAge == StartAge
    requires Pillar(ganIndex, zhiIndex) == Stepped(seed, direction, i)
    ensures item == DayunItemAt(birthYear, seed, direction, dayGan, i)
  {
    var startYear := birthYear + startAge + i * 10;
    var pillar: string;
    var shishen: string;
    if i == 0 && startAge < 8 {
      pillar := "童限";
      shishen := "童限";
    } else {
      pillar := [TG[ganIndex], DZ[zhiIndex]];
      assert pillar == PillarText(Stepped(seed, direction, i));
      shishen := GetRelationByPillar(dayGan, pillar);
    }
    item := DayunItem(startYear, startAge + i * 10, pillar, shishen);
  }

  /** Moving both indices is moving the pillar. */
  lemma IndexStep(g: Stem, z: Branch, direction: int)
    ensures Pillar((g + direction) % 10, (z + direction) % 12) == NextPillar(Pillar(g, z), direction)
  {
  }

  /** Decades start ten years apart, each at the age of its start year minus
      the year of birth, on the seed moved i * direction places; the first
      decade is the month pillar itself, and a valid seed gives valid
      pillars whose relation is the two abbreviations for a stem day. */
  lemma DayunListFacts(birthYear: int, seed: Pillar, direction: int, dayGan: string, i: nat)
    requires i < DayunSteps
    ensures var items := DayunList(birthYear, seed, direction, dayGan);
      && items[i].startYear - birthYear == items[i].startAge == 8 + 10 * i
      && items[i].pillar == PillarText(NextPillar(seed, i * direction))
      && (i == 0 ==> items[i].pillar == PillarText(seed))
      && (i + 1 < DayunSteps ==> items[i + 1].startYear == items[i].startYear + 10)
  {
    SteppedOffset(seed, direction, i);
    if i == 0 {
      assert NextPillar(seed, 0) == seed;
    }
  }

  /** On a cycle position j, decade i is cycle position j + i * direction. */
  lemma DayunListOnCycle(birthYear: int, j: int, direction: int, dayGan: string, i: nat)
    requires i < DayunSteps
    ensures DayunList(birthYear, CyclePillar(j), direction, dayGan)[i].pillar == PillarText(CyclePillar(j + i * direction))
  {
    SteppedOnCycle(j, direction, i);
  }

  /** i steps from cycle position j reach position j + i * direction. */
  lemma SteppedOnCycle(j: int, direction: int, i: nat)
    ensures Stepped(CyclePillar(j), direction, i) == CyclePillar(j + i * direction)
  {
    SteppedOffset(CyclePillar(j), direction, i);
    NextPillarOnCycle(j, i * direction);
  }

  /** For a valid seed and a stem day, a decade's relation is the
      abbreviation of its stem's and its branch's ten gods. */
  lemma DayunListRelation(birthYear: int, seed: Pillar, direction: int, d: Stem, i: nat)
    requires i < DayunSteps
    ensures var item := DayunList(birthYear, seed, direction, [TG[d]])[i];
      var p := Stepped(seed, direction, i);
      item.shishen == [Abbrev(KinGod(Kin(StemElement(d), StemElement(p.stem)), IsYang(d) == IsYang(p.stem))),
                       Abbrev(ShiShenZhiGod(d, p.branch))]
  {
    GetRelationByPillarOfPillar(d, Stepped(seed, direction, i));
  }

  /** Year k of a decade's year list: year startYear + k, its pillar counted
      from 1984 (甲子), age startAge + k. */
  function YearItemAt(startYear: int, startAge: int, dayGan: string, k: nat): (r: YearItem)
    ensures r.year - r.age == startYear - startAge
    ensures r.pillar == YearPillar(r.year)
  {
    var year := startYear + k;
    var pillar := YearPillar(year);
    YearItem(year, pillar, startAge + k, GetRelationByPillar(dayGan, pillar))
  }

  /** The text of a year's pillar, counted from 1984 (甲子). */
  function YearPillar(year: int): (s: string)
    ensures ParsePillar(s) == Some(CyclePillar(year - 1984))
  {
    PillarTextRoundTrip(CyclePillar(year - 1984));
    PillarText(CyclePillar(year - 1984))
  }

  /** The ten years of a decade. */
  function YearList(startYear: int, startAge: int, dayGan: string): (r: seq<YearItem>)
    ensures |r| == DecadeYears
    ensures forall k :: 0 < k < |r| ==> r[k].year == r[k - 1].year + 1 && r[k].age == r[k - 1].age + 1
  {
    seq(DecadeYears, k requires 0 <= k < DecadeYears => YearItemAt(startYear, startAge, dayGan, k))
  }

  /** The year loop shared by _generate_year_list and skip_to_current_time. */
  method YearsOfDecade(startYear: int, startAge: int, dayGan: string) returns (years: seq<YearItem>)
    ensures years == YearList(startYear, startAge, dayGan)
    ensures |years| == DecadeYears && forall k :: 0 <= k < |years| ==> years[k].year == startYear + k
  {
    var spec := YearList(startYear, startAge, dayGan);
    years := [];
    for yearOffset := 0 to DecadeYears
      invariant years == spec[..yearOffset]
    {
      var year := startYear + yearOffset;
      var yearGanIdx := (year - 1984) % 10;
      var yearZhiIdx := (year - 1984) % 12;
      var pillar := [TG[yearGanIdx], DZ[yearZhiIdx]];
      var shishen := GetRelationByPillar(dayGan, pillar);
      assert YearItem(year, pillar, startAge + yearOffset, shishen) == spec[yearOffset];
      PrefixStep(spec, yearOffset);
      years := years + [YearItem(year, pillar, startAge + yearOffset, shishen)];
    }
  }

  /** _generate_year_list: no years without decades, otherwise the ten years
      of the first decade. */
  method GenerateYearList(dayunList: seq<DayunItem>, dayGan: string) returns (years: seq<YearItem>)
    ensures |dayunList| == 0 ==> years == []
    ensures |dayunList| > 0 ==> years == YearList(dayunList[0].startYear, dayunList[0].startAge, dayGan)
  {
    if |dayunList| == 0 {
      return [];
    }
    var firstDayun := dayunList[0];
    years := YearsOfDecade(firstDayun.startYear, firstDayun.startAge, dayGan);
  }

  /** The years are consecutive and age minus year is constant; each
      pillar is the cycle position of year - 1984, so by NextPillarOnCycle
      every year steps one forward from the one before. */
  lemma YearListFacts(startYear: int, startAge: int, dayGan: string, k: nat)
    requires k < DecadeYears
    ensures var years := YearList(startYear, startAge, dayGan);
      && years[k].year == startYear + k
      && years[k].age - years[k].year == startAge - startYear
      && years[k].pillar == PillarText(CyclePillar(startYear + k - 1984))
  {
  }

  /** The simplified month pillar: stem (year * 12 + m) mod 10, branch m. */
  function MonthPillar(year: int, m: nat): Pillar
    requires m < 12
  {
    Pillar((year * 12 + m) % 10, m)
  }

  /** The date text "month/1" of the first day of a month. */
  function FirstOfMonth(month: int): string
  {
    IntText(month) + "/1"
  }

  /** The month number 1..12 after month number n, 12 wrapping to 1. */
  function MonthAfter(n: int): int
  {
    n % 12 + 1
  }

  /** Month m of the month list: its pillar, the m-th solar term, dates
      "m+1/1" and the next month's. */
  function MonthItemAt(year: int, dayGan: string, m: nat): (r: MonthItem)
    requires m < 12
    ensures r.year == year
    ensures ParsePillar(r.pillar) == Some(MonthPillar(year, m))
  {
    PillarTextRoundTrip(MonthPillar(year, m));
    var pillar := PillarText(MonthPillar(year, m));
    MonthItem(year, JieqiMap[m], FirstOfMonth(m + 1), FirstOfMonth(MonthAfter(m + 1)),
              pillar, GetRelationByPillar(dayGan, pillar))
  }

  /** The twelve months of a year. */
  function MonthList(year: int, dayGan: string): (r: seq<MonthItem>)
    ensures |r| == 12
    ensures forall m :: 0 <= m < 12 ==> r[m].year == year && ParsePillar(r[m].pillar) == Some(MonthPillar(year, m))
  {
    seq(12, m requires 0 <= m < 12 => MonthItemAt(year, dayGan, m))
  }

  /** _generate_month_list: no months without years, otherwise the twelve
      months of the first year. The 未知 arm of the solar-term lookup needs
      an index past the twelve names, which the loop never reaches. */
  method GenerateMonthList(yearList: seq<YearItem>, dayGan: string) returns (months: seq<MonthItem>)
    ensures |yearList| == 0 ==> months == []
    ensures |yearList| > 0 ==> months == MonthList(yearList[0].year, dayGan)
  {
    if |yearList| == 0 {
      return [];
    }
    var firstYear := yearList[0];
    var spec := MonthList(firstYear.year, dayGan);
    months := [];
    for monthIdx := 0 to 12
      invariant months == spec[..monthIdx]
    {
      var item := MonthOfLoop(firstYear.year, dayGan, monthIdx);
      PrefixStep(spec, monthIdx);
      months := months + [item];
    }
  }

  /** One pass of the month loop: the pillar from (year * 12 + m) mod 10 and
      m mod 12, its relation, the m-th solar term and the two dates. */
  method MonthOfLoop(year: int, dayGan: string, monthIdx: nat) returns (item: MonthItem)
    requires monthIdx < 12
    ensures item == MonthItemAt(year, dayGan, monthIdx)
  {
    var monthGanIdx := (year * 12 + monthIdx) % 10;
    var monthZhiIdx := monthIdx % 12;
    var pillar := [TG[monthGanIdx], DZ[monthZhiIdx]];
    MonthPillarOfLoop(year, monthIdx);
    assert pillar == PillarText(MonthPillar(year, monthIdx));
    var shishen := GetRelationByPillar(dayGan, pillar);
    var nextMonth := MonthAfter(monthIdx + 1);
    var jieqi := if monthIdx < |JieqiMap| then JieqiMap[monthIdx] else Unknown;
    item := MonthItem(year, jieqi, FirstOfMonth(monthIdx + 1), FirstOfMonth(nextMonth),
                      pillar, shishen);
    assert jieqi == JieqiMap[monthIdx];
  }

  /** The loop's stem and branch indices are those of the month pillar. */
  lemma MonthPillarOfLoop(year: int, m: nat)
    requires m < 12
    ensures MonthPillar(year, m) == Pillar((year * 12 + m) % 10, m % 12)
  {
  }

  /** Each month's next-term date is the following month's date,
      December's being January's; the solar terms are the twelve names in
      order, and the pillar is the month's. */
  lemma MonthListFacts(year: int, dayGan: string, m: nat)
    requires m < 12
    ensures var months := MonthList(year, dayGan);
      && months[m].nextJieqiDate == months[(m + 1) % 12].date
      && months[m].jieqi == JieqiMap[m]
      && months[m].year == year
      && months[m].pillar == PillarText(MonthPillar(year, m))
  {
  }

  /** Every month pillar is valid, and each is the pillar after the previous
      month's. */
  lemma MonthPillarFacts(year: int, m: nat)
    requires m < 12
    ensures MonthPillar(year, m).Valid()
    ensures m + 1 < 12 ==> MonthPillar(year, m + 1) == NextPillar(MonthPillar(year, m), 1)
  {
    var x := year * 12 + m;
    MonthPillarOfLoop(year, m);
    StemParity(x, m, 6 * year);
    if m + 1 < 12 {
      MonthPillarOfLoop(year, m + 1);
      AddMod(x, 0, 1, 10);
      assert x + 0 + 1 == year * 12 + (m + 1);
    }
  }

  /** Ten is even, so x mod 10 keeps the parity of x. */
  lemma StemParity(x: int, m: int, k: int)
    requires x == m + 2 * k
    ensures (x % 10) % 2 == m % 2
  {
    TwosDropped(m, k);
    assert x == x % 10 + 2 * (5 * (x / 10));
    TwosDropped(x % 10, 5 * (x / 10));
  }

  /** calculate_dayun: the decades from the seed month pillar and the
      direction, the years of the first decade and the months of its first
      year; day and hour lists empty and every index 0. The sect argument
      is not used by the source and is not a parameter here. */
  method CalculateDayun(birthYear: int, birthMonth: int, gender: int, dayGan: string) returns (t: TendData)
    ensures fresh(t)
    ensures t.dayunList == DayunList(birthYear, SeedPillar(birthYear, birthMonth), DayunDirection(birthYear, gender), dayGan)
    ensures t.yearList == YearList(birthYear + StartAge, StartAge, dayGan)
    ensures t.monthList == MonthList(birthYear + StartAge, dayGan)
    ensures t.dayList == [] && t.timeList == []
    ensures t.currentIndex == 0 && t.yearIndex == 0 && t.monthIndex == 0 && t.dayIndex == 0 && t.timeIndex == 0
  {
    var seed := SeedPillar(birthYear, birthMonth);
    var direction := DayunDirection(birthYear, gender);
    var dayunList := GenerateDayunList(birthYear, seed, direction, dayGan);
    var yearList := GenerateYearList(dayunList, dayGan);
    var monthList: seq<MonthItem> := [];
    if |yearList| > 0 {
      monthList := GenerateMonthList(yearList, dayGan);
    }
    t := new TendData.WithLists(dayunList, yearList, monthList, [], []);
  }

  /** A decade holds the ten years from its start year. */
  predicate InDecade(item: DayunItem, year: int)
  {
    item.startYear <= year < item.startYear + 10
  }

  /** The first decade from position k on that holds the year. */
  function FirstDecadeFrom(items: seq<DayunItem>, year: int, k: nat): (r: Option<nat>)
    requires k <= |items|
    ensures r.Some? ==> k <= r.value < |items| && InDecade(items[r.value], year)
    ensures r.Some? ==> forall j :: k <= j < r.value ==> !InDecade(items[j], year)
    ensures r.None? <==> forall j :: k <= j < |items| ==> !InDecade(items[j], year)
    decreases |items| - k
  {
    if k == |items| then None
    else if InDecade(items[k], year) then Some(k)
    else FirstDecadeFrom(items, year, k + 1)
  }

  /** The first decade that holds the year. */
  function FirstDecade(items: seq<DayunItem>, year: int): Option<nat>
  {
    FirstDecadeFrom(items, year, 0)
  }

  /** In the generated list, the year falls in decade (year - birthYear - 8)
      / 10 when it lies in the eighty years from age eight, and in none
      otherwise. */
  lemma FirstDecadeOfList(birthYear: int, seed: Pillar, direction: int, dayGan: string, year: int)
    ensures var r := FirstDecade(DayunList(birthYear, seed, direction, dayGan), year);
      if birthYear + 8 <= year < birthYear + 88 then r == Some((year - (birthYear + 8)) / 10) else r.None?
  {
    var items := DayunList(birthYear, seed, direction, dayGan);
    var base := birthYear + 8;
    DecadeStarts(birthYear, seed, direction, dayGan);
    FirstDecadeOfSpaced(items, base, year);
    if base <= year < base + 80 {
      assert FirstDecade(items, year) == Some((year - base) / 10);
    }
  }

  /** Decade k of the list starts 8 + 10k years after the birth year. */
  lemma DecadeStarts(birthYear: int, seed: Pillar, direction: int, dayGan: string)
    ensures var items := DayunList(birthYear, seed, direction, dayGan);
      |items| == 8 && forall k :: 0 <= k < |items| ==> items[k].startYear == birthYear + 8 + 10 * k
  {
  }

  /** Eight decades starting ten years apart from base: the year falls in
      decade (year - base) / 10 inside the eighty years, and in none outside. */
  lemma FirstDecadeOfSpaced(items: seq<DayunItem>, base: int, year: int)
    requires |items| == 8
    requires forall k :: 0 <= k < |items| ==> items[k].startYear == base + 10 * k
    ensures var r := FirstDecade(items, year);
      if base <= year < base + 80 then r == Some((year - base) / 10) else r.None?
  {
    if base <= year < base + 80 {
      var i := (year - base) / 10;
      assert InDecade(items[i], year);
      forall k | 0 <= k < i
        ensures !InDecade(items[k], year)
      {
      }
      FirstDecadeIs(items, year, i);
    } else {
      forall j | 0 <= j < 8
        ensures !InDecade(items[j], year)
      {
      }
    }
  }

  /** skip_to_current_time: for the first decade holding the year, make it
      current, replace the year list by that decade's ten years and point the
      year index at the year; with no such decade nothing changes. */
  method SkipToCurrentTime(t: TendData, currentYear: int, dayGan: string)
    modifies t
    ensures t.dayunList == old(t.dayunList) && t.monthList == old(t.monthList)
    ensures t.dayList == old(t.dayList) && t.timeList == old(t.timeList)
    ensures t.monthIndex == old(t.monthIndex) && t.dayIndex == old(t.dayIndex) && t.timeIndex == old(t.timeIndex)
    ensures FirstDecade(t.dayunList, currentYear).None? ==>
      t.currentIndex == old(t.currentIndex) && t.yearList == old(t.yearList) && t.yearIndex == old(t.yearIndex)
    ensures FirstDecade(t.dayunList, currentYear).Some? ==>
      var i := FirstDecade(t.dayunList, currentYear).value;
      && t.currentIndex == i
      && t.yearList == YearList(t.dayunList[i].startYear, t.dayunList[i].startAge, dayGan)
      && t.yearIndex == currentYear - t.dayunList[i].startYear
      && t.yearList[t.yearIndex].year == currentYear
  {
    var i := 0;
    while i < |t.dayunList|
      invariant 0 <= i <= |t.dayunList|
      invariant forall k :: 0 <= k < i ==> !InDecade(t.dayunList[k], currentYear)
      invariant t.dayunList == old(t.dayunList) && t.monthList == old(t.monthList)
      invariant t.dayList == old(t.dayList) && t.timeList == old(t.timeList)
      invariant t.monthIndex == old(t.monthIndex) && t.dayIndex == old(t.dayIndex) && t.timeIndex == old(t.timeIndex)
      invariant t.currentIndex == old(t.currentIndex) && t.yearList == old(t.yearList) && t.yearIndex == old(t.yearIndex)
    {
      var dayun := t.dayunList[i];
      if dayun.startYear <= currentYear < dayun.startYear + 10 {
        t.currentIndex := i;
        var yearList := YearsOfDecade(dayun.startYear, dayun.startAge, dayGan);
        t.yearList := yearList;
        var j := 0;
        while j < |yearList|
          invariant 0 <= j <= |yearList|
          invariant dayun.startYear + j <= currentYear
          invariant t.dayunList == old(t.dayunList) && t.monthList == old(t.monthList)
          invariant t.dayList == old(t.dayList) && t.timeList == old(t.timeList)
          invariant t.monthIndex == old(t.monthIndex) && t.dayIndex == old(t.dayIndex) && t.timeIndex == old(t.timeIndex)
          invariant t.currentIndex == i && t.yearList == yearList
        {
          if yearList[j].year == currentYear {
            t.yearIndex := j;
            break;
          }
          j := j + 1;
        }
        assert yearList[currentYear - dayun.startYear].year == currentYear;
        FirstDecadeIs(t.dayunList, currentYear, i);
        return;
      }
      i := i + 1;
    }
  }

  /** A decade holding the year with none before it is the first one. */
  lemma FirstDecadeIs(items: seq<DayunItem>, year: int, i: nat)
    requires i < |items| && InDecade(items[i], year)
    requires forall k :: 0 <= k < i ==> !InDecade(items[k], year)
    ensures FirstDecade(items, year) == Some(i)
  {
    assert InDecade(items[i], year);
  }
}
