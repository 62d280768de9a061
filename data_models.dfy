/** The constants and record types of data_models.py: the ten-gods labels
    and their one-glyph abbreviations, the stem-to-branch ten-gods table,
    the twelve-stage offsets, the request bounds and the fortune-list
    records. */
module DataModels {
  import opened Sexagenary

  /** The ten relations of a stem or branch to the day master. */
  datatype TenGod =
    | Friend          // 比肩
    | RobWealth       // 劫财
    | EatingGod       // 食神
    | HurtingOfficer  // 伤官
    | IndirectWealth  // 偏财
    | DirectWealth    // 正财
    | SevenKillings   // 七杀
    | DirectOfficer   // 正官
    | IndirectSeal    // 偏印
    | DirectSeal      // 正印

  /** The two-glyph label the program stores and returns. */
  function Label(g: TenGod): string
  {
    match g
    case Friend => "比肩"
    case RobWealth => "劫财"
    case EatingGod => "食神"
    case HurtingOfficer => "伤官"
    case IndirectWealth => "偏财"
    case DirectWealth => "正财"
    case SevenKillings => "七杀"
    case DirectOfficer => "正官"
    case IndirectSeal => "偏印"
    case DirectSeal => "正印"
  }

  /** The relation a label names, if it names one. */
  function GodOfLabel(s: string): (r: Option<TenGod>)
    ensures r.Some? ==> Label(r.value) == s
  {
    if s == "比肩" then Some(Friend)
    else if s == "劫财" then Some(RobWealth)
    else if s == "食神" then Some(EatingGod)
    else if s == "伤官" then Some(HurtingOfficer)
    else if s == "偏财" then Some(IndirectWealth)
    else if s == "正财" then Some(DirectWealth)
    else if s == "七杀" then Some(SevenKillings)
    else if s == "正官" then Some(DirectOfficer)
    else if s == "偏印" then Some(IndirectSeal)
    else if s == "正印" then Some(DirectSeal)
    else None
  }

  /** Labels name their relation, so the ten labels are distinct. */
  lemma LabelRoundTrip(g: TenGod)
    ensures GodOfLabel(Label(g)) == Some(g)
  {
  }

  /** SHI_SHEN_SIMPLIFIE's value for a relation. */
  function Abbrev(g: TenGod): char
  {
    match g
    case Friend => '比'
    case RobWealth => '劫'
    case EatingGod => '食'
    case HurtingOfficer => '伤'
    case IndirectWealth => '才'
    case DirectWealth => '财'
    case SevenKillings => '杀'
    case DirectOfficer => '官'
    case IndirectSeal => '枭'
    case DirectSeal => '印'
  }

  /** SHI_SHEN_SIMPLIFIE.get(label): defined exactly on the ten labels. */
  function Simplifie(relation: string): (r: Option<string>)
    ensures r.Some? <==> GodOfLabel(relation).Some?
  {
    match GodOfLabel(relation)
    case Some(g) => Some([Abbrev(g)])
    case None => None
  }

  /** The abbreviation table is injective: ten labels, ten distinct
      single glyphs. */
  lemma SimplifieInjective(a: string, b: string)
    requires Simplifie(a).Some? && Simplifie(a) == Simplifie(b)
    ensures a == b
    ensures |Simplifie(a).value| == 1
  {
    var g, h := GodOfLabel(a).value, GodOfLabel(b).value;
    assert [Abbrev(g)] == [Abbrev(h)];
    AbbrevInjective(g, h);
  }

  lemma AbbrevInjective(g: TenGod, h: TenGod)
    requires Abbrev(g) == Abbrev(h)
    ensures g == h
  {
  }

  /** The abbreviation of each relation's own label. */
  lemma SimplifieOfLabel(g: TenGod)
    ensures Simplifie(Label(g)) == Some([Abbrev(g)])
  {
    LabelRoundTrip(g);
  }

  /** TIAN_GAN and DI_ZHI, as lists of one-glyph strings. */
  const TianGan: seq<string> := ["甲", "乙", "丙", "丁", "戊", "己", "庚", "辛", "壬", "癸"]
  const DiZhi: seq<string> := ["子", "丑", "寅", "卯", "辰", "巳", "午", "未", "申", "酉", "戌", "亥"]

  /** The lists hold the glyphs of TG and DZ in order, so their entries
      are distinct and membership means naming a stem or a branch. */
  lemma TianGanDiZhi(s: string)
    ensures |TianGan| == 10 && forall i :: 0 <= i < 10 ==> TianGan[i] == [TG[i]]
    ensures |DiZhi| == 12 && forall i :: 0 <= i < 12 ==> DiZhi[i] == [DZ[i]]
    ensures s in TianGan <==> StemText(s).Some?
    ensures s in DiZhi <==> BranchText(s).Some?
  {
    StemsListed(s);
    BranchesListed(s);
  }

  lemma StemsListed(s: string)
    ensures |TianGan| == 10 && forall i :: 0 <= i < 10 ==> TianGan[i] == [TG[i]]
    ensures s in TianGan <==> StemText(s).Some?
  {
    assert forall i :: 0 <= i < 10 ==> TianGan[i] == [TG[i]];
    if s in TianGan {
      var i :| 0 <= i < 10 && TianGan[i] == s;
      assert StemOf(s[0]) == Some(i);
    }
    if StemText(s).Some? {
      assert TianGan[StemText(s).value] == s;
    }
  }

  lemma BranchesListed(s: string)
    ensures |DiZhi| == 12 && forall i :: 0 <= i < 12 ==> DiZhi[i] == [DZ[i]]
    ensures s in DiZhi <==> BranchText(s).Some?
  {
    assert forall i :: 0 <= i < 12 ==> DiZhi[i] == [DZ[i]];
    if s in DiZhi {
      var i :| 0 <= i < 12 && DiZhi[i] == s;
      assert BranchOf(s[0]) == Some(i);
    }
    if BranchText(s).Some? {
      assert DiZhi[BranchText(s).value] == s;
    }
  }

  /** SHI_SHEN_ZHI, row by day stem, column by branch. */
  const ShiShenZhiRows: seq<seq<TenGod>> := [
      [DirectSeal, DirectWealth, Friend, RobWealth, IndirectWealth, EatingGod, HurtingOfficer, DirectWealth, SevenKillings, DirectOfficer, IndirectWealth, IndirectSeal], // 甲
      [IndirectSeal, IndirectWealth, RobWealth, Friend, DirectWealth, HurtingOfficer, EatingGod, IndirectWealth, DirectOfficer, SevenKillings, DirectWealth, DirectSeal], // 乙
      [DirectOfficer, HurtingOfficer, IndirectSeal, DirectSeal, EatingGod, Friend, RobWealth, HurtingOfficer, IndirectWealth, DirectWealth, EatingGod, SevenKillings], // 丙
      [SevenKillings, EatingGod, DirectSeal, IndirectSeal, HurtingOfficer, RobWealth, Friend, EatingGod, DirectWealth, IndirectWealth, HurtingOfficer, DirectOfficer], // 丁
      [DirectWealth, RobWealth, SevenKillings, DirectOfficer, Friend, IndirectSeal, DirectSeal, RobWealth, EatingGod, HurtingOfficer, Friend, IndirectWealth], // 戊
      [IndirectWealth, Friend, DirectOfficer, SevenKillings, RobWealth, DirectSeal, IndirectSeal, Friend, HurtingOfficer, EatingGod, RobWealth, DirectWealth], // 己
      [HurtingOfficer, DirectSeal, IndirectWealth, DirectWealth, IndirectSeal, SevenKillings, DirectOfficer, DirectSeal, Friend, RobWealth, IndirectSeal, EatingGod], // 庚
      [EatingGod, IndirectSeal, DirectWealth, IndirectWealth, DirectSeal, DirectOfficer, SevenKillings, IndirectSeal, RobWealth, Friend, DirectSeal, HurtingOfficer], // 辛
      [RobWealth, DirectOfficer, EatingGod, HurtingOfficer, SevenKillings, IndirectWealth, DirectWealth, DirectOfficer, IndirectSeal, DirectSeal, SevenKillings, Friend], // 壬
      [Friend, SevenKillings, HurtingOfficer, EatingGod, DirectOfficer, DirectWealth, IndirectWealth, SevenKillings, DirectSeal, IndirectSeal, DirectOfficer, RobWealth]  // 癸
    ]

  function ShiShenZhiGod(d: Stem, z: Branch): TenGod
  {
    ShiShenZhiRows[d][z]
  }

  /** SHI_SHEN_ZHI.get(key): one key per stem glyph followed by a branch
      glyph, 120 in all, each valued by a label SHI_SHEN_SIMPLIFIE knows. */
  function ShiShenZhi(key: string): (r: Option<string>)
    ensures r.Some? <==> |key| == 2 && key[0] in TG && key[1] in DZ
    ensures r.Some? ==> Simplifie(r.value).Some?
  {
    if |key| == 2 && StemOf(key[0]).Some? && BranchOf(key[1]).Some? then
      var g := ShiShenZhiGod(StemOf(key[0]).value, BranchOf(key[1]).value);
      LabelRoundTrip(g);
      Some(Label(g))
    else None
  }

  /** The entry for a stem and a branch. */
  lemma ShiShenZhiOfPillar(d: Stem, z: Branch)
    ensures ShiShenZhi([TG[d], DZ[z]]) == Some(Label(ShiShenZhiGod(d, z)))
  {
    GlyphRoundTrip();
  }

  /** CHANG_SHENG_OFFSET: where each stem's twelve-stage count starts. */
  function ChangShengOffset(d: Stem): (o: nat)
    ensures o < 12
  {
    match d
    case 0 => 1   // 甲
    case 1 => 6   // 乙
    case 2 => 10  // 丙
    case 3 => 9   // 丁
    case 4 => 10  // 戊
    case 5 => 9   // 己
    case 6 => 7   // 庚
    case 7 => 0   // 辛
    case 8 => 4   // 壬
    case 9 => 3   // 癸
  }

  /** BaziRequest's fields. The gender is optional; None is a value the
      model accepts like the source does. */
  datatype BaziRequest = BaziRequest(
    name: string, city: string, gender: Option<string>,
    year: int, month: int, day: int, hour: int, minute: int)

  /** The conint bounds of BaziRequest. */
  predicate InBounds(year: int, month: int, day: int, hour: int, minute: int)
  {
    1900 <= year <= 2100 && 1 <= month <= 12 && 1 <= day <= 31 && 0 <= hour <= 23 && 0 <= minute <= 59
  }

  /** Validation: a request is built exactly when every field is in bounds,
      and then it holds the given fields. */
  function NewBaziRequest(name: string, city: string, gender: Option<string>,
                          year: int, month: int, day: int, hour: int, minute: int): (r: Option<BaziRequest>)
    ensures r.Some? <==> InBounds(year, month, day, hour, minute)
    ensures r.Some? ==> r.value == BaziRequest(name, city, gender, year, month, day, hour, minute)
  {
    if InBounds(year, month, day, hour, minute) then
      Some(BaziRequest(name, city, gender, year, month, day, hour, minute))
    else None
  }

  /** The defaults: gender 男 and minute 0. */
  function DefaultBaziRequest(name: string, city: string, year: int, month: int, day: int, hour: int): Option<BaziRequest>
  {
    NewBaziRequest(name, city, Some("男"), year, month, day, hour, 0)
  }

  /** With the defaults only year, month, day and hour can be rejected, and
      an accepted request has minute 0 and gender 男. */
  lemma DefaultBaziRequestFields(name: string, city: string, year: int, month: int, day: int, hour: int)
    ensures DefaultBaziRequest(name, city, year, month, day, hour).Some?
        <==> 1900 <= year <= 2100 && 1 <= month <= 12 && 1 <= day <= 31 && 0 <= hour <= 23
    ensures DefaultBaziRequest(name, city, year, month, day, hour).Some? ==>
        DefaultBaziRequest(name, city, year, month, day, hour).value.minute == 0 &&
        DefaultBaziRequest(name, city, year, month, day, hour).value.gender == Some("男")
  {
  }

  /** The records of the fortune lists. */
  datatype DayunItem = DayunItem(startYear: int, startAge: int, pillar: string, shishen: string)
  datatype YearItem = YearItem(year: int, pillar: string, age: int, shishen: string)
  datatype MonthItem = MonthItem(year: int, jieqi: string, date: string, nextJieqiDate: string, pillar: string, shishen: string)
  datatype DayItem = DayItem(date: string, nongli: string, top: string, bottom: string, pillar: string, shishen: string)
  datatype TimeItem = TimeItem(top: string, bottom: string, pillar: string, time: string, shishen: string)

  /** TendData: the five fortune lists and the selected index in each.
      skip_to_current_time updates it in place. */
  class TendData {
    var dayunList: seq<DayunItem>
    var yearList: seq<YearItem>
    var monthList: seq<MonthItem>
    var dayList: seq<DayItem>
    var timeList: seq<TimeItem>
    var currentIndex: int
    var yearIndex: int
    var monthIndex: int
    var dayIndex: int
    var timeIndex: int

    /** The field defaults: every list empty and every index 0. */
    constructor ()
      ensures dayunList == [] && yearList == [] && monthList == [] && dayList == [] && timeList == []
      ensures currentIndex == 0 && yearIndex == 0 && monthIndex == 0 && dayIndex == 0 && timeIndex == 0
    {
      dayunList, yearList, monthList, dayList, timeList := [], [], [], [], [];
      currentIndex, yearIndex, monthIndex, dayIndex, timeIndex := 0, 0, 0, 0, 0;
    }

    /** Construction from given lists, the indices left at their defaults. */
    constructor WithLists(dayuns: seq<DayunItem>, years: seq<YearItem>, months: seq<MonthItem>,
                          days: seq<DayItem>, times: seq<TimeItem>)
      ensures dayunList == dayuns && yearList == years && monthList == months && dayList == days && timeList == times
      ensures currentIndex == 0 && yearIndex == 0 && monthIndex == 0 && dayIndex == 0 && timeIndex == 0
    {
      dayunList, yearList, monthList, dayList, timeList := dayuns, years, months, days, times;
      currentIndex, yearIndex, monthIndex, dayIndex, timeIndex := 0, 0, 0, 0, 0;
    }
  }
}
