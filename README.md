# BaZi rule engine in Dafny

This project models the symbolic core of a BaZi (four pillars) fortune
service. It covers the ten heavenly stems, the twelve earthly branches, the
five elements and the sixty-term sexagenary cycle. On top of these it models
the rule tables and loops of the service's calculators:

- the ten gods (the relation of a day stem to another stem or branch);
- hidden stems and their weights;
- elemental strength scoring;
- na-yin and void (空亡) lookups;
- the branch relations (six-combination, tri-union, clash, punishment,
  harm, break) and the shen-sha markers;
- decade-fortune (大运), year and month pillar lists and the search for the
  current decade;
- the simplified date-to-pillar arithmetic, zodiac and western signs;
- the tai-yuan offset, element counts and the text helpers of the two
  calculator front ends.

Stems are the integers 0..9 (甲..癸) and branches 0..11 (子..亥). A pillar is
a pair of them, and it lies on the cycle exactly when both have the same
parity. Each source file has its own module:

| module | models |
|---|---|
| `Sexagenary` | shared glyphs, elements, polarity, `Option`, pillars and the cycle |
| `DataModels` | `data_models.py`: constant tables, request and list records, `TendData` |
| `BaziCore`, `BaziStrength`, `BaziShensha`, `BaziRelations`, `BaziCycle`, `BaziDaYun` | `bazi_core.py`, split by topic |
| `PairScans` | the generic "every index pair i < j" scan used by the branch relations |
| `ShishenCalculator` | `shishen_calculator.py` |
| `DayunCalculator` | `dayun_calculator.py` |
| `LunarCalculator` | `lunar_calculator.py` |
| `BaziCalculatorNew` | the pure helpers of `bazi_calculator_new.py` |
| `BaziCalculator` | the pure parts of `bazi_calculator.py` |
| `Agreement` | lemmas about where the reimplementations agree and where they differ |

Where the source works on Python strings (dictionary keys such as `"甲子"`,
the `"未知"` and `""` fallbacks), the model keeps strings at that boundary,
so the fallback paths are part of it. Python's `%` with a positive modulus
never returns a negative value, like Dafny's. Code that loops or updates
state is modelled as a `method` with loop invariants, proved against a
specification function. `TendData`, which `skip_to_current_time` changes in
place, is a class.

The reimplementations are modelled as written, without unifying them. The
`Agreement` module states their differences as lemmas:

- the derived stem table swaps 正印 and 偏印 against the literal tables;
- the lunar na-yin table lacks the last ten pillars of the cycle;
- the lunar void lookup gives 甲申 the void branches of 甲子's decade;
- the two decade generators differ by one step;
- the two month-pillar formulas give different stems;
- the two western-sign functions differ on three dates;
- the hidden-stem lists of 丑 and 巳 come in a different order.

## Model

| member | source | states |
|---|---|---|
| Sexagenary.StemOf | bazi-api/app/bazi_core.py:12 | a glyph has a stem index iff it is in TG, and TG at that index is the glyph |
| Sexagenary.BranchOf | bazi-api/app/bazi_core.py:13 | a glyph has a branch index iff it is in DZ, and DZ at that index is the glyph |
| Sexagenary.StemText | bazi-api/app/data_models.py:220 | a string names a stem iff it is one glyph of TG, and then it is that stem's glyph |
| Sexagenary.BranchText | bazi-api/app/data_models.py:221 | a string names a branch iff it is one glyph of DZ, and then it is that branch's glyph |
| Sexagenary.GlyphRoundTrip | bazi-api/app/bazi_core.py:12-13 | TG has 10 distinct glyphs and DZ has 12; glyph to index and back is the identity |
| Sexagenary.GlyphsDisjoint | bazi-api/app/bazi_core.py:12-13 | no stem glyph is a branch glyph and no branch glyph is a stem glyph |
| Sexagenary.ConquestIsTwoGenerations | bazi-api/app/bazi_core.py:129-135 | the element an element conquers is the one two generation steps ahead |
| Sexagenary.FourRelationsPartition | bazi-api/app/shishen_calculator.py:40-41 | for two distinct elements exactly one of the four generation/conquest tests holds |
| Sexagenary.Kin | bazi-api/app/shishen_calculator.py:52-85 | the kinship of two elements is Peer, Feeds, FedBy, Controls or ControlledBy exactly when the matching generation/conquest test holds |
| Sexagenary.KinInjective | bazi-api/app/shishen_calculator.py:52-85 | the kinship to a fixed element determines the other element |
| Sexagenary.StemElementPairs | bazi-api/app/bazi_core.py:14 | two stems share an element iff they sit in the same consecutive pair |
| Sexagenary.CyclePillar | bazi-api/app/bazi_core.py:138-154 | cycle position i is the pillar (i mod 10, i mod 12), which is always valid |
| Sexagenary.CycleIndex | bazi-api/app/bazi_core.py:138-154 | every valid pillar has a position below 60 on the cycle |
| Sexagenary.CycleRoundTrip | bazi-api/app/bazi_core.py:138-154 | position to pillar and back gives the position mod 60 |
| Sexagenary.CongruentBelowSixty | bazi-api/app/bazi_core.py:138-154 | two positions below 60 with the same residues mod 10 and mod 12 are equal |
| Sexagenary.ValidIffOnCycle | bazi-api/app/bazi_core.py:138-154 | a pillar has equal stem and branch parity iff it is one of the sixty cycle pillars |
| Sexagenary.CycleSixty | bazi-api/app/lunar_calculator.py:57-69 | the cycle has period 60 |
| Sexagenary.VoidOfCycle | bazi-api/app/bazi_core.py:157-193 | the void branches of position i are 10 − 2·(i div 10) and 11 − 2·(i div 10) |
| Sexagenary.PillarText | bazi-api/app/bazi_core.py:489 | a pillar's text is two glyphs: its stem, then its branch |
| Sexagenary.ParsePillar | bazi-api/app/bazi_core.py:480-484 | a string parses iff its first two glyphs are a stem and a branch, and it then re-prints as those two glyphs |
| Sexagenary.PillarTextRoundTrip | bazi-api/app/bazi_core.py:480-489 | printing a pillar and parsing it gives the pillar back |
| DataModels.GodOfLabel | bazi-api/app/data_models.py:186-189 | a label that decodes to a ten god is that god's label |
| DataModels.LabelRoundTrip | bazi-api/app/data_models.py:186-189 | every ten god's label decodes back to it |
| DataModels.Simplifie | bazi-api/app/data_models.py:186-189 | SHI_SHEN_SIMPLIFIE has exactly the ten labels as keys |
| DataModels.SimplifieInjective | bazi-api/app/data_models.py:186-189 | two labels with the same abbreviation are equal, and every abbreviation is one glyph |
| DataModels.AbbrevInjective | bazi-api/app/data_models.py:186-189 | the ten abbreviations are distinct |
| DataModels.SimplifieOfLabel | bazi-api/app/data_models.py:186-189 | each label abbreviates to its god's glyph |
| DataModels.StemsListed | bazi-api/app/data_models.py:220 | TIAN_GAN lists the ten stem glyphs in order, and a string is in it iff it names a stem |
| DataModels.BranchesListed | bazi-api/app/data_models.py:221 | DI_ZHI lists the twelve branch glyphs in order, and a string is in it iff it names a branch |
| DataModels.TianGanDiZhi | bazi-api/app/data_models.py:220-221 | both lists at once, as the relation lookup uses them |
| DataModels.ShiShenZhi | bazi-api/app/data_models.py:162-183 | SHI_SHEN_ZHI has a key for exactly the 120 stem+branch strings, and every value is a key of SHI_SHEN_SIMPLIFIE |
| DataModels.ShiShenZhiOfPillar | bazi-api/app/data_models.py:162-183 | the entry for stem d and branch z is the label of the table's god at (d, z) |
| DataModels.ChangShengOffset | bazi-api/app/data_models.py:192-195 | every stem has an offset, and it is below 12 |
| DataModels.NewBaziRequest | bazi-api/app/data_models.py:10-19 | a request exists iff year 1900..2100, month 1..12, day 1..31, hour 0..23 and minute 0..59, and it then holds the given fields |
| DataModels.DefaultBaziRequestFields | bazi-api/app/data_models.py:10-19 | without a minute and gender, the bounds are those of year, month, day and hour; the minute is then 0 and the gender 男 |
| DataModels.TendData.constructor | bazi-api/app/data_models.py:120-131 | a new TendData has its five lists empty and its five indices 0 |
| DataModels.TendData.WithLists | bazi-api/app/data_models.py:120-131 | a TendData built from five lists holds them, with all five indices 0 |
| BaziCore.HiddenStemsShape | bazi-api/app/bazi_core.py:20-33 | every branch's hidden-stem weights sum to 8 and do not increase, and the first weight is strictly the largest |
| BaziCore.MaxByWeight | bazi-api/app/bazi_core.py:344 | the chosen hidden stem is in the list with the largest weight, and no earlier entry has that weight |
| BaziCore.MaxIsFirst | bazi-api/app/bazi_core.py:344 | with a strictly largest first weight, the choice is the first entry |
| BaziCore.DeityRow | bazi-api/app/bazi_core.py:39-120 | each stem's ten-gods row has ten glyphs |
| BaziCore.StageRow | bazi-api/app/bazi_core.py:39-120 | each stem's twelve-stages row has twelve glyphs |
| BaziCore.DeityRowRule | bazi-api/app/bazi_core.py:39-120 | glyph t of row d is fixed by the elements' kinship and whether the two stems share polarity |
| BaziCore.SpecialKeyElements | bazi-api/app/bazi_core.py:39-120 | the 本/生/克/生我/被克 entries name the day element, the one it generates, the one it conquers and the ones acting on it |
| BaziCore.SpecialKeyStems | bazi-api/app/bazi_core.py:39-120 | 合 is the stem five ahead; 冲 is the stem six away, and 戊 and 己 map 冲 to "" |
| BaziCore.DeityRowInjective | bazi-api/app/bazi_core.py:39-120 | within one row, different target stems get different glyphs |
| BaziCore.TenDeities | bazi-api/app/bazi_core.py:39-120 | a stem or branch key always has a one-glyph entry, and no entry is longer than two glyphs |
| BaziCore.SpecialKey | bazi-api/app/bazi_core.py:39-120 | each of the eight named keys has an entry of at most two glyphs (库 entries are a branch glyph and _) |
| BaziCore.TenShenOfClash | bazi-api/app/bazi_core.py:333-334 | 冲 is a key of every row: the stem six away, and "" (not 未知) for 戊 and 己 |
| BaziCore.KinGlyphInjective | bazi-api/app/bazi_core.py:39-120 | the glyph determines the kinship and the polarity match |
| BaziCore.TenShen | bazi-api/app/bazi_core.py:327-336 | an unknown day stem gives 未知 |
| BaziCore.TenShenOfStems | bazi-api/app/bazi_core.py:327-336 | for two stems the result is the rule's glyph; d on d gives 比; every result is one of 比劫食伤才财杀官枭印 |
| BaziCore.TenShenUnknownTarget | bazi-api/app/bazi_core.py:327-336 | a target that is neither a stem, a branch nor a special key gives 未知 |
| BaziCore.TenShenDz | bazi-api/app/bazi_core.py:338-346 | a target that is not a branch gives 未知 |
| BaziCore.TenShenDzIsMainQi | bazi-api/app/bazi_core.py:338-346 | a branch's relation is ten_shen of its first-listed hidden stem |
| BaziStrength.StrengthLevel | bazi-api/app/bazi_core.py:367-375 | 强 iff day score over total exceeds 1/4; 中等 iff it is at most 1/4 and above 0.18; 弱 otherwise or for total 0 |
| BaziStrength.StemScoresTotal | bazi-api/app/bazi_core.py:353-355 | the stem scores of all five elements add up to 5 per stem |
| BaziStrength.HiddenScoresTotal | bazi-api/app/bazi_core.py:359-360 | the scores from a hidden-stem list add up to its weight sum |
| BaziStrength.BranchScoresTotal | bazi-api/app/bazi_core.py:357-360 | the branch scores add up to 8 per branch |
| BaziStrength.ScoresTotal | bazi-api/app/bazi_core.py:351-367 | the five scores add up to 5·\|gans\| + 8·\|zhis\| |
| BaziStrength.ChartTotal | bazi-api/app/bazi_core.py:351-367 | for four stems and four branches the total is 52 |
| BaziStrength.CalculateWuXingStrength | bazi-api/app/bazi_core.py:349-383 | the scores map holds the score of each element; the day element, day score and level follow from them and the total |
| BaziStrength.ScoreStems | bazi-api/app/bazi_core.py:353-355 | the stem loop leaves the stem score of every element |
| BaziStrength.ScoreBranches | bazi-api/app/bazi_core.py:357-360 | the branch loop adds each branch's hidden-stem weights |
| BaziStrength.AddHiddenStems | bazi-api/app/bazi_core.py:359-360 | the inner loop adds one branch's weights to each element |
| BaziShensha.ShenshaNamesDistinct | bazi-api/app/bazi_core.py:386-423 | the six marker names are distinct |
| BaziShensha.YearMarkersByGroup | bazi-api/app/bazi_core.py:227-240 | 将星, 华盖, 驿马 and 桃花 depend only on the branch's tri-union group |
| BaziShensha.CalculateShensha | bazi-api/app/bazi_core.py:386-423 | 天乙贵人 iff some branch is in the day stem's 天乙 list; 文昌 iff its branch is present; the other four are keyed on zhis[0] only |
| BaziShensha.NobleHits | bazi-api/app/bazi_core.py:391-395 | the nested loop adds only 天乙贵人, and adds it iff some branch is in the list |
| BaziRelations.TriUnionGroup | bazi-api/app/bazi_core.py:212 | each tri-union group has three branches |
| BaziRelations.RelationTexts | bazi-api/app/bazi_core.py:426-462 | one text per relation, in order |
| BaziRelations.CalculateZhiRelations | bazi-api/app/bazi_core.py:426-462 | the result is the texts of the scan over every index pair i < j, then the complete tri-unions |
| BaziRelations.ScanRow | bazi-api/app/bazi_core.py:431-455 | the inner loop over j > i gives that row of the pair scan |
| BaziRelations.BranchTablesSymmetric | bazi-api/app/bazi_core.py:196-209 | 冲, 害 and 破 are symmetric, and 冲 is six places on |
| BaziRelations.AttsInvolutions | bazi-api/app/bazi_core.py:196-209 | 冲, 害 and 破 applied twice give the branch back |
| BaziRelations.PairRelationsMembers | bazi-api/app/bazi_core.py:435-455 | one pair of branches reports exactly the relations its tables name |
| BaziRelations.TriUnionsBeforeMembers | bazi-api/app/bazi_core.py:458-460 | the first n groups report exactly those whose three members are all present |
| BaziRelations.ZhiRelationsMembers | bazi-api/app/bazi_core.py:426-462 | a tri-union is reported iff all three members are present; any other relation iff some pair i < j reports it |
| BaziRelations.PunishmentIsOneSided | bazi-api/app/bazi_core.py:446-447 | [丑, 戌] reports 丑戌相刑, and [戌, 丑] reports no punishment |
| BaziRelations.SixCombinationEitherOrder | bazi-api/app/bazi_core.py:436-439 | a six-combination is reported in either order of its two branches |
| BaziRelations.ClashMembers | bazi-api/app/bazi_core.py:442-443 | a clash of a and b is reported iff a comes before b and they are six places apart |
| BaziRelations.ClashSixApart | bazi-api/app/bazi_core.py:196-209 | b is a's clash partner iff it is six places on |
| BaziRelations.RelationTextsMember | bazi-api/app/bazi_core.py:426-462 | every reported relation appears among the texts |
| BaziRelations.TriUnionTexts | bazi-api/app/bazi_core.py:212 | the four tri-union texts are 申子辰三合水, 巳酉丑三合金, 寅午戌三合火 and 亥卯未三合木 |
| BaziRelations.TriUnionExample | bazi-api/app/bazi_core.py:458-460 | 申, 子, 辰 reports 申子辰三合水 |
| PairScans.PairScanMembers | bazi-api/app/bazi_core.py:430-439 | the scan reports r iff some index pair i < j reports it |
| BaziCycle.NaYinByCycle | bazi-api/app/bazi_core.py:138-154 | cycle position i has the na-yin name number i div 2 |
| BaziCycle.NaYinKeys | bazi-api/app/bazi_core.py:138-154 | NAYINS has a key for a pair iff the pair is valid, and no value is 未知 |
| BaziCycle.CalculateNaYin | bazi-api/app/bazi_core.py:465-468 | the result is not 未知 iff the text is a valid pillar, and it is then the name of its cycle position |
| BaziCycle.NaYinExamples | bazi-api/app/bazi_core.py:465-468 | 丙子 is 涧下水 and 甲丑 is 未知 |
| BaziCycle.EmptyByCycle | bazi-api/app/bazi_core.py:157-193 | position i's void pair depends only on i div 10 and is the pair its decade leaves out |
| BaziCycle.EmptyKeys | bazi-api/app/bazi_core.py:157-193 | EMPTIES has a key iff the pair is valid, and its value is the pillar's void pair |
| BaziCycle.CalculateEmpty | bazi-api/app/bazi_core.py:471-475 | a string key gives [], and a (stem, branch) key gives the void pair of a valid pillar and [] otherwise |
| BaziCycle.CalculateEmptyOfPillar | bazi-api/app/bazi_core.py:471-475 | a pillar text gives a non-empty result iff it is valid, and it is then the pillar's void pair |
| BaziCycle.EmptyOfPillarStringIsLost | bazi-api/app/bazi_core.py:586-589 | called with 甲子 as a string, the lookup gives [] instead of [戌, 亥] |
| BaziCycle.NextPillar | bazi-api/app/bazi_core.py:485-489 | the stem moves by direction mod 10 and the branch by direction mod 12 |
| BaziCycle.GetNextGanZhi | bazi-api/app/bazi_core.py:478-489 | the result parses as the next pillar of the parsed input |
| BaziCycle.NextPillarAdds | bazi-api/app/bazi_core.py:478-489 | stepping by a and then by b steps by a + b |
| BaziCycle.NextPillarInverse | bazi-api/app/bazi_core.py:478-489 | stepping by d and then by −d is the identity |
| BaziCycle.NextPillarOnCycle | bazi-api/app/bazi_core.py:478-489 | stepping moves along the cycle by the direction |
| BaziCycle.NextPillarValid | bazi-api/app/bazi_core.py:478-489 | stepping keeps a pillar valid |
| BaziCycle.SteppedOffset | bazi-api/app/bazi_core.py:510-514 | n repeated steps equal one step by n·direction, and keep validity |
| BaziCycle.TaiYuan | bazi-api/app/bazi_core.py:563 | the tai-yuan is the month stem plus 1 and the month branch plus 3 |
| BaziCycle.TaiYuanText | bazi-api/app/bazi_core.py:563 | the tai-yuan text parses as the tai-yuan of the month pillar |
| BaziCycle.TaiYuanOnCycle | bazi-api/app/bazi_core.py:563 | the tai-yuan is 51 places on along the cycle |
| BaziCycle.TaiYuanValid | bazi-api/app/bazi_core.py:563 | a valid month pillar gives a valid tai-yuan |
| BaziDaYun.DaYunDirection | bazi-api/app/bazi_core.py:493-501 | the direction is +1 or −1 |
| BaziDaYun.DaYunDirectionFlips | bazi-api/app/bazi_core.py:493-501 | the two genders go opposite ways, the next year flips the direction, and a man goes forward iff (year − 4) is even |
| BaziDaYun.YearStemSteps | bazi-api/app/bazi_core.py:494-495 | the year stem advances by one per year and is yang iff (year − 4) is even |
| BaziDaYun.DaYunDirectionOtherGender | bazi-api/app/bazi_core.py:498-501 | a gender other than 男 or 女 goes backward |
| BaziDaYun.CalcDaYun | bazi-api/app/bazi_core.py:491-530 | ten steps, step i being the month pillar advanced i + 1 times with its age label and relations; mode and start age as the direction gives |
| BaziDaYun.DecadePillars | bazi-api/app/bazi_core.py:510-514 | the loop's pillars are the month pillar advanced 1..10 times |
| BaziDaYun.DecadeOffset | bazi-api/app/bazi_core.py:510-514 | step i is the month pillar moved by (i + 1)·direction, and stays valid |
| BaziDaYun.DecadeOnCycle | bazi-api/app/bazi_core.py:510-514 | step i is (i + 1)·direction places along the cycle from the month pillar |
| BaziDaYun.AgeLabelExamples | bazi-api/app/bazi_core.py:516-521 | the first two age labels are 8-17岁 and 18-27岁 |
| ShishenCalculator.DerivedByKin | bazi-api/app/shishen_calculator.py:52-85 | the derived god is set by kinship and polarity match, so the 未知 branch is never taken |
| ShishenCalculator.DerivedPeers | bazi-api/app/shishen_calculator.py:52-59 | 比肩 iff the stems are equal; 劫财 iff they differ but share an element |
| ShishenCalculator.DerivedSwap | bazi-api/app/shishen_calculator.py:52-83 | swapping the two stems maps 食伤 to the seals and 财 to 杀官, and swapping twice gives the god back |
| ShishenCalculator.ShiShenGan | bazi-api/app/shishen_calculator.py:43-50 | the table has a key for exactly the 100 two-stem strings |
| ShishenCalculator.GenerateShiShenGan | bazi-api/app/shishen_calculator.py:19-87 | the nested loops fill exactly the 100 keys, each with the derived label |
| ShishenCalculator.GetRelation | bazi-api/app/shishen_calculator.py:89-97 | an unknown day stem, or a target that is neither a stem nor a branch, gives "" |
| ShishenCalculator.GetRelationOfStems | bazi-api/app/shishen_calculator.py:89-97 | a stem target gets the derived label |
| ShishenCalculator.GetRelationOfBranch | bazi-api/app/shishen_calculator.py:89-97 | a branch target gets the SHI_SHEN_ZHI label |
| ShishenCalculator.GetRelationByPillar | bazi-api/app/shishen_calculator.py:99-113 | input shorter than 2 gives "" |
| ShishenCalculator.GetRelationByPillarUnknownDay | bazi-api/app/shishen_calculator.py:99-113 | an unknown day stem gives "" for anything but 童限 |
| ShishenCalculator.GetRelationByPillarChildhood | bazi-api/app/shishen_calculator.py:101-102 | 童限 is returned unchanged |
| ShishenCalculator.GetRelationByPillarOfPillar | bazi-api/app/shishen_calculator.py:99-113 | a pillar gives the abbreviation of its stem relation followed by that of its branch relation |
| ShishenCalculator.GetSimplifiedRelation | bazi-api/app/shishen_calculator.py:115-117 | a label gets its abbreviation, and anything else is returned unchanged |
| ShishenCalculator.GetSimplifiedRelationIdempotent | bazi-api/app/shishen_calculator.py:115-117 | simplifying twice is simplifying once |
| ShishenCalculator.LabelLength | bazi-api/app/data_models.py:186-189 | every label has two glyphs |
| DayunCalculator.SeedPillar | bazi-api/app/dayun_calculator.py:37-40 | the seed is (m mod 10, m mod 12) for m = (year − 1984)·12 + month − 1, and is valid |
| DayunCalculator.SeedPillarNextYear | bazi-api/app/dayun_calculator.py:37-40 | a year later the seed keeps its branch and its stem moves two on |
| DayunCalculator.DayunDirection | bazi-api/app/dayun_calculator.py:43-51 | the direction is +1 or −1 |
| DayunCalculator.DayunDirectionCases | bazi-api/app/dayun_calculator.py:43-51 | gender 1 goes forward iff the year is even, gender 2 goes the other way, the next year flips it, and any other gender goes backward |
| DayunCalculator.YearParity | bazi-api/app/dayun_calculator.py:43-45 | the stem index (year − 1984) mod 10 has the parity of the year |
| DayunCalculator.GenerateDayunList | bazi-api/app/dayun_calculator.py:77-110 | the loop builds the eight-item decade list |
| DayunCalculator.DecadeOfLoop | bazi-api/app/dayun_calculator.py:88-104 | pass i of the loop, on indices i steps from the seed, builds decade i of the list; the 童限 arm is never taken since the start age is 8 |
| DayunCalculator.DayunItemAt | bazi-api/app/dayun_calculator.py:88-104 | a decade's start year minus its start age is the birth year, and its pillar text parses back to the seed moved i steps |
| DayunCalculator.DayunList | bazi-api/app/dayun_calculator.py:84-108 | eight decades, each starting ten years of age after the one before |
| DayunCalculator.DayunListFacts | bazi-api/app/dayun_calculator.py:84-108 | item i starts at age 8 + 10i and year birthYear + 8 + 10i, holds the seed moved i·direction, item 0 holds the seed, and items are ten years apart |
| DayunCalculator.DayunListOnCycle | bazi-api/app/dayun_calculator.py:90-108 | item i is i·direction places along the cycle from the seed |
| DayunCalculator.SteppedOnCycle | bazi-api/app/dayun_calculator.py:105-108 | i steps move i·direction places along the cycle |
| DayunCalculator.DayunListRelation | bazi-api/app/dayun_calculator.py:96-97 | item i's short code is the stem and branch abbreviations of its pillar |
| DayunCalculator.YearsOfDecade | bazi-api/app/dayun_calculator.py:121-136 | the loop builds ten years, year k being the start year plus k |
| DayunCalculator.YearItemAt | bazi-api/app/dayun_calculator.py:121-136 | year and age advance together from the decade's start, and the pillar is the year's pillar |
| DayunCalculator.YearPillar | bazi-api/app/dayun_calculator.py:123-128 | the text parses back to position year − 1984 of the cycle |
| DayunCalculator.YearList | bazi-api/app/dayun_calculator.py:121-136 | ten years, each one year and one year of age after the one before |
| DayunCalculator.GenerateYearList | bazi-api/app/dayun_calculator.py:112-138 | no decades give no years; otherwise the first decade's ten years |
| DayunCalculator.YearListFacts | bazi-api/app/dayun_calculator.py:121-136 | year k is start + k with age start age + k and pillar at position year − 1984 of the cycle, so the next year is the next position, one step forward |
| DayunCalculator.GenerateMonthList | bazi-api/app/dayun_calculator.py:140-172 | no years give no months; otherwise the twelve months of the first year |
| DayunCalculator.MonthOfLoop | bazi-api/app/dayun_calculator.py:150-170 | pass m of the loop builds month m of the list: the month pillar, its relation, jieqi_map[m] and the two dates |
| DayunCalculator.MonthItemAt | bazi-api/app/dayun_calculator.py:150-170 | month m belongs to the given year and its pillar text parses back to the month pillar |
| DayunCalculator.MonthList | bazi-api/app/dayun_calculator.py:150-170 | twelve months of the given year, month m carrying month pillar m |
| DayunCalculator.MonthPillarOfLoop | bazi-api/app/dayun_calculator.py:152-153 | the indices (year·12 + m) mod 10 and m mod 12 are the stem and branch of the month pillar |
| DayunCalculator.MonthListFacts | bazi-api/app/dayun_calculator.py:150-170 | each month's next date is the following month's date; jieqi, year and pillar as given |
| DayunCalculator.MonthPillarFacts | bazi-api/app/dayun_calculator.py:152-153 | every month pillar is valid, and within a year each month steps one forward |
| DayunCalculator.CalculateDayun | bazi-api/app/dayun_calculator.py:30-75 | a fresh TendData with the decade, year and month lists of the formulas, empty day and time lists and all indices 0 |
| DayunCalculator.FirstDecadeFrom | bazi-api/app/dayun_calculator.py:182-186 | the search finds the first decade from k containing the year, or None iff none does |
| DayunCalculator.FirstDecadeOfList | bazi-api/app/dayun_calculator.py:182-186 | for the generated list the current decade is (year − birthYear − 8) div 10 when the year lies in the 80 years covered, and none otherwise |
| DayunCalculator.FirstDecadeOfSpaced | bazi-api/app/dayun_calculator.py:182-186 | eight decades ten years apart from a base: the year's decade is (year − base) div 10 within 80 years, else none |
| DayunCalculator.SkipToCurrentTime | bazi-api/app/dayun_calculator.py:174-215 | with a matching decade: currentIndex is the first one, yearList is rebuilt for it and yearIndex points at the year; without one nothing changes; other fields never change |
| DayunCalculator.FirstDecadeIs | bazi-api/app/dayun_calculator.py:182-186 | a containing decade with none before it is the one found |
| LunarCalculator.GetGanZhiFromDate | bazi-api/app/lunar_calculator.py:51-79 | all four pillars are valid, and the hour branch is the hour's index |
| LunarCalculator.TimeStemParity | bazi-api/app/lunar_calculator.py:72-77 | the time stem has the parity of the hour branch |
| LunarCalculator.DatePillarCycle | bazi-api/app/lunar_calculator.py:57-69 | 1984-01-01 is 甲子 throughout; year and day pillars repeat every 60 and step one forward per year and per day |
| LunarCalculator.CycleNext | bazi-api/app/lunar_calculator.py:57-69 | one place on along the cycle is one step forward |
| LunarCalculator.HourFacts | bazi-api/app/lunar_calculator.py:72-77 | hours 23 and 0 are 子 and no others; hour h < 23 has index (h + 1) div 2; the 子 hour's stem is twice the day stem mod 10; the time pillar repeats every five days |
| LunarCalculator.GetZodiac | bazi-api/app/lunar_calculator.py:81-83 | the result is one of the twelve animals |
| LunarCalculator.ZodiacFacts | bazi-api/app/lunar_calculator.py:81-83 | the zodiac has period 12 and is the animal of the year pillar's branch |
| LunarCalculator.ConstellationOf | bazi-api/app/lunar_calculator.py:85-96 | the result is one of the twelve sign names |
| LunarCalculator.ConstellationIndex | bazi-api/app/lunar_calculator.py:85-96 | the index is in 0..11 |
| LunarCalculator.GetConstellation | bazi-api/app/lunar_calculator.py:85-96 | the loop with its early return gives the sign of the date |
| LunarCalculator.ConstellationExamples | bazi-api/app/lunar_calculator.py:85-96 | 1/19 摩羯, 1/20 水瓶, 3/21 白羊, 12/22 摩羯, and months 13 and 0 摩羯 |
| LunarCalculator.GetNayin | bazi-api/app/lunar_calculator.py:98-100 | a glyph that is not a stem or a branch gives 未知; otherwise the table value or 未知 |
| LunarCalculator.GetNayinExamples | bazi-api/app/lunar_calculator.py:29-43 | 甲子 海中金, 癸丑 桑柘木, 甲寅 未知, 甲丑 未知, and a two-glyph stem argument 未知 |
| LunarCalculator.XunStart | bazi-api/app/lunar_calculator.py:109-110 | the decade start is a multiple of ten from 0 to 50 |
| LunarCalculator.GetEmpty | bazi-api/app/lunar_calculator.py:102-112 | a result exists iff both glyphs are known, and it is never the ("", "") fallback |
| LunarCalculator.EmptyMapIsVoid | bazi-api/app/lunar_calculator.py:46-49 | each decade start maps to the two branches that decade leaves out |
| LunarCalculator.GetEmptyOfJiaShen | bazi-api/app/lunar_calculator.py:102-112 | 甲子 and 甲申 both give (戌, 亥), although 甲申 is position 20 and its void is (午, 未) |
| LunarCalculator.XunStartOfCycle | bazi-api/app/lunar_calculator.py:109-110 | the decade start from the cycle position is a multiple of ten from 0 to 50 |
| LunarCalculator.XunStartOfCycleIsVoid | bazi-api/app/lunar_calculator.py:46-49 | with that start, empty_map gives the pillar's void branches |
| LunarCalculator.GetEmptyByCycle | bazi-api/app/lunar_calculator.py:102-112 | the corrected lookup gives a result iff the glyphs form a valid pillar, and then its void branches |
| LunarCalculator.GetEmptyByCycleOfJiaShen | bazi-api/app/lunar_calculator.py:102-112 | corrected: 甲申 gives (午, 未) and 甲子 (戌, 亥) |
| BaziCalculatorNew.ShishenGanRule | bazi-api/app/bazi_calculator_new.py:217-275 | the literal table follows kinship and polarity, with a same-polarity generating stem 偏印 |
| BaziCalculatorNew.GetShishenGan | bazi-api/app/bazi_calculator_new.py:217-275 | 未知 iff the key is not two stem glyphs; otherwise the table's label |
| BaziCalculatorNew.LabelNotUnknown | bazi-api/app/bazi_calculator_new.py:217-275 | no table value is 未知 |
| BaziCalculatorNew.GetShishenGanOfStems | bazi-api/app/bazi_calculator_new.py:217-275 | two stems get the table's label |
| BaziCalculatorNew.GetShishenGanFriend | bazi-api/app/bazi_calculator_new.py:217-275 | 比肩 iff the two stems are equal |
| BaziCalculatorNew.GetShishenGanSeals | bazi-api/app/bazi_calculator_new.py:226 | 甲壬 is 偏印 and 甲癸 is 正印 |
| BaziCalculatorNew.HideGan | bazi-api/app/bazi_calculator_new.py:307-312 | every branch has one to three hidden stems |
| BaziCalculatorNew.HideGanMainElement | bazi-api/app/bazi_calculator_new.py:307-312 | the first hidden stem has the branch's element |
| BaziCalculatorNew.StemGlyphs | bazi-api/app/bazi_calculator_new.py:321-332 | one glyph per stem, in order |
| BaziCalculatorNew.GetHideGan | bazi-api/app/bazi_calculator_new.py:321-332 | an unknown branch gives []; a known one its one to three stem glyphs |
| BaziCalculatorNew.GetShishenZhi | bazi-api/app/bazi_calculator_new.py:302-319 | an unknown branch gives 未知; a known one the stem table at its first hidden stem |
| BaziCalculatorNew.GetShishenZhiOfBranch | bazi-api/app/bazi_calculator_new.py:302-319 | a branch gets the label of the day stem against its first hidden stem |
| BaziCalculatorNew.GetShishenByPillar | bazi-api/app/bazi_calculator_new.py:277-300 | 童限 unchanged; shorter than 2 gives 未知; otherwise the two simplified relations joined |
| BaziCalculatorNew.GetShishenByPillarOfPillar | bazi-api/app/bazi_calculator_new.py:277-300 | a pillar gives the abbreviations of its stem and branch relations |
| BaziCalculatorNew.GetShishenByPillarPassesUnknown | bazi-api/app/bazi_calculator_new.py:277-300 | an unknown branch glyph passes 未知 through, so 甲x gives 比未知 |
| BaziCalculatorNew.Simplified | bazi-api/app/bazi_calculator_new.py:295-296 | a label shrinks to its one-glyph code, and anything that is not a label is returned unchanged |
| BaziCalculatorNew.GetGodsList | bazi-api/app/bazi_calculator_new.py:192-215 | four entries: year, month and time stem relations, with 比肩 third |
| BaziCalculatorNew.GodsListOfStems | bazi-api/app/bazi_calculator_new.py:192-215 | the fixed third entry is the day stem's own relation, and all four are labels |
| BaziCalculatorNew.GetConstellationUnknown | bazi-api/app/bazi_calculator_new.py:334-363 | 未知 iff the month is outside 1..12 |
| BaziCalculatorNew.GetConstellationRanges | bazi-api/app/bazi_calculator_new.py:334-363 | every day of months 1..12 lies in exactly one sign range, and the result is that sign |
| BaziCalculatorNew.GetConstellation | bazi-api/app/bazi_calculator_new.py:334-363 | a month outside 1..12 gives 未知 (the converse is GetConstellationUnknown) |
| BaziCalculatorNew.ChainPicks | bazi-api/app/bazi_calculator_new.py:338-361 | the if-chain picks the month's own sign from its first day on, else the previous sign |
| BaziCalculatorNew.RangesOfMonth | bazi-api/app/bazi_calculator_new.py:338-361 | each month begins one range and ends the one before, which stops the day before |
| BaziCalculator.TaiYuanOfPillar | bazi-api/app/bazi_calculator.py:139-148 | for known glyphs the tai-yuan text is the stem plus 1 and the branch plus 3 |
| BaziCalculator.TaiYuanUnknownGlyph | bazi-api/app/bazi_calculator.py:143-144 | an unknown month stem or branch glyph is read as index 0 |
| BaziCalculator.TaiYuan | bazi-api/app/bazi_calculator.py:139-148 | whatever the glyphs, the result is a two-glyph text that parses as a pillar |
| BaziCalculator.BranchGods | bazi-api/app/bazi_calculator.py:179-184 | the inner loop gives one stem+relation string per hidden stem |
| BaziCalculator.GodsDetail | bazi-api/app/bazi_calculator.py:152-184 | the stem relations with 日主 third, and each branch's hidden-stem strings |
| BaziCalculator.HiddenGodsOfBranch | bazi-api/app/bazi_calculator.py:171-184 | one string per hidden stem in zhi_hide_gan order, and the first uses the branch's element |
| BaziCalculator.HiddenGodsOfNonBranch | bazi-api/app/bazi_calculator.py:181 | a string that is not a branch gets no entries |
| BaziCalculator.HiddenGods | bazi-api/app/bazi_calculator.py:171-184 | one string per hidden stem, each beginning with that stem's glyph |
| BaziCalculator.GetElement | bazi-api/app/bazi_calculator.py:524-535 | a stem gets its element, anything else none (未知) |
| BaziCalculator.GetZhiElement | bazi-api/app/bazi_calculator.py:537-548 | a branch gets its element, anything else none (未知) |
| BaziCalculator.ElementText | bazi-api/app/bazi_calculator.py:524-548 | the text is 未知 exactly for no element |
| BaziCalculator.ElementTextInjective | bazi-api/app/bazi_calculator.py:524-548 | different elements have different texts |
| BaziCalculator.GetElementPairs | bazi-api/app/bazi_calculator.py:524-535 | stems map in pairs: two share an element iff they sit in the same pair |
| BaziCalculator.GetZhiElementEarth | bazi-api/app/bazi_calculator.py:537-548 | earth exactly for 辰, 戌, 丑 and 未 |
| BaziCalculator.KeyIndex | bazi-api/app/bazi_calculator.py:198-200 | each element has its place among the keys 金木水火土 |
| BaziCalculator.Bump | bazi-api/app/bazi_calculator.py:205-206 | one increment raises exactly the count of the given element |
| BaziCalculator.GanCountStep | bazi-api/app/bazi_calculator.py:203-206 | one more stem raises its element's count by one |
| BaziCalculator.ZhiCountStep | bazi-api/app/bazi_calculator.py:209-212 | one more branch raises its element's count by one |
| BaziCalculator.CountWuxing | bazi-api/app/bazi_calculator.py:198-212 | the two loops give the element counts of the stems and branches |
| BaziCalculator.CountStems | bazi-api/app/bazi_calculator.py:203-206 | after the stem loop each key has gained the number of stems of its element |
| BaziCalculator.CountBranches | bazi-api/app/bazi_calculator.py:209-212 | after the branch loop each key has gained the number of branches of its element |
| BaziCalculator.AddOne | bazi-api/app/bazi_calculator.py:205-206 | a glyph whose element is a key raises that key's count by one and no other; 未知 changes nothing |
| BaziCalculator.GanCountTotal | bazi-api/app/bazi_calculator.py:203-206 | the stem counts sum to at most the number of stems, and to exactly that when all are known |
| BaziCalculator.ZhiCountTotal | bazi-api/app/bazi_calculator.py:209-212 | the same for branches |
| BaziCalculator.WuxingCountTotal | bazi-api/app/bazi_calculator.py:198-212 | the counts sum to at most \|gans\| + \|zhis\|, exactly that when all glyphs are known |
| BaziCalculator.GanCountZero | bazi-api/app/bazi_calculator.py:203-206 | a stem count is 0 iff no stem has that element |
| BaziCalculator.ZhiCountZero | bazi-api/app/bazi_calculator.py:209-212 | a branch count is 0 iff no branch has that element |
| BaziCalculator.WuxingCount | bazi-api/app/bazi_calculator.py:198-212 | five counts, none negative |
| BaziCalculator.Missing | bazi-api/app/bazi_calculator.py:215 | an element is missing iff its count is 0, listed in key order |
| BaziCalculator.MissingIffAbsent | bazi-api/app/bazi_calculator.py:198-215 | an element is missing iff no stem and no branch has it |
| BaziCalculator.NInclude | bazi-api/app/bazi_calculator.py:227 | no missing elements give [无]; otherwise their names in order |
| BaziCalculator.GetShishenForPillar | bazi-api/app/bazi_calculator.py:515-522 | shorter than 2 gives 未知; otherwise the relation of the first glyph |
| BaziCalculator.GetShishenForPillarOfPillar | bazi-api/app/bazi_calculator.py:515-522 | for a pillar the result is the stem's derived label, whatever the branch |
| BaziCalculator.GetShishenForPillarOfOther | bazi-api/app/bazi_calculator.py:515-522 | a first glyph that is neither stem nor branch gives "" |
| BaziCalculator.AnalyzeStrengthOfTally | bazi-api/app/bazi_calculator.py:550-563 | the same-element count is the day element's count; 强 iff ≥ 3, 弱 iff ≤ 1, 中和 iff 2 |
| BaziCalculator.AnalyzeStrengthSelf | bazi-api/app/bazi_calculator.py:550-563 | a stem sharing the day element counts, so the day stem counts toward itself |
| BaziCalculator.AnalyzeStrengthUnknownDay | bazi-api/app/bazi_calculator.py:550-563 | an unknown day stem with all other glyphs known gives 弱 |
| BaziCalculator.AnalyzeStrength | bazi-api/app/bazi_calculator.py:550-563 | the verdict is one of 强, 弱 and 中和 |
| BaziCalculator.PresentFrom | bazi-api/app/bazi_calculator.py:565-569 | the listed keys are exactly those with a nonzero count, in key order |
| BaziCalculator.PresentAndMissing | bazi-api/app/bazi_calculator.py:565-569 | present and missing elements together make up all five |
| BaziCalculator.EntryFirst | bazi-api/app/bazi_calculator.py:567 | each entry starts with its element's glyph |
| BaziCalculator.FormatWuxingDistributionEmpty | bazi-api/app/bazi_calculator.py:565-569 | the text is empty iff no count is positive |
| BaziCalculator.NonePresent | bazi-api/app/bazi_calculator.py:565-569 | nothing is listed iff no count is positive |
| BaziCalculator.FormatWuxingDistributionFirst | bazi-api/app/bazi_calculator.py:565-569 | a nonempty text starts with the first present element in 金木水火土 order |
| BaziCalculator.FormatWuxingDistribution | bazi-api/app/bazi_calculator.py:565-569 | the text is empty iff no key position has a positive count |
| BaziCalculator.Entries | bazi-api/app/bazi_calculator.py:565-569 | one entry per present element |
| BaziCalculator.OverallLuckOfChart | bazi-api/app/bazi_calculator.py:600-610 | four known stems and branches total 8 and always give 五行较全，运势平稳 |
| BaziCalculator.OverallLuckAnalysis | bazi-api/app/bazi_calculator.py:600-610 | the verdict is one of the three texts 较全, 偏少 and 适中 |
| Agreement.StemTablesCompared | bazi-api/app/shishen_calculator.py:66-71 | bazi_core's glyph row and the literal table agree; the derived table is their seals swapped, and equal to them iff the target does not generate the day stem |
| Agreement.StemRelationsCompared | bazi-api/app/bazi_calculator_new.py:226 | get_relation and _get_shishen_gan agree on two stems iff the target does not generate the day stem |
| Agreement.SealExample | bazi-api/app/bazi_core.py:41 | for 甲 and 壬 the derivation says 正印, the literal table 偏印 and the glyph row 枭 |
| Agreement.BranchTableIsMainQi | bazi-api/app/bazi_calculator_new.py:314-317 | SHI_SHEN_ZHI at (d, z) is the literal stem table at z's first hidden stem, which is bazi_core's first stem too |
| Agreement.HiddenStemOrders | bazi-api/app/bazi_calculator_new.py:307-312 | the two hidden-stem lists hold the same stems, and in the same order iff the branch is not 丑 or 巳 |
| Agreement.NaYinCoverage | bazi-api/app/lunar_calculator.py:29-43 | the lunar table equals bazi_core's on positions 0..49 and lacks positions 50..59 |
| Agreement.NaYinOfJiaYin | bazi-api/app/lunar_calculator.py:29-43 | 甲寅 is 大溪水 in bazi_core and 未知 in the lunar lookup |
| Agreement.VoidOfJiaShen | bazi-api/app/lunar_calculator.py:102-112 | bazi_core gives 甲申 (午, 未); the lunar lookup gives (戌, 亥) |
| Agreement.EmptyMapInjective | bazi-api/app/lunar_calculator.py:46-49 | different decade starts have different void pairs |
| Agreement.VoidAgreement | bazi-api/app/lunar_calculator.py:109-110 | on a valid pillar the lunar lookup gives bazi_core's void pair iff its decade start is the cycle's |
| Agreement.FirstDecadeStep | bazi-api/app/dayun_calculator.py:87-108 | bazi_core's decade i is dayun_calculator's item i + 1; the latter starts at the month pillar, which the former never does |
| Agreement.DirectionsAgree | bazi-api/app/dayun_calculator.py:43-51 | gender 1 and 2 go the same way as 男 and 女 in bazi_core |
| Agreement.SeedIsLunarMonth | bazi-api/app/dayun_calculator.py:37-40 | the decade seed is the lunar month pillar, and the year list heads are the lunar year pillars |
| Agreement.MonthListStem | bazi-api/app/dayun_calculator.py:150-158 | the month list's branch k is the lunar month k + 1's branch, but its stem is two behind, so the pillars differ |
| Agreement.SignsCompared | bazi-api/app/bazi_calculator_new.py:334-363 | for months 1..12 the two sign functions agree except on 6/21, 10/23 and 11/22; outside, one says 摩羯座 and the other 未知 |
| Agreement.StageRowsFollowOffset | bazi-api/app/data_models.py:192-195 | each twelve-stages row of bazi_core is the stages read forward (yang) or backward (yin) from CHANG_SHENG_OFFSET |

## Left out

- True solar time is not part of this model: city coordinates are file I/O and the equation of time is floating point.
- The calendar libraries sxtwl and lunar_python are foreign calls. The four pillars of `calc_bazi` and of both calculators' `calculate_bazi_info` are inputs instead, and so are 命宫 and the lib's void and luck values.
- `get_gan_zhi_from_date` takes the number of days since 1984-01-01 as an integer input, in place of its datetime subtraction.
- HTTP, JSON output, exception swallowing and pydantic machinery beyond the plain field bounds are not modelled.
- The `{:.2%}` strength-ratio string and timestamps are float or time-zone formatting and are not modelled. The level compares integers by cross-multiplication, which is exact where the source compares floats.
- BaziShensha.CalculateShensha: the result is a set, because the order of Python's `list(set(...))` is unspecified.
- `_suggest_yongshen`, `_analyze_xiji` and the canned trend, fortune and summary texts are narrative literals and are not modelled.
- The 童限 branch of `_generate_dayun_list` never fires: the start age is always 8, which DayunCalculator.DayunListFacts shows.
- The month list of `dayun_calculator.py` is modelled as written. Agreement.MonthListStem shows that its stems differ from the lunar month formula.
- The `sect` request parameter is unused by the modelled code.
- BaziCalculator.GetElement: returns `Option<Element>` in place of the element name, because `ElementText` turns None into 未知 and is proved injective.
- BaziCalculatorNew.GetConstellation: its own contract states only the 未知 case; the sign of each date is stated by the lemmas GetConstellationUnknown, GetConstellationRanges and ChainPicks.
- BaziCore.TenShenUnknownTarget: the special keys (库, 本, …) are excluded; SpecialKeyElements and SpecialKeyStems state what they return.
- BaziCycle.CalculateNaYin: requires a two-glyph text; for any other length the source raises ValueError at the unpacking into gan and zhi (bazi_core.py:467), and exceptions are not modelled.
- BaziCycle.GetNextGanZhi: requires a text that parses as a pillar; for other text `list.index` raises ValueError, which is not modelled. The default `direction=1` of `get_next_gan_zhi` (bazi_core.py:478) is an explicit argument.
- BaziCycle.TaiYuanText: requires a text that parses as a pillar, for the same reason (`list.index` raises ValueError otherwise).
- BaziDaYun.CalcDaYun: requires a month pillar that parses, for the same reason.
- BaziShensha.CalculateShensha: requires at least one branch; with none `zhis[0]` raises IndexError, which is not modelled.

## Findings

| source | as written | input that shows it | evidently intended | confidence | as-written member | corrected member |
|---|---|---|---|---|---|---|
| bazi-api/app/bazi_core.py:586-589 | `calculate_empty` receives the pillar as a string, but EMPTIES is keyed by (stem, branch) tuples, so the lookup always misses | 甲子 gives [] | 甲子 gives [戌, 亥], the void of its decade | high, not executed | BaziCycle.CalculateEmpty, with BaziCycle.EmptyOfPillarStringIsLost | BaziCycle.CalculateEmptyOfPillar |
| bazi-api/app/lunar_calculator.py:109-110 | the decade start is computed as ((6g + z) mod 60), which is not the pillar's cycle position | 甲申 gives (戌, 亥) | 甲申, position 20, gives (午, 未) | high, not executed | LunarCalculator.GetEmpty, with LunarCalculator.GetEmptyOfJiaShen | LunarCalculator.GetEmptyByCycle, with LunarCalculator.XunStartOfCycleIsVoid |
