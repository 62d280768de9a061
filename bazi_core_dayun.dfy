/** bazi_core.py's calc_da_yun: ten decade pillars stepped from the month
    pillar, forward or backward by the year stem's polarity and the
    gender. */
module BaziDaYun {
  import opened Sexagenary
  import opened BaziCore
  import opened BaziCycle

  /** The yang or yin year stem of calc_da_yun: TG[(birth_year - 4) % 10]. */
  function YearStem(birthYear: int): Stem
  {
    (birthYear - 4) % 10
  }

  /** The direction calc_da_yun counts in: forward for a yang year and 男 or
      a yin year and 女, backward otherwise (any other gender string
      included). */
  function DaYunDirection(birthYear: int, gender: string): (d: int)
    ensures d == 1 || d == -1
  {
    var yang := IsYang(YearStem(birthYear));
    if (yang && gender == "男") || (!yang && gender == "女") then 1 else -1
  }

  /** For the two genders the source knows, the direction flips with the
      gender and with the parity of the year. */
  lemma DaYunDirectionFlips(birthYear: int)
    ensures DaYunDirection(birthYear, "男") == -DaYunDirection(birthYear, "女")
    ensures DaYunDirection(birthYear + 1, "男") == -DaYunDirection(birthYear, "男")
    ensures DaYunDirection(birthYear, "男") == 1 <==> (birthYear - 4) % 2 == 0
  {
    YearStemSteps(birthYear);
  }

  /** The next year's stem is the next stem, and a stem's polarity is the
      parity of the year offset. */
  lemma YearStemSteps(birthYear: int)
    ensures YearStem(birthYear + 1) == (YearStem(birthYear) + 1) % 10
    ensures IsYang(YearStem(birthYear)) <==> (birthYear - 4) % 2 == 0
  {
    var s: int := YearStem(birthYear);
    var y := (birthYear - 4) / 10;
    assert birthYear - 4 == 10 * y + s;
    TwosDropped(s, 5 * y);
    if s < 9 {
      assert birthYear + 1 - 4 == 10 * y + (s + 1);
    } else {
      assert birthYear + 1 - 4 == 10 * (y + 1) + 0;
    }
  }

  /** Any other gender string always counts backward. */
  lemma DaYunDirectionOtherGender(birthYear: int, gender: string)
    requires gender != "男" && gender != "女"
    ensures DaYunDirection(birthYear, gender) == -1
  {
  }

  /** The age range f"{start_year}-{end_year}岁" of decade i, with the fixed
      starting age 8. */
  function AgeLabel(i: nat): string
  {
    IntText(DaYunStartAge + 10 * i) + "-" + IntText(DaYunStartAge + 10 * i + 9) + "岁"
  }

  /** calc_da_yun's simplified starting age. */
  const DaYunStartAge: nat := 8

  /** One entry of the 大运 list: the pillar, the age range and the ten-gods
      relations of its stem and branch to the day stem. */
  datatype DaYunStep = DaYunStep(ganZhi: string, ages: string, stemGod: string, branchGod: string)

  /** calc_da_yun's result: 排运方式, 起运年龄 and 大运. */
  datatype DaYunInfo = DaYunInfo(mode: string, startAge: string, steps: seq<DaYunStep>)

  /** The pillar of decade i: the month pillar advanced i + 1 times. */
  function Decade(month: Pillar, direction: int, i: nat): Pillar
  {
    Stepped(month, direction, i + 1)
  }

  /** The entry for decade i whose pillar is p. */
  function DaYunEntry(dayGan: string, p: Pillar, i: nat): DaYunStep
  {
    DaYunStep(PillarText(p), AgeLabel(i), TenShen(dayGan, [TG[p.stem]]), TenShenDz(dayGan, [DZ[p.branch]]))
  }

  /** calc_da_yun: ten decades, the first the month pillar advanced once
      in the direction, each later one advanced once more; the mode names
      the direction and the starting age is fixed at 8. */
  method CalcDaYun(birthYear: int, monthGanZhi: string, dayGan: string, gender: string) returns (r: DaYunInfo)
    requires ParsePillar(monthGanZhi).Some?
    ensures |r.steps| == 10
    ensures forall i :: 0 <= i < 10 ==>
      r.steps[i] == DaYunEntry(dayGan, Decade(ParsePillar(monthGanZhi).value, DaYunDirection(birthYear, gender), i), i)
    ensures r.mode == (if DaYunDirection(birthYear, gender) == 1 then "顺排" else "逆排")
    ensures r.startAge == IntText(DaYunStartAge) + "岁"
  {
    var direction := DaYunDirection(birthYear, gender);
    var month := ParsePillar(monthGanZhi).value;
    var pillars := DecadePillars(month, direction);
    var steps := seq(10, k requires 0 <= k < 10 => DaYunEntry(dayGan, pillars[k], k));
    var mode := if direction == 1 then "顺排" else "逆排";
    r := DaYunInfo(mode, IntText(DaYunStartAge) + "岁", steps);
  }

  /** The loop of calc_da_yun: each decade's pillar is the previous one
      (the month pillar for the first) advanced once. */
  method DecadePillars(month: Pillar, direction: int) returns (pillars: seq<Pillar>)
    ensures |pillars| == 10
    ensures forall i :: 0 <= i < 10 ==> pillars[i] == Decade(month, direction, i)
  {
    var current := month;
    pillars := [];
    for i := 0 to 10
      invariant |pillars| == i
      invariant current == Stepped(month, direction, i)
      invariant forall k :: 0 <= k < i ==> pillars[k] == Decade(month, direction, k)
    {
      if i == 0 {
        current := NextPillar(month, direction);
      } else {
        current := NextPillar(current, direction);
      }
      pillars := pillars + [current];
    }
  }

  /** Decade i is the month pillar advanced by (i + 1) * direction, so every
      decade of a valid month pillar is a valid pillar. */
  lemma DecadeOffset(month: Pillar, direction: int, i: nat)
    ensures Decade(month, direction, i) == NextPillar(month, (i + 1) * direction)
    ensures month.Valid() ==> Decade(month, direction, i).Valid()
  {
    SteppedOffset(month, direction, i + 1);
  }

  /** On the sixty-pillar cycle decade i of the month at position j sits
      at position j + (i + 1) * direction. */
  lemma DecadeOnCycle(j: int, direction: int, i: nat)
    ensures Decade(CyclePillar(j), direction, i) == CyclePillar(j + (i + 1) * direction)
  {
    DecadeOffset(CyclePillar(j), direction, i);
    NextPillarOnCycle(j, (i + 1) * direction);
  }

  /** The first two age ranges. */
  lemma AgeLabelExamples()
    ensures AgeLabel(0) == "8-17岁" && AgeLabel(1) == "18-27岁"
  {
    assert IntText(8) == "8";
    assert IntText(17) == IntText(1) + "7" == "17";
    assert IntText(18) == IntText(1) + "8" == "18";
    assert IntText(27) == IntText(2) + "7" == "27";
  }
}
