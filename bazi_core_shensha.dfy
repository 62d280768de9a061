/** calculate_shensha of bazi_core.py and the SHENSHA_DATA tables it reads. */
module BaziShensha {
  import opened Sexagenary


  /** SHENSHA_DATA['天乙']: the two noble branches of each day stem. */
  function TianYi(d: Stem): seq<Branch>
  {
    match d
    case 0 => [7, 1]
    case 1 => [8, 0]
    case 2 => [9, 11]
    case 3 => [9, 11]
    case 4 => [7, 1]
    case 5 => [8, 0]
    case 6 => [7, 1]
    case 7 => [2, 6]
    case 8 => [3, 5]
    case 9 => [3, 5]
  }

  /** SHENSHA_DATA['文昌'] */
  function WenChang(d: Stem): Branch
  {
    match d
    case 0 => 5
    case 1 => 6
    case 2 => 8
    case 3 => 9
    case 4 => 8
    case 5 => 9
    case 6 => 11
    case 7 => 0
    case 8 => 2
    case 9 => 1
  }

  /** SHENSHA_DATA['将星'], keyed on the year branch. */
  function JiangXing(z: Branch): Branch
  {
    match z
    case 0 => 0
    case 1 => 9
    case 2 => 6
    case 3 => 3
    case 4 => 0
    case 5 => 9
    case 6 => 6
    case 7 => 3
    case 8 => 0
    case 9 => 9
    case 10 => 6
    case 11 => 3
  }

  /** SHENSHA_DATA['华盖'] */
  function HuaGai(z: Branch): Branch
  {
    match z
    case 0 => 4
    case 1 => 1
    case 2 => 10
    case 3 => 7
    case 4 => 4
    case 5 => 1
    case 6 => 10
    case 7 => 7
    case 8 => 4
    case 9 => 1
    case 10 => 10
    case 11 => 7
  }

  /** SHENSHA_DATA['驿马'] */
  function YiMa(z: Branch): Branch
  {
    match z
    case 0 => 2
    case 1 => 11
    case 2 => 8
    case 3 => 5
    case 4 => 2
    case 5 => 11
    case 6 => 8
    case 7 => 5
    case 8 => 2
    case 9 => 11
    case 10 => 8
    case 11 => 5
  }

  /** SHENSHA_DATA['桃花'] */
  function TaoHua(z: Branch): Branch
  {
    match z
    case 0 => 9
    case 1 => 6
    case 2 => 3
    case 3 => 0
    case 4 => 9
    case 5 => 6
    case 6 => 3
    case 7 => 0
    case 8 => 9
    case 9 => 6
    case 10 => 3
    case 11 => 0
  }

  /** The six markers calculate_shensha can report. */
  datatype Shensha = TianYiNoble | WenChangNoble | GeneralStar | Canopy | PostHorse | PeachBlossom

  /** The name the source reports for each marker. */
  function ShenshaName(m: Shensha): string
  {
    match m
    case TianYiNoble => "天乙贵人"
    case WenChangNoble => "文昌贵人"
    case GeneralStar => "将星"
    case Canopy => "华盖"
    case PostHorse => "驿马"
    case PeachBlossom => "桃花"
  }

  /** Different markers have different names, so the set of names is the
      set of markers. */
  lemma ShenshaNamesDistinct(m: Shensha, n: Shensha)
    ensures ShenshaName(m) == ShenshaName(n) ==> m == n
  {
  }

  /** The four year-branch markers depend only on the year branch's
      tri-union group, that is on its residue modulo 4. */
  lemma YearMarkersByGroup(z: Branch)
    ensures JiangXing(z) == JiangXing(z % 4) && HuaGai(z) == HuaGai(z % 4)
    ensures YiMa(z) == YiMa(z % 4) && TaoHua(z) == TaoHua(z % 4)
  {
  }

  /** calculate_shensha: the markers found. 天乙贵人 is looked up for every
      branch, 文昌贵人 from the day stem, and the other four from the first
      (year) branch only. The order of Python's list(set(...)) is
      unspecified, so the result is a set; ShenshaName gives the reported
      strings. */
  method CalculateShensha(gans: seq<Stem>, zhis: seq<Branch>, dayGan: Stem) returns (r: set<Shensha>)
    requires |zhis| >= 1
    ensures TianYiNoble in r <==> exists i :: 0 <= i < |zhis| && zhis[i] in TianYi(dayGan)
    ensures WenChangNoble in r <==> WenChang(dayGan) in zhis
    ensures GeneralStar in r <==> JiangXing(zhis[0]) in zhis
    ensures Canopy in r <==> HuaGai(zhis[0]) in zhis
    ensures PostHorse in r <==> YiMa(zhis[0]) in zhis
    ensures PeachBlossom in r <==> TaoHua(zhis[0]) in zhis
  {
    var found := NobleHits(zhis, TianYi(dayGan));
    if WenChang(dayGan) in zhis {
      found := found + [WenChangNoble];
    }
    if JiangXing(zhis[0]) in zhis {
      found := found + [GeneralStar];
    }
    if HuaGai(zhis[0]) in zhis {
      found := found + [Canopy];
    }
    if YiMa(zhis[0]) in zhis {
      found := found + [PostHorse];
    }
    if TaoHua(zhis[0]) in zhis {
      found := found + [PeachBlossom];
    }
    r := set x | x in found;
  }

  /** The first loop of calculate_shensha: one 天乙贵人 per branch that is
      a noble position. */
  method NobleHits(zhis: seq<Branch>, positions: seq<Branch>) returns (found: seq<Shensha>)
    ensures forall x :: x in found ==> x == TianYiNoble
    ensures TianYiNoble in found <==> exists i :: 0 <= i < |zhis| && zhis[i] in positions
  {
    found := [];
    for i := 0 to |zhis|
      invariant forall x :: x in found ==> x == TianYiNoble
      invariant TianYiNoble in found <==> exists k :: 0 <= k < i && zhis[k] in positions
    {
      if zhis[i] in positions {
        found := found + [TianYiNoble];
      }
    }
  }
}
