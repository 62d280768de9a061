/** calculate_zhi_relations of bazi_core.py: the ZHI_ATTS, ZHI_6HES and
    ZHI_3HES tables, the relations found for every pair and group of
    branches, and their rendering. */
module BaziRelations {
  import opened Sexagenary
  import opened PairScans

  /** The entries of ZHI_ATTS the relation scan reads: 冲 clash, 刑
      punishment, 害 harm and 破 break partner of a branch. */
  datatype Atts = Atts(clash: Branch, punishment: Branch, harm: Branch, breaks: Branch)

  /** ZHI_ATTS for 子..亥. */
  const ZhiAtts: seq<Atts> := [
      Atts(6, 3, 7, 9), // 子: 午 卯 未 酉
      Atts(7, 10, 6, 4), // 丑: 未 戌 午 辰
      Atts(8, 5, 5, 11), // 寅: 申 巳 巳 亥
      Atts(9, 0, 4, 6), // 卯: 酉 子 辰 午
      Atts(10, 4, 3, 1), // 辰: 戌 辰 卯 丑
      Atts(11, 8, 2, 8), // 巳: 亥 申 寅 申
      Atts(0, 6, 1, 3), // 午: 子 午 丑 卯
      Atts(1, 1, 0, 10), // 未: 丑 丑 子 戌
      Atts(2, 2, 11, 5), // 申: 寅 寅 亥 巳
      Atts(3, 9, 10, 0), // 酉: 卯 酉 戌 子
      Atts(4, 7, 9, 7), // 戌: 辰 未 酉 未
      Atts(5, 11, 8, 2)  // 亥: 巳 亥 申 寅
    ]

  function ClashOf(z: Branch): Branch
  {
    ZhiAtts[z].clash
  }

  function PunishmentOf(z: Branch): Branch
  {
    ZhiAtts[z].punishment
  }

  function HarmOf(z: Branch): Branch
  {
    ZhiAtts[z].harm
  }

  function BreakOf(z: Branch): Branch
  {
    ZhiAtts[z].breaks
  }

  /** ZHI_6HES, keyed by the two-glyph string a then b: 子丑土, 寅亥木,
      卯戌火, 酉辰金, 申巳水, 未午土. */
  function SixCombinationKey(a: Branch, b: Branch): Option<Element>
  {
    match (a, b)
    case (0, 1) => Some(Earth)
    case (2, 11) => Some(Wood)
    case (3, 10) => Some(Fire)
    case (9, 4) => Some(Metal)
    case (8, 5) => Some(Water)
    case (7, 6) => Some(Earth)
    case _ => None
  }

  /** ZHI_3HES in its own order: 申子辰水, 巳酉丑金, 寅午戌火, 亥卯未木. */
  function TriUnionGroup(k: nat): (g: seq<Branch>)
    requires k < 4
    ensures |g| == 3
  {
    [[8, 0, 4], [5, 9, 1], [2, 6, 10], [11, 3, 7]][k]
  }

  function TriUnionElement(k: nat): Element
    requires k < 4
  {
    [Water, Metal, Fire, Wood][k]
  }

  /** The relations found between two branches, and the tri-unions. */
  datatype Relation =
    | SixCombination(a: Branch, b: Branch, e: Element)   // 六合
    | Clash(a: Branch, b: Branch)                        // 相冲
    | Punishment(a: Branch, b: Branch)                   // 相刑
    | Harm(a: Branch, b: Branch)                         // 相害
    | Break(a: Branch, b: Branch)                        // 相破
    | TriUnion(k: nat)                                   // 三合, k < 4

  /** The text the source appends for a relation. */
  function RelationText(r: Relation): string
  {
    match r
    case SixCombination(a, b, e) => [DZ[a], DZ[b]] + "六合(" + [ElementGlyph(e)] + ")"
    case Clash(a, b) => [DZ[a], DZ[b]] + "相冲"
    case Punishment(a, b) => [DZ[a], DZ[b]] + "相刑"
    case Harm(a, b) => [DZ[a], DZ[b]] + "相害"
    case Break(a, b) => [DZ[a], DZ[b]] + "相破"
    case TriUnion(k) =>
      if k < 4 then
        var g := TriUnionGroup(k);
        [DZ[g[0]], DZ[g[1]], DZ[g[2]]] + "三合" + [ElementGlyph(TriUnionElement(k))]
      else ""
  }

  function RelationTexts(rs: seq<Relation>): (ts: seq<string>)
    ensures |ts| == |rs|
    ensures forall i :: 0 <= i < |rs| ==> ts[i] == RelationText(rs[i])
  {
    if |rs| == 0 then [] else RelationTexts(rs[..|rs| - 1]) + [RelationText(rs[|rs| - 1])]
  }

  /** What the inner loop body appends for the pair zhi1 = a, zhi2 = b, in
      its order: a six-combination under either key order, then clash,
      punishment, harm and break, each looked up in a's own entry. */
  function PairRelations(a: Branch, b: Branch): seq<Relation>
  {
    (match SixCombinationKey(a, b)
     case Some(e) => [SixCombination(a, b, e)]
     case None =>
       match SixCombinationKey(b, a)
       case Some(e) => [SixCombination(a, b, e)]
       case None => [])
    + (if ClashOf(a) == b then [Clash(a, b)] else [])
    + (if PunishmentOf(a) == b then [Punishment(a, b)] else [])
    + (if HarmOf(a) == b then [Harm(a, b)] else [])
    + (if BreakOf(a) == b then [Break(a, b)] else [])
  }

  predicate AllPresent(g: seq<Branch>, zhis: seq<Branch>)
  {
    forall x :: x in g ==> x in zhis
  }

  /** The tri-unions among the first k groups whose members all occur. */
  function TriUnionsBefore(zhis: seq<Branch>, k: nat): seq<Relation>
    requires k <= 4
  {
    if k == 0 then []
    else TriUnionsBefore(zhis, k - 1) + (if AllPresent(TriUnionGroup(k - 1), zhis) then [TriUnion(k - 1)] else [])
  }

  /** All relations, in the order calculate_zhi_relations appends them. */
  function ZhiRelations(zhis: seq<Branch>): seq<Relation>
  {
    PairScan(PairRelations, zhis, 0) + TriUnionsBefore(zhis, 4)
  }

  /** calculate_zhi_relations: every index pair i < j in turn, then the
      four tri-union groups. */
  method CalculateZhiRelations(zhis: seq<Branch>) returns (relations: seq<string>)
    ensures relations == RelationTexts(ZhiRelations(zhis))
  {
    var found: seq<Relation> := [];
    for i := 0 to |zhis|
      invariant found + PairScan(PairRelations, zhis, i) == PairScan(PairRelations, zhis, 0)
    {
      var row := ScanRow(PairRelations, zhis, i);
      found := found + row;
    }
    for k := 0 to 4
      invariant found == PairScan(PairRelations, zhis, 0) + TriUnionsBefore(zhis, k)
    {
      if AllPresent(TriUnionGroup(k), zhis) {
        found := found + [TriUnion(k)];
      }
    }
    relations := RelationTexts(found);
  }

  /** The inner loop of calculate_zhi_relations for one i: every j, with
      the pairs j <= i skipped; `pair` is the body's table lookups. */
  method ScanRow(pair: (Branch, Branch) -> seq<Relation>, zhis: seq<Branch>, i: nat) returns (row: seq<Relation>)
    requires i < |zhis|
    ensures row == RowScan(pair, zhis, i, i + 1)
  {
    row := [];
    for j := 0 to |zhis|
      invariant j <= i + 1 ==> row == []
      invariant i < j ==> row + RowScan(pair, zhis, i, j) == RowScan(pair, zhis, i, i + 1)
    {
      if i >= j {
        continue;
      }
      row := row + pair(zhis[i], zhis[j]);
    }
  }

  /** 冲, 害 and 破 are symmetric, so their detection does not depend on
      which branch comes first, and a clash partner sits six places away. */
  lemma BranchTablesSymmetric(a: Branch, b: Branch)
    ensures ClashOf(a) == b <==> ClashOf(b) == a
    ensures HarmOf(a) == b <==> HarmOf(b) == a
    ensures BreakOf(a) == b <==> BreakOf(b) == a
    ensures ClashOf(a) == (a + 6) % 12
  {
    AttsInvolutions(a);
    AttsInvolutions(b);
  }

  lemma AttsInvolutions(a: Branch)
    ensures ClashOf(ClashOf(a)) == a && HarmOf(HarmOf(a)) == a && BreakOf(BreakOf(a)) == a
    ensures ClashOf(a) == (a + 6) % 12
  {
    if a == 0 {} else if a == 1 {} else if a == 2 {} else if a == 3 {}
    else if a == 4 {} else if a == 5 {} else if a == 6 {} else if a == 7 {}
    else if a == 8 {} else if a == 9 {} else if a == 10 {} else {}
  }

  /** When the pair (x, y) reports relation r: the relation names x then
      y, and x's own table entry (or either ZHI_6HES key, the x-first key
      taking precedence) yields it. */
  predicate Reported(r: Relation, x: Branch, y: Branch)
  {
    match r
    case SixCombination(a, b, e) =>
      a == x && b == y &&
      (SixCombinationKey(x, y) == Some(e) || (SixCombinationKey(x, y).None? && SixCombinationKey(y, x) == Some(e)))
    case Clash(a, b) => a == x && b == y && ClashOf(x) == y
    case Punishment(a, b) => a == x && b == y && PunishmentOf(x) == y
    case Harm(a, b) => a == x && b == y && HarmOf(x) == y
    case Break(a, b) => a == x && b == y && BreakOf(x) == y
    case TriUnion(_) => false
  }

  lemma PairRelationsMembers(x: Branch, y: Branch, r: Relation)
    ensures r in PairRelations(x, y) <==> Reported(r, x, y)
  {
  }

  lemma {:induction false} TriUnionsBeforeMembers(zhis: seq<Branch>, n: nat, r: Relation)
    requires n <= 4
    ensures r in TriUnionsBefore(zhis, n) <==> r.TriUnion? && r.k < n && AllPresent(TriUnionGroup(r.k), zhis)
  {
    if n > 0 {
      TriUnionsBeforeMembers(zhis, n - 1, r);
    }
  }

  /** The result of calculate_zhi_relations, relation by relation: a
      two-branch relation is reported exactly when some index pair i < j
      reports it, and a tri-union exactly when its three members all
      occur. */
  lemma ZhiRelationsMembers(zhis: seq<Branch>, r: Relation)
    ensures r.TriUnion? ==> (r in ZhiRelations(zhis) <==> r.k < 4 && AllPresent(TriUnionGroup(r.k), zhis))
    ensures !r.TriUnion? ==> (r in ZhiRelations(zhis) <==>
      exists i, j :: 0 <= i < j < |zhis| && Reported(r, zhis[i], zhis[j]))
  {
    PairScanMembers(PairRelations, zhis, 0, r);
    TriUnionsBeforeMembers(zhis, 4, r);
    forall i, j | 0 <= i < j < |zhis|
      ensures r in PairRelations(zhis[i], zhis[j]) <==> Reported(r, zhis[i], zhis[j])
    {
      PairRelationsMembers(zhis[i], zhis[j], r);
    }
  }

  /** 刑 is looked up in the earlier branch's entry only: [丑, 戌] reports
      丑戌相刑, while [戌, 丑] reports no punishment at all. */
  lemma PunishmentIsOneSided(zhis: seq<Branch>, reversed: seq<Branch>)
    requires zhis == [1, 10] && reversed == [10, 1]
    ensures Punishment(1, 10) in ZhiRelations(zhis)
    ensures forall a, b :: Punishment(a, b) !in ZhiRelations(reversed)
  {
    ZhiRelationsMembers(zhis, Punishment(1, 10));
    assert Reported(Punishment(1, 10), zhis[0], zhis[1]);
    forall a, b
      ensures Punishment(a, b) !in ZhiRelations(reversed)
    {
      ZhiRelationsMembers(reversed, Punishment(a, b));
    }
  }

  /** A six-combination is reported for a pair whichever order its two
      branches come in, with the same element. */
  lemma SixCombinationEitherOrder(a: Branch, b: Branch, e: Element)
    ensures Reported(SixCombination(a, b, e), a, b) <==> Reported(SixCombination(b, a, e), b, a)
    ensures Reported(SixCombination(a, b, e), a, b) <==>
      SixCombinationKey(a, b) == Some(e) || SixCombinationKey(b, a) == Some(e)
  {
  }

  /** A clash is reported for the pair (i, j) exactly when the branches are
      six apart, so the order of the two does not matter. */
  lemma ClashMembers(zhis: seq<Branch>, a: Branch, b: Branch)
    ensures Clash(a, b) in ZhiRelations(zhis) <==>
      exists i, j :: 0 <= i < j < |zhis| && zhis[i] == a && zhis[j] == b && (b - a) % 12 == 6
  {
    ZhiRelationsMembers(zhis, Clash(a, b));
    ClashSixApart(a, b);
    if Clash(a, b) in ZhiRelations(zhis) {
      var i, j :| 0 <= i < j < |zhis| && Reported(Clash(a, b), zhis[i], zhis[j]);
      assert zhis[i] == a && zhis[j] == b;
    }
    if exists i, j :: 0 <= i < j < |zhis| && zhis[i] == a && zhis[j] == b && (b - a) % 12 == 6 {
      var i, j :| 0 <= i < j < |zhis| && zhis[i] == a && zhis[j] == b && (b - a) % 12 == 6;
      assert Reported(Clash(a, b), zhis[i], zhis[j]);
    }
  }

  lemma ClashSixApart(a: Branch, b: Branch)
    ensures ClashOf(a) == b <==> (b - a) % 12 == 6
  {
    AttsInvolutions(a);
  }

  lemma RelationTextsMember(rs: seq<Relation>, r: Relation)
    requires r in rs
    ensures RelationText(r) in RelationTexts(rs)
  {
    var k :| 0 <= k < |rs| && rs[k] == r;
    assert RelationTexts(rs)[k] == RelationText(r);
  }

  /** The texts of the four tri-unions. */
  lemma TriUnionTexts()
    ensures RelationText(TriUnion(0)) == "申子辰三合水"
    ensures RelationText(TriUnion(1)) == "巳酉丑三合金"
    ensures RelationText(TriUnion(2)) == "寅午戌三合火"
    ensures RelationText(TriUnion(3)) == "亥卯未三合木"
  {
  }

  /** 申, 子, 辰 together give 申子辰三合水. */
  lemma TriUnionExample(zhis: seq<Branch>)
    requires zhis == [8, 0, 4]
    ensures "申子辰三合水" in RelationTexts(ZhiRelations(zhis))
  {
    ZhiRelationsMembers(zhis, TriUnion(0));
    assert AllPresent(TriUnionGroup(0), zhis);
    RelationTextsMember(ZhiRelations(zhis), TriUnion(0));
    TriUnionTexts();
  }
}
