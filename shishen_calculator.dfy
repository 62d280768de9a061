/** shishen_calculator.py: the stem ten-gods table derived from the element
    cycles and polarity, and the lookups built on it and on the literal
    branch table of data_models.py. */
module ShishenCalculator {
  import opened Sexagenary
  import opened DataModels

  /** The if/elif chain of _generate_shi_shen_gan for day stem d and target
      stem t, None standing for its final 未知 branch. */
  function Derived(d: Stem, t: Stem): Option<TenGod>
  {
    var de, te := StemElement(d), StemElement(t);
    var same := IsYang(d) == IsYang(t);
    if d == t then Some(Friend)
    else if de == te then (if !same then Some(RobWealth) else Some(Friend))
    else if Generates(de) == te then (if same then Some(EatingGod) else Some(HurtingOfficer))
    else if Generates(te) == de then (if same then Some(DirectSeal) else Some(IndirectSeal))
    else if Conquers(de) == te then (if same then Some(IndirectWealth) else Some(DirectWealth))
    else if Conquers(te) == de then (if same then Some(SevenKillings) else Some(DirectOfficer))
    else None
  }

  /** The value the generator stores. */
  function DerivedLabel(d: Stem, t: Stem): string
  {
    match Derived(d, t)
    case Some(g) => Label(g)
    case None => Unknown
  }

  /** The relation a kinship and a polarity pairing give in this file: same
      polarity means 比肩, 食神, 正印, 偏财 or 七杀. */
  function KinGod(k: Kinship, samePolarity: bool): TenGod
  {
    match k
    case Peer => if samePolarity then Friend else RobWealth
    case Feeds => if samePolarity then EatingGod else HurtingOfficer
    case FedBy => if samePolarity then DirectSeal else IndirectSeal
    case Controls => if samePolarity then IndirectWealth else DirectWealth
    case ControlledBy => if samePolarity then SevenKillings else DirectOfficer
  }

  /** The chain never reaches 未知: the five tests cover every pair of
      elements, and the result is the kinship and polarity pairing. */
  lemma DerivedByKin(d: Stem, t: Stem)
    ensures Derived(d, t) == Some(KinGod(Kin(StemElement(d), StemElement(t)), IsYang(d) == IsYang(t)))
    ensures DerivedLabel(d, t) != Unknown
  {
    StemElementPairs(d, t);
    if StemElement(d) != StemElement(t) {
      FourRelationsPartition(StemElement(d), StemElement(t));
    }
  }

  /** Identical stems give 比肩 and only they do; the other stem of the same
      element gives 劫财. */
  lemma DerivedPeers(d: Stem, t: Stem)
    ensures Derived(d, t) == Some(Friend) <==> d == t
    ensures Derived(d, t) == Some(RobWealth) <==> d != t && StemElement(d) == StemElement(t)
  {
    DerivedByKin(d, t);
    StemElementPairs(d, t);
  }

  /** What the relation of t to d is when read the other way round. */
  function Swapped(g: TenGod): TenGod
  {
    match g
    case Friend => Friend
    case RobWealth => RobWealth
    case EatingGod => DirectSeal
    case HurtingOfficer => IndirectSeal
    case DirectSeal => EatingGod
    case IndirectSeal => HurtingOfficer
    case IndirectWealth => SevenKillings
    case DirectWealth => DirectOfficer
    case SevenKillings => IndirectWealth
    case DirectOfficer => DirectWealth
  }

  /** Swapping the stems exchanges 食神/伤官 with 正印/偏印 and 偏财/正财 with
      七杀/正官, and keeps 比肩/劫财. */
  lemma DerivedSwap(d: Stem, t: Stem)
    ensures Derived(t, d) == Some(Swapped(Derived(d, t).value))
    ensures Swapped(Swapped(Derived(d, t).value)) == Derived(d, t).value
  {
    DerivedByKin(d, t);
    DerivedByKin(t, d);
  }

  /** The table _generate_shi_shen_gan builds: one key per ordered pair of
      stem glyphs. */
  function ShiShenGan(key: string): (r: Option<string>)
    ensures r.Some? <==> |key| == 2 && key[0] in TG && key[1] in TG
  {
    if |key| == 2 && StemOf(key[0]).Some? && StemOf(key[1]).Some? then
      Some(DerivedLabel(StemOf(key[0]).value, StemOf(key[1]).value))
    else None
  }

  /** The position of a stem-pair key in the generator's loop order. */
  function KeyRank(key: string): int
    requires |key| == 2 && key[0] in TG && key[1] in TG
  {
    10 * StemOf(key[0]).value + StemOf(key[1]).value
  }

  /** _generate_shi_shen_gan: for each day stem, for each target stem, the
      key day_gan + gan gets the chain's label. The table has exactly the
      100 stem-pair keys. */
  method GenerateShiShenGan() returns (table: map<string, string>)
    ensures forall k :: k in table <==> ShiShenGan(k).Some?
    ensures forall k :: k in table ==> table[k] == ShiShenGan(k).value
    ensures |table| == 100
  {
    table := map[];
    for i := 0 to 10
      invariant Filled(table, 10 * i)
    {
      for j := 0 to 10
        invariant Filled(table, 10 * i + j)
      {
        var key := [TG[i], TG[j]];
        FilledStep(table, i, j);
        table := table[key := DerivedLabel(i, j)];
      }
    }
    forall k | ShiShenGan(k).Some?
      ensures k in table
    {
      assert KeyRank(k) < 100;
    }
  }

  /** The table holds exactly the keys of rank below n, with their labels. */
  ghost predicate Filled(table: map<string, string>, n: int)
  {
    && |table| == n
    && (forall k :: k in table ==> |k| == 2 && k[0] in TG && k[1] in TG && KeyRank(k) < n)
    && (forall k :: k in table ==> table[k] == ShiShenGan(k).value)
    && (forall k :: ShiShenGan(k).Some? && KeyRank(k) < n ==> k in table)
  }

  /** Adding the key of rank n to a table filled below n fills it below
      n + 1. */
  lemma FilledStep(table: map<string, string>, d: Stem, t: Stem)
    requires Filled(table, 10 * d + t)
    ensures Filled(table[[TG[d], TG[t]] := DerivedLabel(d, t)], 10 * d + t + 1)
  {
    var key := [TG[d], TG[t]];
    KeyOfPair(d, t);
    FilledKeys(table, key, DerivedLabel(d, t), 10 * d + t);
    FilledCover(table, d, t, DerivedLabel(d, t));
  }

  /** Adding the key of rank n covers every stem-pair key below n + 1. */
  lemma FilledCover(table: map<string, string>, d: Stem, t: Stem, text: string)
    requires forall k :: ShiShenGan(k).Some? && KeyRank(k) < 10 * d + t ==> k in table
    ensures forall k :: ShiShenGan(k).Some? && KeyRank(k) < 10 * d + t + 1 ==> k in table[[TG[d], TG[t]] := text]
  {
    forall k | ShiShenGan(k).Some? && KeyRank(k) < 10 * d + t + 1
      ensures k in table[[TG[d], TG[t]] := text]
    {
      if KeyRank(k) == 10 * d + t {
        KeyOfRank(k, d, t);
      }
    }
  }

  /** Adding a table key of rank n with its label keeps every key a stem pair
      of rank below n + 1 with its label. */
  lemma FilledKeys(table: map<string, string>, key: string, text: string, n: int)
    requires forall k :: k in table ==> |k| == 2 && k[0] in TG && k[1] in TG && KeyRank(k) < n
    requires forall k :: k in table ==> table[k] == ShiShenGan(k).value
    requires |table| == n
    requires |key| == 2 && key[0] in TG && key[1] in TG && KeyRank(key) == n
    requires ShiShenGan(key) == Some(text)
    ensures |table[key := text]| == n + 1
    ensures forall k :: k in table[key := text] ==> |k| == 2 && k[0] in TG && k[1] in TG && KeyRank(k) < n + 1
    ensures forall k :: k in table[key := text] ==> table[key := text][k] == ShiShenGan(k).value
  {
    assert key !in table;
  }

  /** The key of a pair is a table key at the pair's rank. */
  lemma KeyOfPair(d: Stem, t: Stem)
    ensures ShiShenGan([TG[d], TG[t]]) == Some(DerivedLabel(d, t))
    ensures KeyRank([TG[d], TG[t]]) == 10 * d + t
  {
    GlyphRoundTrip();
  }

  /** A key is determined by its rank. */
  lemma KeyOfRank(k: string, d: Stem, t: Stem)
    requires ShiShenGan(k).Some? && KeyRank(k) == 10 * d + t
    ensures k == [TG[d], TG[t]]
  {
    assert StemOf(k[0]).value == d && StemOf(k[1]).value == t;
  }

  /** get_relation: the generated table for a stem target, SHI_SHEN_ZHI for a
      branch target, "" otherwise and for a day stem not in the tables. */
  function GetRelation(dayGan: string, target: string): (r: string)
    ensures StemText(dayGan).None? ==> r == ""
    ensures StemText(target).None? && BranchText(target).None? ==> r == ""
  {
    // `target in TIAN_GAN` and `target in DI_ZHI`, by TianGanDiZhi
    if StemText(target).Some? then ShiShenGan(dayGan + target).GetOr("")
    else if BranchText(target).Some? then ShiShenZhi(dayGan + target).GetOr("")
    else ""
  }

  /** For a day stem, a stem target gets the derived label. */
  lemma GetRelationOfStems(d: Stem, t: Stem)
    ensures GetRelation([TG[d]], [TG[t]]) == Label(KinGod(Kin(StemElement(d), StemElement(t)), IsYang(d) == IsYang(t)))
  {
    GlyphRoundTrip();
    assert [TG[d]] + [TG[t]] == [TG[d], TG[t]];
    KeyOfPair(d, t);
    DerivedByKin(d, t);
  }

  /** For a day stem, a branch target gets the SHI_SHEN_ZHI label. */
  lemma GetRelationOfBranch(d: Stem, z: Branch)
    ensures GetRelation([TG[d]], [DZ[z]]) == Label(ShiShenZhiGod(d, z))
  {
    GlyphRoundTrip();
    GlyphsDisjoint(d, z);
    assert [TG[d]] + [DZ[z]] == [TG[d], DZ[z]];
    ShiShenZhiOfPillar(d, z);
  }

  /** get_relation_by_pillar: 童限 unchanged; for two or more glyphs the
      abbreviations of the stem and branch relations, "" for a relation
      without one; "" for shorter input. */
  function GetRelationByPillar(dayGan: string, pillar: string): (r: string)
    ensures |pillar| < 2 ==> r == ""
  {
    if pillar == "童限" then "童限"
    else if |pillar| >= 2 then
      Simplifie(GetRelation(dayGan, [pillar[0]])).GetOr("") + Simplifie(GetRelation(dayGan, [pillar[1]])).GetOr("")
    else ""
  }

  /** The childhood marker passes through unchanged. */
  lemma GetRelationByPillarChildhood(dayGan: string)
    ensures GetRelationByPillar(dayGan, "童限") == "童限"
  {
  }

  /** A day stem outside the tables relates to nothing. */
  lemma GetRelationByPillarUnknownDay(dayGan: string, pillar: string)
    requires pillar != "童限" && StemText(dayGan).None?
    ensures GetRelationByPillar(dayGan, pillar) == ""
  {
  }

  /** A day stem and a pillar give the two one-glyph abbreviations. */
  lemma GetRelationByPillarOfPillar(d: Stem, p: Pillar)
    ensures GetRelationByPillar([TG[d]], PillarText(p))
         == [Abbrev(KinGod(Kin(StemElement(d), StemElement(p.stem)), IsYang(d) == IsYang(p.stem))),
             Abbrev(ShiShenZhiGod(d, p.branch))]
  {
    var s := PillarText(p);
    assert s != "童限" by {
      assert StemOf(s[0]).Some? && StemOf('童').None?;
    }
    assert [s[0]] == [TG[p.stem]] && [s[1]] == [DZ[p.branch]];
    GetRelationOfStems(d, p.stem);
    GetRelationOfBranch(d, p.branch);
    SimplifieOfLabel(KinGod(Kin(StemElement(d), StemElement(p.stem)), IsYang(d) == IsYang(p.stem)));
    SimplifieOfLabel(ShiShenZhiGod(d, p.branch));
  }

  /** get_simplified_relation: the abbreviation of a label, anything else
      unchanged. */
  function GetSimplifiedRelation(relation: string): (r: string)
    ensures GodOfLabel(relation).None? ==> r == relation
    ensures GodOfLabel(relation).Some? ==> r == [Abbrev(GodOfLabel(relation).value)]
  {
    Simplifie(relation).GetOr(relation)
  }

  /** An abbreviation is not itself a label, so simplifying twice is
      simplifying once. */
  lemma GetSimplifiedRelationIdempotent(relation: string)
    ensures GetSimplifiedRelation(GetSimplifiedRelation(relation)) == GetSimplifiedRelation(relation)
  {
    var r := GetSimplifiedRelation(relation);
    if GodOfLabel(relation).Some? {
      assert |r| == 1;
      LabelLength(r);
    }
  }

  lemma LabelLength(s: string)
    ensures GodOfLabel(s).Some? ==> |s| == 2
  {
  }
}
