/** The symbols every calculator shares: the ten heavenly stems, the twelve
    earthly branches, the five elements with their generation and conquest
    cycles, and stem-branch pillars on the sixty-term cycle.

    Stems are the indices 0..9 of 甲乙丙丁戊己庚辛壬癸 and branches the
    indices 0..11 of 子丑寅卯辰巳午未申酉戌亥, as the source's lists
    TG/DZ (and their copies TIAN_GAN/DI_ZHI, tg_list/dz_list) order them.
    The source keys its dictionaries by glyph strings; StemText and
    BranchText give the lookup of a Python string key. */
module Sexagenary {

  datatype Option<+T> = None | Some(value: T) {
    /** dict.get(key, default) */
    function GetOr(default: T): T {
      match this
      case Some(v) => v
      case None => default
    }
  }

  /** The fallback string the calculators return for a key they lack. */
  const Unknown: string := "未知"

  type Stem = i: int | 0 <= i < 10
  type Branch = i: int | 0 <= i < 12

  const TG: string := "甲乙丙丁戊己庚辛壬癸"
  const DZ: string := "子丑寅卯辰巳午未申酉戌亥"

  /** TG.index(c), or None where Python's index would raise. */
  function StemOf(c: char): (r: Option<Stem>)
    ensures r.Some? <==> c in TG
    ensures r.Some? ==> TG[r.value] == c
  {
    match c
    case '甲' => Some(0)
    case '乙' => Some(1)
    case '丙' => Some(2)
    case '丁' => Some(3)
    case '戊' => Some(4)
    case '己' => Some(5)
    case '庚' => Some(6)
    case '辛' => Some(7)
    case '壬' => Some(8)
    case '癸' => Some(9)
    case _ => None
  }

  /** DZ.index(c), or None where Python's index would raise. */
  function BranchOf(c: char): (r: Option<Branch>)
    ensures r.Some? <==> c in DZ
    ensures r.Some? ==> DZ[r.value] == c
  {
    match c
    case '子' => Some(0)
    case '丑' => Some(1)
    case '寅' => Some(2)
    case '卯' => Some(3)
    case '辰' => Some(4)
    case '巳' => Some(5)
    case '午' => Some(6)
    case '未' => Some(7)
    case '申' => Some(8)
    case '酉' => Some(9)
    case '戌' => Some(10)
    case '亥' => Some(11)
    case _ => None
  }

  /** The stem a Python string names: `s in TIAN_GAN` holds exactly for the
      ten one-glyph strings. */
  function StemText(s: string): (r: Option<Stem>)
    ensures r.Some? <==> |s| == 1 && s[0] in TG
    ensures r.Some? ==> s == [TG[r.value]]
  {
    if |s| == 1 then StemOf(s[0]) else None
  }

  /** The branch a Python string names. */
  function BranchText(s: string): (r: Option<Branch>)
    ensures r.Some? <==> |s| == 1 && s[0] in DZ
    ensures r.Some? ==> s == [DZ[r.value]]
  {
    if |s| == 1 then BranchOf(s[0]) else None
  }

  /** The glyph tables hold ten and twelve distinct symbols, so every glyph
      decodes back to its own index. */
  lemma GlyphRoundTrip()
    ensures |TG| == 10 && |DZ| == 12
    ensures forall i, j :: 0 <= i < j < 10 ==> TG[i] != TG[j]
    ensures forall i, j :: 0 <= i < j < 12 ==> DZ[i] != DZ[j]
    ensures forall s: Stem :: StemOf(TG[s]) == Some(s) && StemText([TG[s]]) == Some(s)
    ensures forall b: Branch :: BranchOf(DZ[b]) == Some(b) && BranchText([DZ[b]]) == Some(b)
  {
  }

  /** No glyph is both a stem and a branch. */
  lemma GlyphsDisjoint(s: Stem, b: Branch)
    ensures StemOf(DZ[b]).None? && BranchOf(TG[s]).None?
  {
  }

  datatype Element = Wood | Fire | Earth | Metal | Water

  /** 木火土金水 */
  function ElementGlyph(e: Element): char
  {
    match e
    case Wood => '木'
    case Fire => '火'
    case Earth => '土'
    case Metal => '金'
    case Water => '水'
  }

  /** ELE: consecutive stems share an element, 甲乙 wood up to 壬癸 water. */
  function StemElement(s: Stem): Element
  {
    match s
    case 0 | 1 => Wood
    case 2 | 3 => Fire
    case 4 | 5 => Earth
    case 6 | 7 => Metal
    case 8 | 9 => Water
  }

  /** DZ_ELE: 子亥 water, 寅卯 wood, 巳午 fire, 申酉 metal, 辰戌丑未 earth. */
  function BranchElement(b: Branch): Element
  {
    match b
    case 0 | 11 => Water
    case 2 | 3 => Wood
    case 5 | 6 => Fire
    case 8 | 9 => Metal
    case 1 | 4 | 7 | 10 => Earth
  }

  /** YIN_YANG: the stems alternate yang, yin, starting with yang 甲. */
  predicate IsYang(s: Stem)
  {
    s % 2 == 0
  }

  /** WU_XING_SHENG: wood feeds fire feeds earth feeds metal feeds water feeds wood. */
  function Generates(e: Element): Element
  {
    match e
    case Wood => Fire
    case Fire => Earth
    case Earth => Metal
    case Metal => Water
    case Water => Wood
  }

  /** WU_XING_KE: wood parts earth, earth dams water, water quenches fire,
      fire melts metal, metal cuts wood. */
  function Conquers(e: Element): Element
  {
    match e
    case Wood => Earth
    case Fire => Metal
    case Earth => Water
    case Metal => Wood
    case Water => Fire
  }

  /** Conquest skips one step of the generation cycle. */
  lemma ConquestIsTwoGenerations(e: Element)
    ensures Conquers(e) == Generates(Generates(e))
  {
  }

  /** For two different elements exactly one of the four generation and
      conquest tests holds, in one direction or the other. */
  lemma FourRelationsPartition(a: Element, b: Element)
    requires a != b
    ensures Indicator(Generates(a) == b) + Indicator(Generates(b) == a)
          + Indicator(Conquers(a) == b) + Indicator(Conquers(b) == a) == 1
  {
  }

  function Indicator(b: bool): nat
  {
    if b then 1 else 0
  }

  /** How a target element stands to the day master's element. */
  datatype Kinship =
    | Peer        // the same element
    | Feeds       // the day master generates the target
    | FedBy       // the target generates the day master
    | Controls    // the day master conquers the target
    | ControlledBy  // the target conquers the day master

  function Kin(self: Element, other: Element): (k: Kinship)
    ensures k == Peer <==> self == other
    ensures k == Feeds <==> self != other && Generates(self) == other
    ensures k == FedBy <==> self != other && Generates(other) == self
    ensures k == Controls <==> self != other && Conquers(self) == other
    ensures k == ControlledBy <==> self != other && Conquers(other) == self
  {
    if self == other then Peer
    else if Generates(self) == other then Feeds
    else if Generates(other) == self then FedBy
    else if Conquers(self) == other then Controls
    else ControlledBy
  }

  /** The kinship to the day master's element names the target element. */
  lemma KinInjective(self: Element, a: Element, b: Element)
    requires Kin(self, a) == Kin(self, b)
    ensures a == b
  {
  }

  /** Stems of the same element; the pair 甲乙, 丙丁, ... shares one. */
  lemma StemElementPairs(s: Stem, t: Stem)
    ensures StemElement(s) == StemElement(t) <==> s / 2 == t / 2
  {
  }

  /** A stem-branch pair. The sixty pairs of equal parity are the pillars of
      the sexagenary cycle. */
  datatype Pillar = Pillar(stem: Stem, branch: Branch) {
    predicate Valid() {
      stem % 2 == branch % 2
    }
  }

  /** Position i of the cycle: stem i mod 10, branch i mod 12. */
  function CyclePillar(i: int): (p: Pillar)
    ensures p.Valid()
    ensures p.stem == i % 10 && p.branch == i % 12
  {
    assert i == 10 * (i / 10) + i % 10 && i == 12 * (i / 12) + i % 12;
    Pillar(i % 10, i % 12)
  }

  /** The position 0..59 of a valid pillar in the cycle: its branch plus
      twelve for every two steps the stem runs ahead of the branch. */
  function CycleIndex(p: Pillar): (i: nat)
    requires p.Valid()
    ensures i < 60 && CyclePillar(i) == p
  {
    var k := ((p.stem - p.branch) % 10) / 2;
    CycleIndexResidues(p.stem, p.branch, k);
    p.branch + 12 * k
  }

  lemma CycleIndexResidues(s: int, b: int, k: int)
    requires 0 <= s < 10 && 0 <= b < 12 && s % 2 == b % 2
    requires k == ((s - b) % 10) / 2
    ensures 0 <= k < 5
    ensures (b + 12 * k) % 10 == s && (b + 12 * k) % 12 == b
  {
    var q := (s - b) / 10;
    var d := (s - b) % 10;
    assert s - b == 10 * q + d;
    EvenRemainder(s, b, q, d);
    assert b + 12 * k == s + 10 * (k - q);
    TenMultipleAdded(s, k - q);
    TwelveMultipleAdded(b, k);
  }

  /** Ten is even, so the remainder of an even difference is even. */
  lemma EvenRemainder(s: int, b: int, q: int, d: int)
    requires s % 2 == b % 2 && s - b == 10 * q + d && 0 <= d < 10
    ensures d == 2 * (d / 2)
  {
    assert d == (s - 5 * q * 2) - b;
  }

  lemma TenMultipleAdded(x: int, m: int)
    requires 0 <= x < 10
    ensures (x + 10 * m) % 10 == x
  {
  }

  lemma TwelveMultipleAdded(x: int, m: int)
    requires 0 <= x < 12
    ensures (x + 12 * m) % 12 == x
  {
  }

  /** Positions 0..59 and valid pillars correspond one to one. */
  lemma CycleRoundTrip(i: int)
    ensures CycleIndex(CyclePillar(i)) == i % 60
  {
    var p := CyclePillar(i);
    ModOfSixty(i);
    CongruentBelowSixty(CycleIndex(p), i % 60);
  }

  /** Reducing modulo 60 keeps the residues modulo 10 and 12. */
  lemma ModOfSixty(i: int)
    ensures (i % 60) % 10 == i % 10 && (i % 60) % 12 == i % 12
  {
    var q := i / 60;
    assert i == i % 60 + 10 * (6 * q) && i == i % 60 + 12 * (5 * q);
    TensDropped(i % 60, 6 * q);
    TwelvesDropped(i % 60, 5 * q);
  }

  lemma TensDropped(x: int, m: int)
    ensures (x + 10 * m) % 10 == x % 10
  {
  }

  lemma TwelvesDropped(x: int, m: int)
    ensures (x + 12 * m) % 12 == x % 12
  {
  }

  lemma TwosDropped(x: int, m: int)
    ensures (x + 2 * m) % 2 == x % 2
  {
  }

  /** The Chinese remainder theorem for 10 and 12 on 0..59. */
  lemma CongruentBelowSixty(j: int, k: int)
    requires 0 <= j < 60 && 0 <= k < 60
    requires j % 10 == k % 10 && j % 12 == k % 12
    ensures j == k
  {
    var a := j / 10 - k / 10;
    assert j - k == 10 * a;
    var b := j / 12 - k / 12;
    assert j - k == 12 * b;
    assert -5 <= a <= 5;
  }

  /** A pair is a cycle position exactly when its stem and branch have the
      same parity. */
  lemma ValidIffOnCycle(p: Pillar)
    ensures p.Valid() <==> exists i :: 0 <= i < 60 && CyclePillar(i) == p
  {
    if p.Valid() {
      assert CyclePillar(CycleIndex(p)) == p;
    }
  }

  /** The void pair of a pillar: the two branches its decade (旬) of the
      cycle leaves without a stem, ten and eleven places past its branch
      counted from its stem. */
  function VoidBranches(p: Pillar): (Branch, Branch)
  {
    ((p.branch - p.stem + 10) % 12, (p.branch - p.stem + 11) % 12)
  }

  /** Decade k of the cycle, positions 10k to 10k + 9, leaves the branches
      10 - 2k and 11 - 2k without a stem. */
  lemma VoidOfCycle(i: nat)
    requires i < 60
    ensures VoidBranches(CyclePillar(i)) == (10 - 2 * (i / 10), 11 - 2 * (i / 10))
  {
    var k, q := i / 10, i / 12;
    assert i == 10 * k + i % 10 && i == 12 * q + i % 12;
    var d := 10 - 2 * k;
    assert 0 <= d < 12;
    assert i % 12 - i % 10 + 10 == d + 12 * (k - q);
    TwelveMultipleAdded(d, k - q);
    TwelveMultipleAdded(d + 1, k - q);
  }

  /** The two-glyph text of a pillar, TG[g] + DZ[z]. */
  function PillarText(p: Pillar): (s: string)
    ensures |s| == 2 && StemOf(s[0]) == Some(p.stem) && BranchOf(s[1]) == Some(p.branch)
  {
    [TG[p.stem], DZ[p.branch]]
  }

  /** The stem and branch glyphs that begin a Python pillar string. */
  function ParsePillar(s: string): (r: Option<Pillar>)
    ensures r.Some? <==> |s| >= 2 && s[0] in TG && s[1] in DZ
    ensures r.Some? ==> PillarText(r.value) == s[..2]
  {
    if |s| >= 2 && StemOf(s[0]).Some? && BranchOf(s[1]).Some? then
      Some(Pillar(StemOf(s[0]).value, BranchOf(s[1]).value))
    else None
  }

  /** Rendering and parsing are inverse. */
  lemma PillarTextRoundTrip(p: Pillar)
    ensures ParsePillar(PillarText(p)) == Some(p)
  {
  }

  /** Decimal text of an integer, as Python's str() and f-strings render it. */
  function IntText(n: int): (s: string)
    ensures |s| > 0
    decreases if n < 0 then 1 - n else n
  {
    if n < 0 then "-" + IntText(-n)
    else if n < 10 then [DigitGlyph(n)]
    else IntText(n / 10) + [DigitGlyph(n % 10)]
  }

  function DigitGlyph(d: int): char
    requires 0 <= d < 10
  {
    "0123456789"[d]
  }

  /** A prefix grows by the next element. */
  lemma PrefixStep<T>(s: seq<T>, i: nat)
    requires i < |s|
    ensures s[..i] + [s[i]] == s[..i + 1]
  {
  }

  /** The one-glyph string of a stem or branch reads back as it. */
  lemma StemGlyphText(s: Stem)
    ensures StemText([TG[s]]) == Some(s)
  {
    GlyphRoundTrip();
  }

  lemma BranchGlyphText(b: Branch)
    ensures BranchText([DZ[b]]) == Some(b)
  {
    GlyphRoundTrip();
  }

  /** The cycle repeats after sixty places. */
  lemma CycleSixty(i: int)
    ensures CyclePillar(i + 60) == CyclePillar(i)
  {
    TensDropped(i, 6);
    TwelvesDropped(i, 5);
  }
}
