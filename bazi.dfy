/**
 * The simplified four-pillar (BaZi) and five-element engine of the profile
 * page: stems and branches chosen by modular arithmetic on the birth date and
 * hour, a tally of the pillars' stem elements, and the dominant element.
 */
module BaZi {
  import opened Wrappers

  datatype Element = Wood | Fire | Earth | Metal | Water

  /** The keys of the tally record in insertion order: 木, 火, 土, 金, 水. */
  const ELEMENT_ORDER: seq<Element> := [Wood, Fire, Earth, Metal, Water]
  const ALL_ELEMENTS: set<Element> := {Wood, Fire, Earth, Metal, Water}

  function ElementName(e: Element): string {
    match e
    case Wood => "木"
    case Fire => "火"
    case Earth => "土"
    case Metal => "金"
    case Water => "水"
  }

  /** Position of `e` in ELEMENT_ORDER. */
  function ElementIndex(e: Element): (i: nat)
    ensures i < |ELEMENT_ORDER| && ELEMENT_ORDER[i] == e
  {
    match e
    case Wood => 0
    case Fire => 1
    case Earth => 2
    case Metal => 3
    case Water => 4
  }

  const STEMS: seq<string> := ["甲", "乙", "丙", "丁", "戊", "己", "庚", "辛", "壬", "癸"]
  const BRANCHES: seq<string> := ["子", "丑", "寅", "卯", "辰", "巳", "午", "未", "申", "酉", "戌", "亥"]

  /** The element of each heavenly stem. */
  const STEM_WUXING: map<string, Element> :=
    map["甲" := Wood, "乙" := Wood, "丙" := Fire, "丁" := Fire, "戊" := Earth,
        "己" := Earth, "庚" := Metal, "辛" := Metal, "壬" := Water, "癸" := Water]

  datatype Pillar = Pillar(stem: string, branch: string)

  /** The four pillars of a birth chart. */
  datatype Chart = Chart(year: Pillar, month: Pillar, day: Pillar, hour: Pillar)

  /**
   * A stem-branch pair of the sixty-pair cycle: a stem and a branch whose
   * indices have equal parity (yang stems go with yang branches).
   */
  predicate IsSexagenaryPair(p: Pillar) {
    exists s: nat, b: nat :: s < 10 && b < 12 && s % 2 == b % 2
                            && p.stem == STEMS[s] && p.branch == BRANCHES[b]
  }

  /** The pillar read off index `k`: stem `k mod 10`, branch `k mod 12`. */
  function PillarAt(k: nat): (p: Pillar)
    ensures IsSexagenaryPair(p)
  {
    ModParity(k);
    PairAt(k % 10, k % 12);
    Pillar(STEMS[k % 10], BRANCHES[k % 12])
  }

  /** Ten and twelve are even, so both remainders keep the parity of `k`. */
  lemma ModParity(k: nat)
    ensures (k % 10) % 2 == k % 2 && (k % 12) % 2 == k % 2
  {
    ModParityBy(k, 10);
    ModParityBy(k, 12);
  }

  /** Taking the remainder by an even modulus keeps parity. */
  lemma ModParityBy(k: nat, m: nat)
    requires m == 10 || m == 12
    ensures (k % m) % 2 == k % 2
  {
    var q, r := k / m, k % m;
    var a, c := k / 2, r / 2;
    assert k == m * q + r;
    assert k == 2 * a + k % 2 && r == 2 * c + r % 2;
    var h := if m == 10 then 5 * q else 6 * q;
    assert m * q == 2 * h;
    assert k % 2 - r % 2 == 2 * (h + c - a);
  }

  lemma PairAt(s: nat, b: nat)
    requires s < 10 && b < 12 && s % 2 == b % 2
    ensures IsSexagenaryPair(Pillar(STEMS[s], BRANCHES[b]))
  {
  }

  /**
   * `calcBaZi` for a birth at local date y-(m+1)-d, hour h (m is 0-based as in
   * `getMonth()`). Year >= 4 keeps `(y - 4) % 10` non-negative, where
   * JavaScript's remainder and Dafny's agree.
   */
  function CalcBaZi(y: int, m: int, d: int, h: int): (r: Chart)
    requires y >= 4 && 0 <= m < 12 && 1 <= d <= 31 && 0 <= h < 24
    ensures IsSexagenaryPair(r.year) && IsSexagenaryPair(r.month)
    ensures IsSexagenaryPair(r.day) && IsSexagenaryPair(r.hour)
    ensures r.year.stem == STEMS[(y - 4) % 10] && r.year.branch == BRANCHES[(y - 4) % 12]
    ensures r.month.stem == STEMS[(m + 2) % 10] && r.month.branch == BRANCHES[(m + 2) % 12]
    ensures r.day.stem == STEMS[(d + 5) % 10] && r.day.branch == BRANCHES[(d + 5) % 12]
    ensures r.hour.stem == STEMS[(h / 2) % 10] && r.hour.branch == BRANCHES[(h / 2) % 12]
  {
    Chart(PillarAt(y - 4), PillarAt(m + 2), PillarAt(d + 5), PillarAt(h / 2))
  }

  /** The year pillar repeats every sixty years. */
  lemma YearPillarPeriodic(y: int, m: int, d: int, h: int)
    requires y >= 4 && 0 <= m < 12 && 1 <= d <= 31 && 0 <= h < 24
    ensures CalcBaZi(y + 60, m, d, h).year == CalcBaZi(y, m, d, h).year
  {
    var k := y - 4;
    assert k + 60 == 10 * 6 + k && (k + 60) % 10 == k % 10;
    assert k + 60 == 12 * 5 + k && (k + 60) % 12 == k % 12;
  }

  /** The two hours of one double-hour share the hour pillar. */
  lemma HourPillarPairs(y: int, m: int, d: int, k: int)
    requires y >= 4 && 0 <= m < 12 && 1 <= d <= 31 && 0 <= k < 12
    ensures CalcBaZi(y, m, d, 2 * k).hour == CalcBaZi(y, m, d, 2 * k + 1).hour
  {
    assert (2 * k) / 2 == k == (2 * k + 1) / 2;
  }

  /** The pillars in the order `Object.values` visits them. */
  function Pillars(c: Chart): seq<Pillar> {
    [c.year, c.month, c.day, c.hour]
  }

  predicate StemsKnown(ps: seq<Pillar>) {
    forall i :: 0 <= i < |ps| ==> ps[i].stem in STEM_WUXING
  }

  /** How many of the pillars have a stem of element `e`. */
  function CountOf(ps: seq<Pillar>, e: Element): nat
    requires StemsKnown(ps)
    decreases |ps|
  {
    if |ps| == 0 then 0
    else CountOf(ps[..|ps| - 1], e) + (if STEM_WUXING[ps[|ps| - 1].stem] == e then 1 else 0)
  }

  type Tally = map<Element, int>

  /** The element tally of a chart: one count per element. */
  function TallyOf(c: Chart): (t: Tally)
    requires StemsKnown(Pillars(c))
    ensures t.Keys == ALL_ELEMENTS
  {
    map e | e in ALL_ELEMENTS :: CountOf(Pillars(c), e)
  }

  /** Every pillar adds one to exactly one element, so the counts sum to the number of pillars. */
  lemma {:induction false} CountsSum(ps: seq<Pillar>)
    requires StemsKnown(ps)
    ensures CountOf(ps, Wood) + CountOf(ps, Fire) + CountOf(ps, Earth)
            + CountOf(ps, Metal) + CountOf(ps, Water) == |ps|
    decreases |ps|
  {
    if ps != [] {
      CountsSum(ps[..|ps| - 1]);
    }
  }

  /** A chart's tally sums to four, one per pillar. */
  lemma TallySumsToFour(c: Chart)
    requires StemsKnown(Pillars(c))
    ensures TallyOf(c)[Wood] + TallyOf(c)[Fire] + TallyOf(c)[Earth]
            + TallyOf(c)[Metal] + TallyOf(c)[Water] == 4
  {
    CountsSum(Pillars(c));
  }

  /**
   * The first index of `es` holding a maximal count: every count is at most
   * its count, and every earlier one is strictly smaller.
   */
  function FirstMaxIndex(es: seq<Element>, count: Tally): (k: nat)
    requires |es| > 0 && forall i :: 0 <= i < |es| ==> es[i] in count
    ensures k < |es|
    ensures forall i :: 0 <= i < |es| ==> count[es[i]] <= count[es[k]]
    ensures forall i :: 0 <= i < k ==> count[es[i]] < count[es[k]]
    decreases |es|
  {
    if |es| == 1 then 0
    else
      var k' := FirstMaxIndex(es[1..], count);
      if count[es[0]] >= count[es[k' + 1]] then 0 else k' + 1
  }

  /**
   * The head of the tally's entries sorted by count, descending, with a stable
   * sort: the first element in 木, 火, 土, 金, 水 order whose count is maximal.
   */
  function Dominant(count: Tally): (e: Element)
    requires ALL_ELEMENTS <= count.Keys
    ensures e in ALL_ELEMENTS
    ensures forall x :: x in ALL_ELEMENTS ==> count[x] <= count[e]
    ensures forall i :: 0 <= i < ElementIndex(e) ==> count[ELEMENT_ORDER[i]] < count[e]
  {
    var k := FirstMaxIndex(ELEMENT_ORDER, count);
    assert ElementIndex(ELEMENT_ORDER[k]) == k;
    forall x | x in ALL_ELEMENTS ensures count[x] <= count[ELEMENT_ORDER[k]] {
      assert ELEMENT_ORDER[ElementIndex(x)] == x;
    }
    ELEMENT_ORDER[k]
  }

  /** Those two properties pin the dominant element down uniquely. */
  lemma DominantUnique(count: Tally, e: Element)
    requires ALL_ELEMENTS <= count.Keys
    requires forall x :: x in ALL_ELEMENTS ==> count[x] <= count[e]
    requires forall i :: 0 <= i < ElementIndex(e) ==> count[ELEMENT_ORDER[i]] < count[e]
    ensures Dominant(count) == e
  {
    var d := Dominant(count);
    assert count[d] <= count[e] && count[e] <= count[d];
    assert ELEMENT_ORDER[ElementIndex(d)] == d && ELEMENT_ORDER[ElementIndex(e)] == e;
  }

  /**
   * `calcWuxing`: tallies the stem element of each pillar into a fresh count
   * record, then picks the dominant element.
   */
  method CalcWuxing(c: Chart) returns (count: Tally, main: Element)
    requires StemsKnown(Pillars(c))
    ensures count == TallyOf(c) && main in ALL_ELEMENTS
    ensures forall x :: x in ALL_ELEMENTS ==> count[x] <= count[main]
    ensures forall i :: 0 <= i < ElementIndex(main) ==> count[ELEMENT_ORDER[i]] < count[main]
  {
    count := map[Wood := 0, Fire := 0, Earth := 0, Metal := 0, Water := 0];
    var ps := Pillars(c);
    for i := 0 to |ps|
      invariant count.Keys == ALL_ELEMENTS
      invariant forall e :: e in ALL_ELEMENTS ==> count[e] == CountOf(ps[..i], e)
    {
      var w := STEM_WUXING[ps[i].stem];
      TallyStep(count, ps, i);
      count := count[w := count[w] + 1];
    }
    assert ps[..|ps|] == ps;
    TallyOfCounts(count, c);
    main := Dominant(count);
  }

  /** A map with one entry per element holding that element's count is the chart's tally. */
  lemma TallyOfCounts(count: Tally, c: Chart)
    requires StemsKnown(Pillars(c)) && count.Keys == ALL_ELEMENTS
    requires forall e :: e in ALL_ELEMENTS ==> count[e] == CountOf(Pillars(c), e)
    ensures count == TallyOf(c)
  {
  }

  /** Counting one more pillar adds one to its stem's element and nothing to the others. */
  lemma TallyStep(count: Tally, ps: seq<Pillar>, i: nat)
    requires i < |ps| && StemsKnown(ps) && count.Keys == ALL_ELEMENTS
    requires forall e :: e in ALL_ELEMENTS ==> count[e] == CountOf(ps[..i], e)
    ensures var w := STEM_WUXING[ps[i].stem];
            var next := count[w := count[w] + 1];
            next.Keys == ALL_ELEMENTS && forall e :: e in ALL_ELEMENTS ==> next[e] == CountOf(ps[..i + 1], e)
  {
    var w := STEM_WUXING[ps[i].stem];
    assert w in ALL_ELEMENTS;
    var pre := ps[..i + 1];
    assert pre[..i] == ps[..i] && pre[i] == ps[i];
    assert forall e :: CountOf(pre, e) == CountOf(ps[..i], e) + (if w == e then 1 else 0);
  }

  /** The tally of four pillars, element by element. */
  lemma CountOfFour(p0: Pillar, p1: Pillar, p2: Pillar, p3: Pillar, e: Element)
    requires p0.stem in STEM_WUXING && p1.stem in STEM_WUXING
    requires p2.stem in STEM_WUXING && p3.stem in STEM_WUXING
    ensures CountOf([p0, p1, p2, p3], e)
            == (if STEM_WUXING[p0.stem] == e then 1 else 0) + (if STEM_WUXING[p1.stem] == e then 1 else 0)
             + (if STEM_WUXING[p2.stem] == e then 1 else 0) + (if STEM_WUXING[p3.stem] == e then 1 else 0)
  {
    var ps := [p0, p1, p2, p3];
    assert StemsKnown(ps);
    assert ps[..3] == [p0, p1, p2];
    assert ps[..3][..2] == [p0, p1];
    assert ps[..3][..2][..1] == [p0];
    assert ps[..3][..2][..1][..0] == [];
    assert CountOf([p0], e) == (if STEM_WUXING[p0.stem] == e then 1 else 0);
    assert CountOf([p0, p1], e) == CountOf([p0], e) + (if STEM_WUXING[p1.stem] == e then 1 else 0);
    assert CountOf([p0, p1, p2], e) == CountOf([p0, p1], e) + (if STEM_WUXING[p2.stem] == e then 1 else 0);
  }

  /** The chart of the page's default birth, 1993-08-10 09:30: 癸酉 癸酉 己卯 戊辰. */
  const DEFAULT_CHART: Chart :=
    Chart(Pillar("癸", "酉"), Pillar("癸", "酉"), Pillar("己", "卯"), Pillar("戊", "辰"))

  lemma DefaultBirthPillars()
    ensures CalcBaZi(1993, 7, 10, 9) == DEFAULT_CHART
  {
    assert (1993 - 4) % 10 == 9 && (1993 - 4) % 12 == 9;
    assert (7 + 2) % 10 == 9 && (7 + 2) % 12 == 9;
    assert (10 + 5) % 10 == 5 && (10 + 5) % 12 == 3;
    assert (9 / 2) % 10 == 4 && (9 / 2) % 12 == 4;
  }

  /** Its tally is earth 2, water 2; the tie goes to earth, which comes first. */
  lemma DefaultChartTally()
    ensures StemsKnown(Pillars(DEFAULT_CHART))
    ensures TallyOf(DEFAULT_CHART) == map[Wood := 0, Fire := 0, Earth := 2, Metal := 0, Water := 2]
    ensures Dominant(TallyOf(DEFAULT_CHART)) == Earth
  {
    var c := DEFAULT_CHART;
    var t := TallyOf(c);
    forall e | e in ALL_ELEMENTS
      ensures t[e] == (if e == Earth || e == Water then 2 else 0)
    {
      CountOfFour(c.year, c.month, c.day, c.hour, e);
    }
    assert t == map[Wood := 0, Fire := 0, Earth := 2, Metal := 0, Water := 2];
    DominantUnique(t, Earth);
  }
}
