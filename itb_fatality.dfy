/** The ITB earthquake fatality model: the population grid is split into
    MMI levels, each level's fatalities follow the ITB power law, the
    displaced people of a level are corrected for its fatalities, and the
    displaced grid is masked below a tolerance. The totals are rounded to
    thousands and recorded in a breakdown and the impact keywords. */
module ItbFatality {
  import opened Common
  import opened Keywords
  import opened TableFormatter

  /** The function's parameters: the model coefficients x and y, the rate
      of displaced people per MMI level, the levels, the half width of a
      level, the transparency tolerance and whether displaced people are
      reported. */
  datatype Params = Params(
    x: real, y: real, displacementRate: map<int, real>, mmiRange: seq<int>,
    step: real, tolerance: real, calculateDisplaced: bool)

  /** No one is displaced up to MMI 5, everyone affected from MMI 6. */
  const DefaultRates: map<int, real> :=
    map[1 := 0.0, 2 := 0.0, 3 := 0.0, 4 := 0.0, 5 := 0.0,
        6 := 1.0, 7 := 1.0, 8 := 1.0, 9 := 1.0, 10 := 1.0]

  /** The default parameters; the levels are range(2, 10). */
  const Defaults := Params(0.62275231, 8.03314466, DefaultRates, [2, 3, 4, 5, 6, 7, 8, 9], 0.5, 0.01, true)

  // ---------------------------------------------------------------------
  // Fatality rate and levels

  /** fatality_rate(mmi): none below MMI 4, otherwise 10^(x*mmi - y). The
      power of ten is the parameter pow10. */
  function FatalityRate(p: Params, pow10: real -> real, mmi: int): (r: real)
    ensures mmi < 4 ==> r == 0.0
    ensures mmi >= 4 ==> r == pow10(p.x * mmi as real - p.y)
  {
    if mmi < 4 then 0.0 else pow10(p.x * mmi as real - p.y)
  }

  /** With a non-negative slope and an increasing, non-negative power of
      ten, the rate is non-negative and never falls as the MMI rises. */
  lemma FatalityRateMonotone(p: Params, pow10: real -> real, m1: int, m2: int)
    requires p.x >= 0.0
    requires forall a, b :: a <= b ==> pow10(a) <= pow10(b)
    requires forall a :: pow10(a) >= 0.0
    requires m1 <= m2
    ensures 0.0 <= FatalityRate(p, pow10, m1) <= FatalityRate(p, pow10, m2)
  {
    if m1 >= 4 {
      assert p.x * m1 as real <= p.x * m2 as real by {
        assert p.x * (m2 as real - m1 as real) >= 0.0;
      }
    }
  }

  /** A cell is at level mmi when mmi - step < hazard <= mmi + step; a NaN
      hazard fails both comparisons and is at no level. */
  predicate InLevel(h: Num, mmi: int, step: real)
  {
    h.Fin? && mmi as real - step < h.r <= mmi as real + step
  }

  /** With a half width of at most 0.5 no cell is at two levels. */
  lemma LevelsDisjoint(h: Num, m1: int, m2: int, step: real)
    requires step <= 0.5 && m1 != m2
    ensures !(InLevel(h, m1, step) && InLevel(h, m2, step))
  {
    if m1 < m2 {
      assert m1 as real + step <= m2 as real - step;
    } else {
      assert m2 as real + step <= m1 as real - step;
    }
  }

  /** With the default levels a finite MMI above 1.5 and at most 9.5 is at
      exactly one level, and any other MMI is at none. */
  lemma DefaultLevelsCover(h: Num)
    ensures (h.Fin? && 1.5 < h.r <= 9.5) ==>
      exists m :: m in Defaults.mmiRange && InLevel(h, m, Defaults.step)
    ensures !(h.Fin? && 1.5 < h.r <= 9.5) ==>
      forall m :: m in Defaults.mmiRange ==> !InLevel(h, m, Defaults.step)
  {
    if h.Fin? && 1.5 < h.r <= 9.5 {
      var m := -((0.5 - h.r).Floor);
      assert InLevel(h, m, 0.5);
      assert 2 <= m <= 9;
      assert Defaults.mmiRange[m - 2] == m;
    }
  }

  // ---------------------------------------------------------------------
  // Grids

  /** One cell of numpy.where(level, exposure, 0): the population of the
      cell when it is at level mmi, else 0. */
  function CellPopulation(h: Num, e: Num, mmi: int, step: real): Num
  {
    if InLevel(h, mmi, step) then e else Fin(0.0)
  }

  /** One cell of F = fatality_rate(mmi) * I. */
  function CellFatalities(p: Params, pow10: real -> real, h: Num, e: Num, mmi: int): Num
  {
    NumMul(Fin(FatalityRate(p, pow10, mmi)), CellPopulation(h, e, mmi, p.step))
  }

  /** numpy.where(D > F, D - F, 0) on one cell: a comparison with NaN is
      false, so the result is a number, never negative, positive exactly
      when more people are displaced than killed. */
  function Corrected(d: Num, f: Num): (r: Num)
    ensures r.Fin? && r.r >= 0.0
    ensures r.r > 0.0 <==> d.Fin? && f.Fin? && d.r > f.r
    ensures r.r > 0.0 ==> r.r == d.r - f.r
  {
    if d.Fin? && f.Fin? && d.r > f.r then Fin(d.r - f.r) else Fin(0.0)
  }

  /** One cell of D = displacement_rate[mmi] * I, corrected for F: a
      non-negative number, and 0 outside level mmi. */
  function CellDisplaced(p: Params, pow10: real -> real, h: Num, e: Num, mmi: int): (d: Num)
    requires mmi in p.displacementRate
    ensures d.Fin? && d.r >= 0.0
    ensures !InLevel(h, mmi, p.step) ==> d == Fin(0.0)
  {
    var pop := CellPopulation(h, e, mmi, p.step);
    Corrected(NumMul(Fin(p.displacementRate[mmi]), pop), CellFatalities(p, pow10, h, e, mmi))
  }

  /** R + D, cell by cell. */
  function GridAdd(a: seq<Num>, b: seq<Num>): (g: seq<Num>)
    requires |a| == |b|
    ensures |g| == |a|
    ensures forall c :: 0 <= c < |g| ==> g[c] == NumAdd(a[c], b[c])
  {
    seq(|a|, c requires 0 <= c < |a| && |a| == |b| => NumAdd(a[c], b[c]))
  }

  function Zeros(n: nat): (g: seq<Num>)
    ensures |g| == n
    ensures forall c :: 0 <= c < n ==> g[c] == Fin(0.0)
  {
    seq(n, c => Fin(0.0))
  }

  /** I: the population grid at level mmi. */
  function LevelPopulation(hazard: seq<Num>, exposure: seq<Num>, mmi: int, step: real): (g: seq<Num>)
    requires |hazard| == |exposure|
    ensures |g| == |hazard|
    ensures forall c :: 0 <= c < |g| ==> g[c] == CellPopulation(hazard[c], exposure[c], mmi, step)
  {
    seq(|hazard|, c requires 0 <= c < |hazard| && |hazard| == |exposure| =>
      CellPopulation(hazard[c], exposure[c], mmi, step))
  }

  /** F for level mmi. */
  function LevelFatalities(p: Params, pow10: real -> real, hazard: seq<Num>, exposure: seq<Num>, mmi: int): (g: seq<Num>)
    requires |hazard| == |exposure|
    ensures |g| == |hazard|
    ensures forall c :: 0 <= c < |g| ==> g[c] == CellFatalities(p, pow10, hazard[c], exposure[c], mmi)
  {
    seq(|hazard|, c requires 0 <= c < |hazard| && |hazard| == |exposure| =>
      CellFatalities(p, pow10, hazard[c], exposure[c], mmi))
  }

  /** D for level mmi, corrected for the fatalities. */
  function LevelDisplaced(p: Params, pow10: real -> real, hazard: seq<Num>, exposure: seq<Num>, mmi: int): (g: seq<Num>)
    requires |hazard| == |exposure| && mmi in p.displacementRate
    ensures |g| == |hazard|
    ensures forall c :: 0 <= c < |g| ==> g[c] == CellDisplaced(p, pow10, hazard[c], exposure[c], mmi)
  {
    seq(|hazard|, c requires 0 <= c < |hazard| && |hazard| == |exposure| && mmi in p.displacementRate =>
      CellDisplaced(p, pow10, hazard[c], exposure[c], mmi))
  }

  /** Every level of mmis has a displacement rate. */
  predicate RatesCover(rates: map<int, real>, mmis: seq<int>)
  {
    forall i :: 0 <= i < |mmis| ==> mmis[i] in rates
  }

  /** The position of the first level without a displacement rate. */
  function FirstMissingIndex(rates: map<int, real>, mmis: seq<int>): (i: nat)
    requires !RatesCover(rates, mmis)
    ensures i < |mmis| && mmis[i] !in rates
    ensures forall j :: 0 <= j < i ==> mmis[j] in rates
  {
    if mmis[0] !in rates then 0 else 1 + FirstMissingIndex(rates, mmis[1..])
  }

  /** The first level without a displacement rate. */
  function FirstMissing(rates: map<int, real>, mmis: seq<int>): int
    requires !RatesCover(rates, mmis)
  {
    mmis[FirstMissingIndex(rates, mmis)]
  }

  /** The level at index i is the first one missing when all before it
      have a rate. */
  lemma FirstMissingAt(rates: map<int, real>, mmis: seq<int>, i: nat)
    requires i < |mmis| && mmis[i] !in rates
    requires forall j :: 0 <= j < i ==> mmis[j] in rates
    ensures !RatesCover(rates, mmis)
    ensures FirstMissing(rates, mmis) == mmis[i]
  {
    var k := FirstMissingIndex(rates, mmis);
    assert mmis[k] !in rates && mmis[i] !in rates;
  }

  /** One cell's values at the levels, added up in order from 0. */
  function LevelSum(v: seq<Num>): Num
  {
    if v == [] then Fin(0.0) else NumAdd(LevelSum(v[..|v| - 1]), v[|v| - 1])
  }

  /** Zeros add up to zero. */
  lemma {:induction false} LevelSumZero(v: seq<Num>)
    requires forall i :: 0 <= i < |v| ==> v[i] == Fin(0.0)
    ensures LevelSum(v) == Fin(0.0)
  {
    if v != [] {
      LevelSumZero(v[..|v| - 1]);
    }
  }

  /** Non-negative values add up to a non-negative number. */
  lemma {:induction false} LevelSumNonNegative(v: seq<Num>)
    requires forall i :: 0 <= i < |v| ==> v[i].Fin? && v[i].r >= 0.0
    ensures LevelSum(v).Fin? && LevelSum(v).r >= 0.0
  {
    if v != [] {
      LevelSumNonNegative(v[..|v| - 1]);
    }
  }

  /** When every value but the j-th is zero, the sum is the j-th value. */
  lemma {:induction false} LevelSumSingle(v: seq<Num>, j: nat)
    requires j < |v| && v[j].Fin?
    requires forall i :: 0 <= i < |v| && i != j ==> v[i] == Fin(0.0)
    ensures LevelSum(v) == v[j]
  {
    var n := |v| - 1;
    if j == n {
      LevelSumZero(v[..n]);
    } else {
      LevelSumSingle(v[..n], j);
    }
  }

  /** One cell's corrected displaced counts, level by level. */
  function CellLevels(p: Params, pow10: real -> real, h: Num, e: Num, mmis: seq<int>): (v: seq<Num>)
    requires RatesCover(p.displacementRate, mmis)
    ensures |v| == |mmis|
    ensures forall i :: 0 <= i < |v| ==> v[i] == CellDisplaced(p, pow10, h, e, mmis[i])
  {
    seq(|mmis|, i requires 0 <= i < |mmis| && RatesCover(p.displacementRate, mmis) =>
      CellDisplaced(p, pow10, h, e, mmis[i]))
  }

  /** R after the levels mmis: each cell the sum of its levels. */
  function Displaced(p: Params, pow10: real -> real, hazard: seq<Num>, exposure: seq<Num>, mmis: seq<int>): (g: seq<Num>)
    requires |hazard| == |exposure| && RatesCover(p.displacementRate, mmis)
    ensures |g| == |hazard|
    ensures forall c :: 0 <= c < |g| ==> g[c] == LevelSum(CellLevels(p, pow10, hazard[c], exposure[c], mmis))
  {
    seq(|hazard|, c requires 0 <= c < |hazard| && |hazard| == |exposure| && RatesCover(p.displacementRate, mmis) =>
      LevelSum(CellLevels(p, pow10, hazard[c], exposure[c], mmis)))
  }

  /** Dropping the last level drops its value. */
  lemma CellLevelsPrefix(p: Params, pow10: real -> real, h: Num, e: Num, mmis: seq<int>)
    requires RatesCover(p.displacementRate, mmis) && mmis != []
    ensures RatesCover(p.displacementRate, mmis[..|mmis| - 1])
    ensures CellLevels(p, pow10, h, e, mmis)[..|mmis| - 1] == CellLevels(p, pow10, h, e, mmis[..|mmis| - 1])
  {
    assert RatesCover(p.displacementRate, mmis[..|mmis| - 1]);
  }

  /** Adding one level's corrected grid to R is R after one more level. */
  lemma DisplacedStep(p: Params, pow10: real -> real, hazard: seq<Num>, exposure: seq<Num>, mmis: seq<int>)
    requires |hazard| == |exposure| && RatesCover(p.displacementRate, mmis) && mmis != []
    ensures RatesCover(p.displacementRate, mmis[..|mmis| - 1])
    ensures Displaced(p, pow10, hazard, exposure, mmis) ==
      GridAdd(Displaced(p, pow10, hazard, exposure, mmis[..|mmis| - 1]),
              LevelDisplaced(p, pow10, hazard, exposure, mmis[|mmis| - 1]))
  {
    var n := |mmis| - 1;
    assert RatesCover(p.displacementRate, mmis[..n]);
    forall c | 0 <= c < |hazard|
      ensures Displaced(p, pow10, hazard, exposure, mmis)[c] ==
        NumAdd(Displaced(p, pow10, hazard, exposure, mmis[..n])[c], LevelDisplaced(p, pow10, hazard, exposure, mmis[n])[c])
    {
      CellLevelsPrefix(p, pow10, hazard[c], exposure[c], mmis);
    }
  }

  /** The levels a cell is not at contribute nothing to it. */
  lemma OtherLevelsZero(p: Params, pow10: real -> real, h: Num, e: Num, mmis: seq<int>, j: nat)
    requires RatesCover(p.displacementRate, mmis)
    requires p.step <= 0.5
    requires forall i, k :: 0 <= i < k < |mmis| ==> mmis[i] != mmis[k]
    requires j < |mmis| && InLevel(h, mmis[j], p.step)
    ensures forall i :: 0 <= i < |mmis| && i != j ==> CellLevels(p, pow10, h, e, mmis)[i] == Fin(0.0)
  {
    forall i | 0 <= i < |mmis| && i != j
      ensures CellLevels(p, pow10, h, e, mmis)[i] == Fin(0.0)
    {
      LevelsDisjoint(h, mmis[i], mmis[j], p.step);
    }
  }

  /** A cell at none of the levels has no one displaced. */
  lemma NoLevelNoneDisplaced(p: Params, pow10: real -> real, h: Num, e: Num, mmis: seq<int>)
    requires RatesCover(p.displacementRate, mmis)
    requires forall m :: m in mmis ==> !InLevel(h, m, p.step)
    ensures LevelSum(CellLevels(p, pow10, h, e, mmis)) == Fin(0.0)
  {
    var v := CellLevels(p, pow10, h, e, mmis);
    forall i | 0 <= i < |v|
      ensures v[i] == Fin(0.0)
    {
      assert mmis[i] in mmis;
    }
    LevelSumZero(v);
  }

  /** With levels at most 0.5 wide and distinct, a cell's displaced count
      is that of its own level alone. */
  lemma OwnLevelOnly(p: Params, pow10: real -> real, h: Num, e: Num, mmis: seq<int>, j: nat)
    requires RatesCover(p.displacementRate, mmis)
    requires p.step <= 0.5
    requires forall i, k :: 0 <= i < k < |mmis| ==> mmis[i] != mmis[k]
    requires j < |mmis| && InLevel(h, mmis[j], p.step)
    ensures LevelSum(CellLevels(p, pow10, h, e, mmis)) == CellDisplaced(p, pow10, h, e, mmis[j])
  {
    OtherLevelsZero(p, pow10, h, e, mmis, j);
    LevelSumSingle(CellLevels(p, pow10, h, e, mmis), j);
  }

  // ---------------------------------------------------------------------
  // The level loop

  /** The per-level statistics: exposed, displaced and fatalities, keyed
      by MMI. */
  datatype Study = Study(exposed: map<int, real>, displaced: map<int, real>, fatalities: map<int, real>)

  /** What the statistics of level mmi hold: the sums of I, D and F. */
  ghost predicate Recorded(p: Params, pow10: real -> real, hazard: seq<Num>, exposure: seq<Num>, s: Study, mmi: int)
    requires |hazard| == |exposure| && mmi in p.displacementRate
  {
    mmi in s.exposed && mmi in s.displaced && mmi in s.fatalities &&
    s.exposed[mmi] == NanSum(LevelPopulation(hazard, exposure, mmi, p.step)) &&
    s.displaced[mmi] == NanSum(LevelDisplaced(p, pow10, hazard, exposure, mmi)) &&
    s.fatalities[mmi] == NanSum(LevelFatalities(p, pow10, hazard, exposure, mmi))
  }

  /** The statistics after the levels mmis: keyed by exactly those levels,
      each one recorded. */
  ghost predicate AllRecorded(p: Params, pow10: real -> real, hazard: seq<Num>, exposure: seq<Num>, s: Study, mmis: seq<int>)
    requires |hazard| == |exposure| && RatesCover(p.displacementRate, mmis)
  {
    s.exposed.Keys == s.displaced.Keys == s.fatalities.Keys &&
    (forall m :: m in s.exposed <==> m in mmis) &&
    forall i :: 0 <= i < |mmis| ==> Recorded(p, pow10, hazard, exposure, s, mmis[i])
  }

  /** Recording one more level keeps the earlier levels recorded (a level
      met twice is recorded with the same sums). */
  lemma RecordedStep(p: Params, pow10: real -> real, hazard: seq<Num>, exposure: seq<Num>, s: Study, mmis: seq<int>)
    requires |hazard| == |exposure| && RatesCover(p.displacementRate, mmis) && mmis != []
    requires RatesCover(p.displacementRate, mmis[..|mmis| - 1])
    requires AllRecorded(p, pow10, hazard, exposure, s, mmis[..|mmis| - 1])
    ensures AllRecorded(p, pow10, hazard, exposure, Study(
      s.exposed[mmis[|mmis| - 1] := NanSum(LevelPopulation(hazard, exposure, mmis[|mmis| - 1], p.step))],
      s.displaced[mmis[|mmis| - 1] := NanSum(LevelDisplaced(p, pow10, hazard, exposure, mmis[|mmis| - 1]))],
      s.fatalities[mmis[|mmis| - 1] := NanSum(LevelFatalities(p, pow10, hazard, exposure, mmis[|mmis| - 1]))]), mmis)
  {
    var n := |mmis| - 1;
    var m := mmis[n];
    var t := Study(
      s.exposed[m := NanSum(LevelPopulation(hazard, exposure, m, p.step))],
      s.displaced[m := NanSum(LevelDisplaced(p, pow10, hazard, exposure, m))],
      s.fatalities[m := NanSum(LevelFatalities(p, pow10, hazard, exposure, m))]);
    forall i | 0 <= i < |mmis|
      ensures Recorded(p, pow10, hazard, exposure, t, mmis[i])
    {
      if i < n {
        assert mmis[..n][i] == mmis[i];
      }
    }
    forall k
      ensures k in t.exposed <==> k in mmis
    {
      InPrefixOrLast(mmis, k);
    }
  }

  lemma InPrefixOrLast(s: seq<int>, k: int)
    requires s != []
    ensures k in s <==> k in s[..|s| - 1] || k == s[|s| - 1]
  {
    assert s == s[..|s| - 1] + [s[|s| - 1]];
  }

  /** R += D, in place. */
  method AddInto(R: array<Num>, d: seq<Num>)
    requires R.Length == |d|
    modifies R
    ensures R[..] == GridAdd(old(R[..]), d)
  {
    for c := 0 to R.Length
      invariant forall j :: 0 <= j < c ==> R[j] == NumAdd(old(R[j]), d[j])
      invariant forall j :: c <= j < R.Length ==> R[j] == old(R[j])
    {
      R[c] := NumAdd(R[c], d[c]);
    }
  }

  /** A level without a rate after levels that all have one is the first
      one missing. */
  lemma MissingAfterPrefix(rates: map<int, real>, mmis: seq<int>, i: nat)
    requires i < |mmis| && mmis[i] !in rates && RatesCover(rates, mmis[..i])
    ensures !RatesCover(rates, mmis) && FirstMissing(rates, mmis) == mmis[i]
  {
    forall j | 0 <= j < i
      ensures mmis[j] in rates
    {
      assert mmis[..i][j] == mmis[j];
    }
    FirstMissingAt(rates, mmis, i);
  }

  /** A level with a rate extends the covered prefix by one. */
  lemma CoverExtends(rates: map<int, real>, mmis: seq<int>, i: nat)
    requires i < |mmis| && mmis[i] in rates && RatesCover(rates, mmis[..i])
    ensures RatesCover(rates, mmis[..i + 1]) && mmis[..i + 1][..i] == mmis[..i]
  {
    assert mmis[..i + 1] == mmis[..i] + [mmis[i]];
  }

  /** One pass of the level loop for the last level of mmis: its corrected
      grid is added to R and its statistics are recorded. */
  method AddLevel(p: Params, pow10: real -> real, hazard: seq<Num>, exposure: seq<Num>, R: array<Num>,
                  s: Study, mmis: seq<int>) returns (t: Study)
    requires |hazard| == |exposure| == R.Length && mmis != []
    requires RatesCover(p.displacementRate, mmis) && RatesCover(p.displacementRate, mmis[..|mmis| - 1])
    requires R[..] == Displaced(p, pow10, hazard, exposure, mmis[..|mmis| - 1])
    requires AllRecorded(p, pow10, hazard, exposure, s, mmis[..|mmis| - 1])
    modifies R
    ensures R[..] == Displaced(p, pow10, hazard, exposure, mmis)
    ensures AllRecorded(p, pow10, hazard, exposure, t, mmis)
  {
    var mmi := mmis[|mmis| - 1];
    var pop := LevelPopulation(hazard, exposure, mmi, p.step);
    var f := LevelFatalities(p, pow10, hazard, exposure, mmi);
    var d := LevelDisplaced(p, pow10, hazard, exposure, mmi);
    DisplacedStep(p, pow10, hazard, exposure, mmis);
    RecordedStep(p, pow10, hazard, exposure, s, mmis);
    AddInto(R, d);
    t := Study(s.exposed[mmi := NanSum(pop)], s.displaced[mmi := NanSum(d)], s.fatalities[mmi := NanSum(f)]);
  }

  /** The level loop of run(): R accumulates the corrected displaced grids
      and the statistics of every level are recorded; a level without a
      displacement rate raises InaSAFEError. */
  method Accumulate(p: Params, pow10: real -> real, hazard: seq<Num>, exposure: seq<Num>, R: array<Num>)
    returns (r: Result<Study>)
    requires |hazard| == |exposure| == R.Length
    requires R[..] == Zeros(R.Length)
    modifies R
    ensures r.Err? <==> !RatesCover(p.displacementRate, p.mmiRange)
    ensures r.Err? ==> r.error == InaSAFEError(FirstMissing(p.displacementRate, p.mmiRange))
    ensures r.Ok? ==> R[..] == Displaced(p, pow10, hazard, exposure, p.mmiRange)
    ensures r.Ok? ==> AllRecorded(p, pow10, hazard, exposure, r.value, p.mmiRange)
  {
    var s := Study(map[], map[], map[]);
    for i := 0 to |p.mmiRange|
      invariant RatesCover(p.displacementRate, p.mmiRange[..i])
      invariant R[..] == Displaced(p, pow10, hazard, exposure, p.mmiRange[..i])
      invariant AllRecorded(p, pow10, hazard, exposure, s, p.mmiRange[..i])
    {
      if p.mmiRange[i] !in p.displacementRate {
        MissingAfterPrefix(p.displacementRate, p.mmiRange, i);
        return Err(InaSAFEError(p.mmiRange[i]));
      }
      CoverExtends(p.displacementRate, p.mmiRange, i);
      s := AddLevel(p, pow10, hazard, exposure, R, s, p.mmiRange[..i + 1]);
    }
    assert p.mmiRange[..|p.mmiRange|] == p.mmiRange;
    r := Ok(s);
  }

  // ---------------------------------------------------------------------
  // Masking and the zero-impact check

  /** R[R < tolerance] = nan on one cell. */
  function MaskCell(x: Num, tolerance: real): Num
  {
    if x.Fin? && x.r < tolerance then NaN else x
  }

  /** After masking every cell is NaN or at least the tolerance, and the
      cells at or above it are kept. */
  lemma MaskCellBounds(x: Num, tolerance: real)
    ensures MaskCell(x, tolerance).Fin? ==> MaskCell(x, tolerance).r >= tolerance
    ensures x.Fin? && x.r >= tolerance ==> MaskCell(x, tolerance) == x
    ensures x.Fin? && x.r < tolerance ==> MaskCell(x, tolerance).NaN?
  {
  }

  /** R[R < tolerance] = nan, in place. */
  method MaskBelow(R: array<Num>, tolerance: real)
    modifies R
    ensures forall c :: 0 <= c < R.Length ==> R[c] == MaskCell(old(R[c]), tolerance)
  {
    for c := 0 to R.Length
      invariant forall j :: 0 <= j < c ==> R[j] == MaskCell(old(R[j]), tolerance)
      invariant forall j :: c <= j < R.Length ==> R[j] == old(R[j])
    {
      if R[c].Fin? && R[c].r < tolerance {
        R[c] := NaN;
      }
    }
  }

  /** As written, the check runs on the masked grid: with a positive
      tolerance no cell of it can be 0, so it never reports zero impact. */
  lemma MaskedZeroImpactNeverFires(g: seq<Num>, tolerance: real)
    requires tolerance > 0.0
    ensures ZeroImpact(Masked(g, tolerance)) != Ok(true)
  {
    var masked := Masked(g, tolerance);
    if masked != [] && NanMax(masked).Fin? {
      var c :| 0 <= c < |masked| && masked[c] == NanMax(masked);
      MaskCellBounds(g[c], tolerance);
    }
  }

  /** On the unmasked grid the check holds exactly when no one is
      displaced anywhere. */
  lemma UnmaskedZeroImpact(g: seq<Num>)
    requires g != []
    requires forall c :: 0 <= c < |g| ==> g[c].Fin? && g[c].r >= 0.0
    ensures ZeroImpact(g) == Ok(true) <==> forall c :: 0 <= c < |g| ==> g[c] == Fin(0.0)
  {
    assert g[0].Fin?;
    if forall c :: 0 <= c < |g| ==> g[c] == Fin(0.0) {
      var mx := NanMax(g);
      var mn := NanMin(g);
      assert mx in g && mn in g;
    } else {
      var c :| 0 <= c < |g| && g[c] != Fin(0.0);
      assert NanMax(g).r >= g[c].r;
    }
  }

  // ---------------------------------------------------------------------
  // Totals and the breakdown

  /** int(round(v / 1000)) * 1000: the nearest multiple of a thousand. */
  function RoundThousand(v: real): (r: int)
    ensures r % 1000 == 0
    ensures v - 500.0 <= r as real <= v + 500.0
  {
    Round(v / 1000.0) * 1000
  }

  /** The fatalities below 50 are reported as 0. */
  function ReportedFatalities(v: real): (r: int)
    ensures r < 50 ==> r == 0
    ensures r == 0 || r == RoundThousand(v)
  {
    var f := RoundThousand(v);
    if f < 50 then 0 else f
  }

  /** Since the rounded count is a multiple of a thousand, the clamp below
      50 only replaces a negative count: for a non-negative sum it changes
      nothing. */
  lemma FatalityClampOnlyNegatives(v: real)
    ensures RoundThousand(v) < 50 ==> RoundThousand(v) <= 0
    ensures v >= 0.0 ==> ReportedFatalities(v) == RoundThousand(v)
  {
    if v >= 0.0 {
      assert Round(v / 1000.0) >= 0;
    }
  }

  /** The sum of m's values over the distinct keys of ks. */
  function SumValues(m: map<int, real>, ks: seq<int>): real
    requires forall i :: 0 <= i < |ks| ==> ks[i] in m
  {
    if ks == [] then 0.0
    else
      var n := |ks| - 1;
      SumValues(m, ks[..n]) + (if ks[n] in ks[..n] then 0.0 else m[ks[n]])
  }

  /** The reported numbers: total population, fatalities and displaced. */
  datatype Report = Report(total: int, fatalities: int, displaced: int)

  function Totals(p: Params, exposure: seq<Num>, s: Study): (r: Report)
    requires forall i :: 0 <= i < |p.mmiRange| ==> p.mmiRange[i] in s.fatalities && p.mmiRange[i] in s.displaced
    ensures r.total == RoundThousand(NanSum(exposure))
    ensures r.fatalities < 50 ==> r.fatalities == 0
  {
    Report(RoundThousand(NanSum(exposure)),
           ReportedFatalities(SumValues(s.fatalities, p.mmiRange)),
           RoundThousand(SumValues(s.displaced, p.mmiRange)))
  }

  /** The breakdown's labels: the three categories and the attribute, the
      same translated texts the earthquake table reads the cells under. */
  type Labels = EarthquakeLabels

  const English: Labels := EnglishEarthquake

  predicate Distinct(l: Labels)
  {
    l.fatalities != l.displaced && l.displaced != l.total && l.fatalities != l.total
  }

  lemma EnglishDistinct()
    ensures Distinct(English)
  {
    assert English.fatalities[0] != English.displaced[0] && English.displaced[0] != English.total[0];
    assert English.fatalities[0] != English.total[0];
  }

  /** The breakdown: fatalities, people displaced (0 when displaced people
      are not calculated) and the total population. */
  method FatalityBreakdown(l: Labels, rep: Report, calculateDisplaced: bool) returns (b: ImpactBreakdown)
    requires Distinct(l)
    ensures fresh(b) && b.Valid()
    ensures b.categories == [l.fatalities, l.displaced, l.total] && b.attributes == [l.population]
    ensures b.Get(l.fatalities, l.population) == Ok(VInt(rep.fatalities))
    ensures b.Get(l.displaced, l.population) == Ok(VInt(if calculateDisplaced then rep.displaced else 0))
    ensures b.Get(l.total, l.population) == Ok(VInt(rep.total))
  {
    var categories := [l.fatalities, l.displaced, l.total];
    b := NewBreakdown(categories, [l.population], VNone);
    assert categories[0] in b.data.m && categories[1] in b.data.m && categories[2] in b.data.m;
    ghost var d0 := b.data;
    var shown := if calculateDisplaced then rep.displaced else 0;
    WriteCells(b, FatalityCells(l, rep.fatalities, shown, rep.total));
    FatalityCellsWritten(d0, l, rep.fatalities, shown, rep.total);
  }

  /** breakdown[Fatalities, population] = f, then the displaced and the
      total population. */
  function FatalityCells(l: Labels, f: int, d: int, t: int): (cells: seq<(string, string, Value)>)
  {
    [(l.fatalities, l.population, VInt(f)), (l.displaced, l.population, VInt(d)), (l.total, l.population, VInt(t))]
  }

  /** Each of the three cells is written once, with its own value. */
  lemma FatalityLastWrites(l: Labels, f: int, d: int, t: int, before: Result<Value>)
    requires Distinct(l)
    ensures LastWrite(FatalityCells(l, f, d, t), l.fatalities, l.population, before) == Ok(VInt(f))
    ensures LastWrite(FatalityCells(l, f, d, t), l.displaced, l.population, before) == Ok(VInt(d))
    ensures LastWrite(FatalityCells(l, f, d, t), l.total, l.population, before) == Ok(VInt(t))
  {
    var cells := FatalityCells(l, f, d, t);
    assert cells[..2][..1] == cells[..1] && cells[..1][..0] == [];
    assert LastWrite(cells[..1], l.fatalities, l.population, before) == Ok(VInt(f));
    assert LastWrite(cells[..2], l.displaced, l.population, before) == Ok(VInt(d));
  }

  /** The three writes land in three different cells. */
  lemma FatalityCellsWritten(d0: Table, l: Labels, f: int, d: int, t: int)
    requires Distinct(l)
    requires l.fatalities in d0.m && l.displaced in d0.m && l.total in d0.m
    ensures CellGet(PutCells(d0, FatalityCells(l, f, d, t)), l.fatalities, l.population) == Ok(VInt(f))
    ensures CellGet(PutCells(d0, FatalityCells(l, f, d, t)), l.displaced, l.population) == Ok(VInt(d))
    ensures CellGet(PutCells(d0, FatalityCells(l, f, d, t)), l.total, l.population) == Ok(VInt(t))
  {
    var cells := FatalityCells(l, f, d, t);
    forall j | 0 <= j < 3
      ensures cells[j].0 in d0.m
    {
      if j == 0 {} else if j == 1 {} else {}
    }
    PutCellsGet(d0, cells, l.fatalities, l.population);
    PutCellsGet(d0, cells, l.displaced, l.population);
    PutCellsGet(d0, cells, l.total, l.population);
    FatalityLastWrites(l, f, d, t, CellGet(d0, l.fatalities, l.population));
    FatalityLastWrites(l, f, d, t, CellGet(d0, l.displaced, l.population));
    FatalityLastWrites(l, f, d, t, CellGet(d0, l.total, l.population));
  }

  /** R[R < tolerance] = nan on the whole grid. */
  function Masked(g: seq<Num>, tolerance: real): (m: seq<Num>)
    ensures |m| == |g|
    ensures forall c :: 0 <= c < |g| ==> m[c] == MaskCell(g[c], tolerance)
  {
    seq(|g|, c requires 0 <= c < |g| => MaskCell(g[c], tolerance))
  }

  // ---------------------------------------------------------------------
  // run()

  /** What run() produces: the masked displaced grid, the per-level
      statistics, the reported numbers and the summary table. */
  datatype FatalityImpact = FatalityImpact(grid: seq<Num>, study: Study, report: Report, summary: seq<Entry>)

  /** run(): the keywords, the level loop, the mask, the totals, the
      breakdown and needs, the summary of the population earthquake table,
      and the zero-impact check (on the unmasked grid, see
      MaskedZeroImpactNeverFires). Weekly needs come from the parameter
      weeklyNeeds. */
  method Run(info: ImpactFunctionInfo, p: Params, pow10: real -> real, weeklyNeeds: int -> Value, l: Labels,
             hazardLayer: LayerInfo, exposureLayer: LayerInfo, hazard: seq<Num>, exposure: seq<Num>)
    returns (r: Result<FatalityImpact>, kw: Keywords)
    requires |hazard| == |exposure| && Distinct(l)
    ensures fresh(kw) && kw.primaryLayer != null
    ensures kw.primaryLayer.functionDetails == FunctionDetails(info)
    ensures kw.primaryLayer.title == VStr("Estimated displaced population per cell")
    ensures kw.primaryLayer.impactAssessment == ImpactAssessment("population", "earthquake")
    ensures !RatesCover(p.displacementRate, p.mmiRange) ==>
      r == Err(InaSAFEError(FirstMissing(p.displacementRate, p.mmiRange)))
    ensures r.Ok? ==> Analysed(p, pow10, hazard, exposure, r.value.grid, r.value.study, r.value.report)
    ensures r.Ok? ==> Reported(l, r.value.report, p.calculateDisplaced, kw.primaryLayer.impactBreakdown)
    ensures r.Ok? ==> kw.primaryLayer.minimumNeeds == weeklyNeeds(r.value.report.displaced)
    ensures r.Ok? ==> hazard != [] && NoneDisplaced(p, pow10, hazard, exposure) == false
    ensures r.Ok? ==> |r.value.summary| > 0 && r.value.summary[0].Question?
    ensures kw.primaryLayer.impactBreakdown != null ==> kw.primaryLayer.impactBreakdown.Valid()
    ensures RatesCover(p.displacementRate, p.mmiRange) ==>
      var b := kw.primaryLayer.impactBreakdown;
      var table := EarthquakeTableOf(kw.provenance, kw.primaryLayer.functionDetails, kw.primaryLayer.minimumNeeds, b, l);
      b != null &&
      (table.Ok? <==> QuestionOf(kw.provenance, kw.primaryLayer.functionDetails).Ok? &&
                      NeedsTable(kw.primaryLayer.minimumNeeds).Ok?) &&
      (table.Err? ==> r == Err(table.error)) &&
      (table.Ok? && hazard == [] ==> r == Err(ValueError)) &&
      (table.Ok? && hazard != [] && NoneDisplaced(p, pow10, hazard, exposure) ==>
        r.Err? && r.error.ZeroImpactException? && b.Get(l.fatalities, l.population) == Ok(VInt(r.error.reported))) &&
      (table.Ok? && hazard != [] && !NoneDisplaced(p, pow10, hazard, exposure) ==>
        r.Ok? && r.value.summary == table.value)
  {
    kw := RecordRun(info, hazardLayer, exposureLayer);
    var analysis := Analyse(p, pow10, hazard, exposure);
    if analysis.Err? {
      return Err(analysis.error), kw;
    }
    var (unmasked, grid, study, rep) := analysis.value;
    var summary := Conclude(kw, l, p, pow10, weeklyNeeds, hazard, exposure, unmasked, rep);
    if summary.Err? {
      return Err(summary.error), kw;
    }
    r := Ok(FatalityImpact(grid, study, rep, summary.value));
  }

  /** The end of run(): the breakdown and needs recorded on the impact
      layer, the summary, and the zero-impact check. */
  method Conclude(kw: Keywords, l: Labels, p: Params, pow10: real -> real, weeklyNeeds: int -> Value,
                  hazard: seq<Num>, exposure: seq<Num>, unmasked: seq<Num>, rep: Report)
    returns (r: Result<seq<Entry>>)
    requires Distinct(l) && |hazard| == |exposure| && RatesCover(p.displacementRate, p.mmiRange)
    requires unmasked == Displaced(p, pow10, hazard, exposure, p.mmiRange)
    requires kw.primaryLayer != null
    requires kw.primaryLayer.impactAssessment == ImpactAssessment("population", "earthquake")
    modifies kw.primaryLayer
    ensures kw.primaryLayer.functionDetails == old(kw.primaryLayer.functionDetails)
    ensures kw.primaryLayer.title == old(kw.primaryLayer.title)
    ensures kw.primaryLayer.impactAssessment == old(kw.primaryLayer.impactAssessment)
    ensures Reported(l, rep, p.calculateDisplaced, kw.primaryLayer.impactBreakdown)
    ensures kw.primaryLayer.minimumNeeds == weeklyNeeds(rep.displaced)
    ensures r.Ok? ==> hazard != [] && !NoneDisplaced(p, pow10, hazard, exposure)
    ensures r.Ok? ==> |r.value| > 0 && r.value[0].Question?
    ensures var table := EarthquakeTableOf(kw.provenance, kw.primaryLayer.functionDetails,
                                           kw.primaryLayer.minimumNeeds, kw.primaryLayer.impactBreakdown, l);
      (table.Err? ==> r == Err(table.error)) &&
      (table.Ok? && hazard == [] ==> r == Err(ValueError)) &&
      (table.Ok? && hazard != [] && NoneDisplaced(p, pow10, hazard, exposure) ==> r == Err(ZeroImpactException(rep.fatalities))) &&
      (table.Ok? && hazard != [] && !NoneDisplaced(p, pow10, hazard, exposure) ==> r == table)
  {
    var breakdown := FatalityBreakdown(l, rep, p.calculateDisplaced);
    var summary := Summarise(kw, breakdown, weeklyNeeds(rep.displaced), l);
    if summary.Err? {
      return Err(summary.error);
    }
    var zero := CheckZeroImpact(p, pow10, hazard, exposure, unmasked, rep.fatalities);
    if zero.Some? {
      return Err(zero.value);
    }
    r := summary;
  }

  /** No cell of R has anyone displaced. */
  ghost predicate NoneDisplaced(p: Params, pow10: real -> real, hazard: seq<Num>, exposure: seq<Num>)
    requires |hazard| == |exposure| && RatesCover(p.displacementRate, p.mmiRange)
  {
    forall c :: 0 <= c < |hazard| ==> Displaced(p, pow10, hazard, exposure, p.mmiRange)[c] == Fin(0.0)
  }

  /** The check on the unmasked R holds exactly when no one is displaced,
      and fails only on an empty grid. */
  lemma ZeroImpactOfDisplaced(p: Params, pow10: real -> real, hazard: seq<Num>, exposure: seq<Num>)
    requires |hazard| == |exposure| && RatesCover(p.displacementRate, p.mmiRange)
    ensures ZeroImpact(Displaced(p, pow10, hazard, exposure, p.mmiRange)).Err? <==> hazard == []
    ensures hazard != [] ==>
      (ZeroImpact(Displaced(p, pow10, hazard, exposure, p.mmiRange)) == Ok(true) <==> NoneDisplaced(p, pow10, hazard, exposure))
  {
    var g := Displaced(p, pow10, hazard, exposure, p.mmiRange);
    if hazard != [] {
      forall c | 0 <= c < |g|
        ensures g[c].Fin? && g[c].r >= 0.0
      {
        LevelSumNonNegative(CellLevels(p, pow10, hazard[c], exposure[c], p.mmiRange));
      }
      UnmaskedZeroImpact(g);
    }
  }

  /** The zero-impact check on the unmasked R: ValueError on an empty
      grid, ZeroImpactException with the reported fatalities when no one is
      displaced, nothing otherwise. */
  method CheckZeroImpact(p: Params, pow10: real -> real, hazard: seq<Num>, exposure: seq<Num>,
                         unmasked: seq<Num>, fatalities: int) returns (e: Option<Error>)
    requires |hazard| == |exposure| && RatesCover(p.displacementRate, p.mmiRange)
    requires unmasked == Displaced(p, pow10, hazard, exposure, p.mmiRange)
    ensures e.None? <==> hazard != [] && !NoneDisplaced(p, pow10, hazard, exposure)
    ensures hazard == [] ==> e == Some(ValueError)
    ensures hazard != [] && NoneDisplaced(p, pow10, hazard, exposure) ==> e == Some(ZeroImpactException(fatalities))
  {
    var zero := ZeroImpact(unmasked);
    ZeroImpactOfDisplaced(p, pow10, hazard, exposure);
    if zero.Err? {
      return Some(zero.error);
    }
    if zero.value {
      return Some(ZeroImpactException(fatalities));
    }
    return None;
  }

  /** The numbers of run(): the masked grid R, the statistics of every
      level and the reported totals. */
  ghost predicate Analysed(p: Params, pow10: real -> real, hazard: seq<Num>, exposure: seq<Num>,
                           grid: seq<Num>, study: Study, rep: Report)
    requires |hazard| == |exposure|
  {
    RatesCover(p.displacementRate, p.mmiRange) &&
    grid == Masked(Displaced(p, pow10, hazard, exposure, p.mmiRange), p.tolerance) &&
    AllRecorded(p, pow10, hazard, exposure, study, p.mmiRange) &&
    (forall i :: 0 <= i < |p.mmiRange| ==> p.mmiRange[i] in study.fatalities && p.mmiRange[i] in study.displaced) &&
    rep == Totals(p, exposure, study)
  }

  /** The breakdown holds the reported numbers. */
  ghost predicate Reported(l: Labels, rep: Report, calculateDisplaced: bool, b: ImpactBreakdown?)
    reads b
  {
    b != null && b.Valid() &&
    b.categories == [l.fatalities, l.displaced, l.total] && b.attributes == [l.population] &&
    b.Get(l.fatalities, l.population) == Ok(VInt(rep.fatalities)) &&
    b.Get(l.displaced, l.population) == Ok(VInt(if calculateDisplaced then rep.displaced else 0)) &&
    b.Get(l.total, l.population) == Ok(VInt(rep.total))
  }

  /** The level loop, the mask and the totals: the unmasked grid, the
      masked grid, the statistics and the reported numbers. */
  method Analyse(p: Params, pow10: real -> real, hazard: seq<Num>, exposure: seq<Num>)
    returns (r: Result<(seq<Num>, seq<Num>, Study, Report)>)
    requires |hazard| == |exposure|
    ensures r.Err? <==> !RatesCover(p.displacementRate, p.mmiRange)
    ensures r.Err? ==> r.error == InaSAFEError(FirstMissing(p.displacementRate, p.mmiRange))
    ensures r.Ok? ==> RatesCover(p.displacementRate, p.mmiRange)
    ensures r.Ok? ==> r.value.0 == Displaced(p, pow10, hazard, exposure, p.mmiRange)
    ensures r.Ok? ==> Analysed(p, pow10, hazard, exposure, r.value.1, r.value.2, r.value.3)
  {
    var R := new Num[|hazard|](_ => Fin(0.0));
    assert R[..] == Zeros(R.Length);
    var accumulated := Accumulate(p, pow10, hazard, exposure, R);
    if accumulated.Err? {
      return Err(accumulated.error);
    }
    var study := accumulated.value;
    forall i | 0 <= i < |p.mmiRange|
      ensures p.mmiRange[i] in study.fatalities && p.mmiRange[i] in study.displaced
    {
      assert Recorded(p, pow10, hazard, exposure, study, p.mmiRange[i]);
    }
    var unmasked := R[..];
    MaskBelow(R, p.tolerance);
    assert R[..] == Masked(unmasked, p.tolerance);
    var rep := Totals(p, exposure, study);
    r := Ok((unmasked, R[..], study, rep));
  }

  /** The keywords run() records before the analysis. */
  method RecordRun(info: ImpactFunctionInfo, hazardLayer: LayerInfo, exposureLayer: LayerInfo) returns (kw: Keywords)
    ensures fresh(kw) && kw.primaryLayer != null && fresh(kw.primaryLayer)
    ensures kw.primaryLayer.functionDetails == FunctionDetails(info)
    ensures kw.primaryLayer.title == VStr("Estimated displaced population per cell")
    ensures kw.primaryLayer.impactAssessment == ImpactAssessment("population", "earthquake")
    ensures kw.primaryLayer.impactBreakdown == null
    ensures kw.provenance == RecordProvenance(RecordProvenance(map[], hazardLayer, "impact_layer"), exposureLayer, "exposure_layer")
  {
    kw := new Keywords.ImpactKeywords();
    var layer := kw.primaryLayer;
    layer.SetFunctionDetails(info);
    layer.SetTitle(VStr("Estimated displaced population per cell"));
    kw.SetProvenanceLayer(hazardLayer, "impact_layer");
    kw.SetProvenanceLayer(exposureLayer, "exposure_layer");
    layer.SetImpactAssessment("population", "earthquake");
  }

  /** set_impact_breakdown, set_minimum_needs, then the analysis table of
      the formatter TableSelector picks for a population earthquake
      assessment. */
  method Summarise(kw: Keywords, b: ImpactBreakdown, needs: Value, l: Labels) returns (r: Result<seq<Entry>>)
    requires kw.primaryLayer != null && b.Valid()
    requires kw.primaryLayer.impactAssessment == ImpactAssessment("population", "earthquake")
    modifies kw.primaryLayer
    ensures kw.primaryLayer.impactBreakdown == b && kw.primaryLayer.minimumNeeds == needs
    ensures kw.primaryLayer.functionDetails == old(kw.primaryLayer.functionDetails)
    ensures kw.primaryLayer.title == old(kw.primaryLayer.title)
    ensures kw.primaryLayer.impactAssessment == old(kw.primaryLayer.impactAssessment)
    ensures r == EarthquakeTableOf(kw.provenance, kw.primaryLayer.functionDetails, needs, b, l)
  {
    var layer := kw.primaryLayer;
    layer.SetImpactBreakdown(b);
    layer.SetMinimumNeeds(needs);
    SelectorOnRecordedAssessment("population", "earthquake");
    var selected := TableSelector(layer.impactAssessment);
    assert selected == Ok(Some(PopulationEarthquakeTable));
    var summary := Call(selected.value.value, kw, "Analysis Result", l);
    if summary.Err? {
      return Err(summary.error);
    }
    r := Ok(summary.value.value);
  }
}
