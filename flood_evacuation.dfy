/** FloodEvacuationFunction.run: the population of a raster flood-depth
    grid split into bands by a list of depth thresholds, the evacuated and
    total counts, and the zero-impact test. */
module FloodEvacuation {
  import opened Common
  import opened Keywords

  /** The default 'thresholds [m]' parameter. */
  const DefaultThresholds: Value := VList([VFloat(Fin(1.0))])

  predicate IsNumber(v: Value) { v.VInt? || v.VFloat? }

  /** A threshold entry as a float. */
  function AsNum(v: Value): Num
    requires IsNumber(v)
  {
    if v.VInt? then Fin(v.i as real) else v.f
  }

  /** A thresholds parameter that is a list holds only numbers. */
  predicate NumbersOnly(v: Value)
  {
    v.VList? ==> forall i :: 0 <= i < |v.items| ==> IsNumber(v.items[i])
  }

  /** verify(isinstance(thresholds, list)): the entries as floats, or
      VerificationError when the parameter is not a list. */
  function Thresholds(v: Value): (r: Result<seq<Num>>)
    requires NumbersOnly(v)
    ensures r.Err? <==> !v.VList?
    ensures r.Err? ==> r.error == VerificationError
    ensures r.Ok? ==> |r.value| == |v.items|
    ensures r.Ok? ==> forall i :: 0 <= i < |v.items| ==> r.value[i] == AsNum(v.items[i])
  {
    if !v.VList? then Err(VerificationError)
    else Ok(seq(|v.items|, i requires 0 <= i < |v.items| => AsNum(v.items[i])))
  }

  // ---------------------------------------------------------------------
  // Bands

  /** D >= t; false when t is NaN. */
  predicate AtLeast(d: real, t: Num) { t.Fin? && d >= t.r }

  /** D < t; false when t is NaN. */
  predicate Below(d: real, t: Num) { t.Fin? && d < t.r }

  /** The upper bound of threshold i's band: the next threshold, none for
      the last one. */
  function Upper(ts: seq<Num>, i: nat): (hi: Option<Num>)
    requires i < |ts|
    ensures hi.None? <==> i == |ts| - 1
  {
    if i == |ts| - 1 then None else Some(ts[i + 1])
  }

  /** lo <= d, and d < hi when there is an upper bound. */
  predicate InBand(d: real, lo: Num, hi: Option<Num>)
  {
    AtLeast(d, lo) && (hi.None? || Below(d, hi.value))
  }

  /** numpy.where(band, P, 0): each cell's population when its depth is in
      the band, 0 otherwise. */
  function Band(D: seq<real>, P: seq<real>, lo: Num, hi: Option<Num>): (M: seq<real>)
    requires |D| == |P|
    ensures |M| == |D|
    ensures forall c :: 0 <= c < |D| ==> M[c] == if InBand(D[c], lo, hi) then P[c] else 0.0
  {
    seq(|D|, c requires 0 <= c < |D| => if InBand(D[c], lo, hi) then P[c] else 0.0)
  }

  /** The count reported for threshold i: round_thousand(int(sum(M))). */
  function BandCount(D: seq<real>, P: seq<real>, ts: seq<Num>, i: nat, roundThousand: int -> int): int
    requires |D| == |P| && i < |ts|
  {
    roundThousand(TruncInt(Sum(Band(D, P, ts[i], Upper(ts, i)))))
  }

  /** Thresholds that are numbers, in ascending order. */
  predicate Ascending(ts: seq<Num>)
  {
    (forall k :: 0 <= k < |ts| ==> ts[k].Fin?) &&
    (forall k, l :: 0 <= k < l < |ts| ==> ts[k].r <= ts[l].r)
  }

  /** For ascending thresholds no depth is in two bands. */
  lemma BandsDisjoint(ts: seq<Num>, d: real, i: nat, j: nat)
    requires Ascending(ts) && i < j < |ts|
    ensures !(InBand(d, ts[i], Upper(ts, i)) && InBand(d, ts[j], Upper(ts, j)))
  {
    assert ts[i + 1].r <= ts[j].r;
  }

  /** A depth at least threshold k (ascending thresholds) is in some band
      from k on. */
  lemma {:induction false} BandFrom(ts: seq<Num>, d: real, k: nat)
    requires Ascending(ts) && k < |ts| && AtLeast(d, ts[k])
    ensures exists i :: k <= i < |ts| && InBand(d, ts[i], Upper(ts, i))
    decreases |ts| - k
  {
    if k == |ts| - 1 {
      assert InBand(d, ts[k], Upper(ts, k));
    } else if Below(d, ts[k + 1]) {
      assert InBand(d, ts[k], Upper(ts, k));
    } else {
      BandFrom(ts, d, k + 1);
    }
  }

  /** For ascending thresholds a depth is in some band exactly when it is at
      least the first threshold. */
  lemma BandsCover(ts: seq<Num>, d: real)
    requires Ascending(ts) && ts != []
    ensures AtLeast(d, ts[0]) <==> exists i :: 0 <= i < |ts| && InBand(d, ts[i], Upper(ts, i))
  {
    if AtLeast(d, ts[0]) {
      BandFrom(ts, d, 0);
    }
  }

  /** The unrounded sum of every band. */
  function BandSums(D: seq<real>, P: seq<real>, ts: seq<Num>): (s: seq<real>)
    requires |D| == |P|
    ensures |s| == |ts|
  {
    seq(|ts|, i requires 0 <= i < |ts| => Sum(Band(D, P, ts[i], Upper(ts, i))))
  }

  /** A band's sum is the sum without the last cell plus that cell's
      share. */
  lemma BandSumLast(D: seq<real>, P: seq<real>, lo: Num, hi: Option<Num>)
    requires |D| == |P| && D != []
    ensures Sum(Band(D, P, lo, hi)) ==
      Sum(Band(D[..|D| - 1], P[..|D| - 1], lo, hi)) + if InBand(D[|D| - 1], lo, hi) then P[|D| - 1] else 0.0
  {
    var M := Band(D, P, lo, hi);
    assert M[..|D| - 1] == Band(D[..|D| - 1], P[..|D| - 1], lo, hi);
  }

  /** Across one cell, the bands together hold its population exactly when
      its depth reaches the first threshold. */
  lemma CellInBands(ts: seq<Num>, d: real, p: real, s: seq<real>)
    requires Ascending(ts) && ts != [] && |s| == |ts|
    requires forall i :: 0 <= i < |ts| ==> s[i] == if InBand(d, ts[i], Upper(ts, i)) then p else 0.0
    ensures Sum(s) == if AtLeast(d, ts[0]) then p else 0.0
  {
    BandsCover(ts, d);
    if AtLeast(d, ts[0]) {
      var j :| 0 <= j < |ts| && InBand(d, ts[j], Upper(ts, j));
      forall i | 0 <= i < |ts| && i != j
        ensures s[i] == 0.0
      {
        if i < j { BandsDisjoint(ts, d, i, j); } else { BandsDisjoint(ts, d, j, i); }
      }
      SumOneCell(s, j);
    } else {
      SumOneCell(s, -1);
    }
  }

  /** For ascending thresholds the bands add up to the population at or
      above the first threshold (before rounding). */
  lemma {:induction false} BandsAddUp(D: seq<real>, P: seq<real>, ts: seq<Num>)
    requires |D| == |P| && Ascending(ts) && ts != []
    ensures Sum(BandSums(D, P, ts)) == Sum(Band(D, P, ts[0], None))
  {
    if D != [] {
      var n := |D| - 1;
      var D', P' := D[..n], P[..n];
      BandsAddUp(D', P', ts);
      var last := seq(|ts|, i requires 0 <= i < |ts| => if InBand(D[n], ts[i], Upper(ts, i)) then P[n] else 0.0);
      forall i | 0 <= i < |ts|
        ensures BandSums(D, P, ts)[i] == BandSums(D', P', ts)[i] + last[i]
      {
        BandSumLast(D, P, ts[i], Upper(ts, i));
      }
      SumPointwise(BandSums(D', P', ts), last, BandSums(D, P, ts));
      CellInBands(ts, D[n], P[n], last);
      BandSumLast(D, P, ts[0], None);
    } else {
      assert forall i :: 0 <= i < |ts| ==> Band(D, P, ts[i], Upper(ts, i)) == [];
      SumOneCell(BandSums(D, P, ts), -1);
    }
  }

  /** The threshold loop: one count per threshold, in threshold order, and
      the last threshold's band as the impact grid (None when there are no
      thresholds). */
  method CountBands(D: seq<real>, P: seq<real>, ts: seq<Num>, roundThousand: int -> int)
    returns (counts: seq<int>, impact: Option<seq<real>>)
    requires |D| == |P|
    ensures |counts| == |ts|
    ensures forall i :: 0 <= i < |ts| ==> counts[i] == BandCount(D, P, ts, i, roundThousand)
    ensures impact.Some? <==> ts != []
    ensures ts != [] ==> impact.value == Band(D, P, ts[|ts| - 1], None)
  {
    counts := [];
    impact := None;
    for i := 0 to |ts|
      invariant |counts| == i
      invariant forall j :: 0 <= j < i ==> counts[j] == BandCount(D, P, ts, j, roundThousand)
      invariant impact.Some? <==> i == |ts| && i > 0
      invariant impact.Some? ==> impact.value == Band(D, P, ts[|ts| - 1], None)
    {
      var lo := ts[i];
      var M;
      if i == |ts| - 1 {
        M := Band(D, P, lo, None);
        impact := Some(M);
      } else {
        var hi := ts[i + 1];
        M := Band(D, P, lo, Some(hi));
      }
      var val := TruncInt(Sum(M));
      val := roundThousand(val);
      counts := counts + [val];
    }
  }

  // ---------------------------------------------------------------------
  // The zero-impact test

  function Lift(M: seq<real>): (g: seq<Num>)
    ensures |g| == |M| && forall c :: 0 <= c < |M| ==> g[c] == Fin(M[c])
  {
    seq(|M|, c requires 0 <= c < |M| => Fin(M[c]))
  }

  /** numpy.nanmax(impact) == 0 == numpy.nanmin(impact): ZeroImpactException
      with the evacuated count, ValueError on an empty grid. */
  function ZeroImpactCheck(impact: seq<real>, evacuated: int): (e: Option<Error>)
  {
    match ZeroImpact(Lift(impact))
    case Err(err) => Some(err)
    case Ok(zero) => if zero then Some(ZeroImpactException(evacuated)) else None
  }

  /** The test raises ZeroImpactException exactly when no one lives in a
      cell at or above the last threshold. */
  lemma ZeroImpactOfBands(D: seq<real>, P: seq<real>, last: Num, evacuated: int)
    requires |D| == |P| && D != []
    ensures ZeroImpactCheck(Band(D, P, last, None), evacuated) == Some(ZeroImpactException(evacuated)) <==>
            forall c :: 0 <= c < |D| && AtLeast(D[c], last) ==> P[c] == 0.0
    ensures ZeroImpactCheck(Band(D, P, last, None), evacuated).None? <==>
            exists c :: 0 <= c < |D| && AtLeast(D[c], last) && P[c] != 0.0
  {
    var M := Band(D, P, last, None);
    ZeroImpactAllZero(Lift(M));
    if forall c :: 0 <= c < |D| && AtLeast(D[c], last) ==> P[c] == 0.0 {
      assert forall c :: 0 <= c < |M| ==> Lift(M)[c] == Fin(0.0);
    } else {
      var c :| 0 <= c < |D| && AtLeast(D[c], last) && P[c] != 0.0;
      assert Lift(M)[c] != Fin(0.0);
    }
  }

  // ---------------------------------------------------------------------
  // run()

  /** The numbers of run(): the thresholds, one count per threshold, the
      evacuated and total counts and the impact grid. */
  datatype Evacuation = Evacuation(thresholds: seq<Num>, counts: seq<int>, evacuated: int, total: int, impact: seq<real>)

  /** What run() computes from its inputs, with both grids read with NaN
      as 0.0. */
  ghost predicate Evacuates(thresholds: seq<Num>, hazard: seq<Num>, exposure: seq<Num>,
                            roundThousand: int -> int, ev: Evacuation)
    requires |hazard| == |exposure|
  {
    var D := NanToZero(hazard);
    var P := NanToZero(exposure);
    thresholds != [] && ev.thresholds == thresholds &&
    |ev.counts| == |thresholds| &&
    (forall i :: 0 <= i < |thresholds| ==> ev.counts[i] == BandCount(D, P, thresholds, i, roundThousand)) &&
    ev.evacuated == ev.counts[|thresholds| - 1] == Evacuated(thresholds, hazard, exposure, roundThousand) &&
    ev.total == roundThousand(TruncInt(NanSum(exposure))) &&
    ev.impact == Band(D, P, thresholds[|thresholds| - 1], None)
  }

  /** The evacuated count: the count of the last threshold. */
  function Evacuated(ts: seq<Num>, hazard: seq<Num>, exposure: seq<Num>, roundThousand: int -> int): int
    requires |hazard| == |exposure| && ts != []
  {
    BandCount(NanToZero(hazard), NanToZero(exposure), ts, |ts| - 1, roundThousand)
  }

  /** The parameter check, the threshold loop and the totals: an error when
      the thresholds are not a list (VerificationError) or empty
      (counts[-1], IndexError). */
  method Analyse(thresholds: Value, hazard: seq<Num>, exposure: seq<Num>, roundThousand: int -> int)
    returns (r: Result<Evacuation>)
    requires |hazard| == |exposure| && NumbersOnly(thresholds)
    ensures !thresholds.VList? ==> r == Err(VerificationError)
    ensures thresholds.VList? && thresholds.items == [] ==> r == Err(IndexError)
    ensures r.Ok? <==> thresholds.VList? && thresholds.items != []
    ensures r.Ok? ==> Evacuates(Thresholds(thresholds).value, hazard, exposure, roundThousand, r.value)
  {
    var ts :- Thresholds(thresholds);
    var D := NanToZero(hazard);
    var P := NanToZero(exposure);
    var counts, impact := CountBands(D, P, ts, roundThousand);
    if counts == [] {
      return Err(IndexError);
    }
    var evacuated := counts[|counts| - 1];
    NanSumOfZeroFilled(exposure);
    var total := roundThousand(TruncInt(Sum(P)));
    r := Ok(Evacuation(ts, counts, evacuated, total, impact.value));
  }

  /** The keywords run() records before the analysis. */
  method RecordRun(info: ImpactFunctionInfo, hazardLayer: LayerInfo, exposureLayer: LayerInfo) returns (kw: Keywords)
    ensures fresh(kw) && kw.primaryLayer != null && fresh(kw.primaryLayer)
    ensures kw.primaryLayer.functionDetails == FunctionDetails(info)
    ensures kw.primaryLayer.title == VStr("People in need of evacuation")
    ensures kw.provenance == RecordProvenance(RecordProvenance(map[], hazardLayer, "impact_layer"), exposureLayer, "exposure_layer")
  {
    kw := new Keywords.ImpactKeywords();
    var layer := kw.primaryLayer;
    layer.SetFunctionDetails(info);
    layer.SetTitle(VStr("People in need of evacuation"));
    kw.SetProvenanceLayer(hazardLayer, "impact_layer");
    kw.SetProvenanceLayer(exposureLayer, "exposure_layer");
  }

  /** run() as written: after the minimum needs are recorded it calls
      set_impact_assesment_population, which the impact layer keywords do
      not define, so every run with a non-empty threshold list ends in
      AttributeError and the zero-impact test is never reached. */
  method Run(info: ImpactFunctionInfo, roundThousand: int -> int, weeklyNeeds: int -> Value,
             hazardLayer: LayerInfo, exposureLayer: LayerInfo,
             thresholds: Value, hazard: seq<Num>, exposure: seq<Num>)
    returns (r: Result<Evacuation>, kw: Keywords)
    requires |hazard| == |exposure| && NumbersOnly(thresholds)
    ensures fresh(kw) && kw.primaryLayer != null
    ensures kw.primaryLayer.functionDetails == FunctionDetails(info)
    ensures kw.primaryLayer.title == VStr("People in need of evacuation")
    ensures !thresholds.VList? ==> r == Err(VerificationError)
    ensures thresholds.VList? && thresholds.items == [] ==> r == Err(IndexError)
    ensures thresholds.VList? && thresholds.items != [] ==> r == Err(AttributeError)
    ensures thresholds.VList? && thresholds.items != [] ==>
      kw.primaryLayer.minimumNeeds == weeklyNeeds(Evacuated(Thresholds(thresholds).value, hazard, exposure, roundThousand))
  {
    kw := RecordRun(info, hazardLayer, exposureLayer);
    var analysis := Analyse(thresholds, hazard, exposure, roundThousand);
    if analysis.Err? {
      return Err(analysis.error), kw;
    }
    var ev := analysis.value;
    kw.primaryLayer.SetMinimumNeeds(weeklyNeeds(ev.evacuated));
    r := Err(AttributeError);
  }

  /** No one lives in a cell whose depth reaches the last threshold. */
  ghost predicate NoneAtLast(ts: seq<Num>, hazard: seq<Num>, exposure: seq<Num>)
    requires |hazard| == |exposure| && ts != []
  {
    forall c :: 0 <= c < |hazard| && AtLeast(NanToZero(hazard)[c], ts[|ts| - 1]) ==> NanToZero(exposure)[c] == 0.0
  }

  /** On the numbers of run(), the zero-impact test raises ValueError on
      an empty grid and otherwise ZeroImpactException with the evacuated
      count exactly when no one lives at or above the last threshold. */
  lemma ZeroImpactOfRun(ts: seq<Num>, hazard: seq<Num>, exposure: seq<Num>, roundThousand: int -> int, ev: Evacuation)
    requires |hazard| == |exposure| && Evacuates(ts, hazard, exposure, roundThousand, ev)
    ensures hazard == [] ==> ZeroImpactCheck(ev.impact, ev.evacuated) == Some(ValueError)
    ensures hazard != [] ==>
      (ZeroImpactCheck(ev.impact, ev.evacuated) == Some(ZeroImpactException(Evacuated(ts, hazard, exposure, roundThousand))) <==>
       NoneAtLast(ts, hazard, exposure))
    ensures hazard != [] ==> (ZeroImpactCheck(ev.impact, ev.evacuated).None? <==> !NoneAtLast(ts, hazard, exposure))
  {
    var D := NanToZero(hazard);
    var P := NanToZero(exposure);
    var last := ts[|ts| - 1];
    assert ev.impact == Band(D, P, last, None);
    if hazard != [] {
      ZeroImpactOfBands(D, P, last, ev.evacuated);
    }
  }

  /** run() with the missing keyword call and the summary table left out:
      the numbers, then the zero-impact test on the last threshold's band. */
  method Assess(thresholds: Value, hazard: seq<Num>, exposure: seq<Num>, roundThousand: int -> int)
    returns (r: Result<Evacuation>)
    requires |hazard| == |exposure| && NumbersOnly(thresholds)
    ensures !thresholds.VList? ==> r == Err(VerificationError)
    ensures thresholds.VList? && thresholds.items == [] ==> r == Err(IndexError)
    ensures thresholds.VList? && thresholds.items != [] && hazard == [] ==> r == Err(ValueError)
    ensures thresholds.VList? && thresholds.items != [] && hazard != [] ==>
      var ts := Thresholds(thresholds).value;
      (NoneAtLast(ts, hazard, exposure) ==>
         r == Err(ZeroImpactException(BandCount(NanToZero(hazard), NanToZero(exposure), ts, |ts| - 1, roundThousand)))) &&
      (!NoneAtLast(ts, hazard, exposure) ==> r.Ok? && Evacuates(ts, hazard, exposure, roundThousand, r.value))
  {
    r := Analyse(thresholds, hazard, exposure, roundThousand);
    if r.Err? {
      return;
    }
    var ev := r.value;
    ZeroImpactOfRun(Thresholds(thresholds).value, hazard, exposure, roundThousand, ev);
    var zero := ZeroImpactCheck(ev.impact, ev.evacuated);
    if zero.Some? {
      r := Err(zero.value);
    }
  }
}
