/** Earthquake impact on buildings: every building is classed by the shake
    intensity (MMI) at its location against the low, medium and high
    thresholds, the classes are counted and, for NEXIS building data, the
    building and contents values are totalled per class in millions of
    dollars. The results fill a breakdown table and the impact keywords. */
module EarthquakeBuilding {
  import opened Common
  import opened Keywords
  import opened TableFormatter

  /** The attribute that receives each building's class. */
  const TargetField := "Shake_cls"
  const HazardAttribute := "mmi"

  /** Low, medium and high MMI thresholds. */
  datatype Thresholds = Thresholds(t0: real, t1: real, t2: real)

  /** The function's default parameters: 6, 7 and 8. */
  const DefaultThresholds := Thresholds(6.0, 7.0, 8.0)

  /** A threshold as the comparisons use it: an int or a bool as a number,
      a finite float as it is; any other value is refused with TypeError. */
  function ThresholdValue(v: Value): (r: Result<real>)
    ensures v.VInt? ==> r == Ok(v.i as real)
    ensures v.VFloat? && v.f.Fin? ==> r == Ok(v.f.r)
    ensures r.Ok? <==> v.VInt? || v.VBool? || (v.VFloat? && v.f.Fin?)
    ensures r.Err? ==> r.error == TypeError
  {
    match v
    case VInt(i) => Ok(i as real)
    case VBool(b) => Ok(if b then 1.0 else 0.0)
    case VFloat(f) => if f.NaN? then Err(TypeError) else Ok(f.r)
    case _ => Err(TypeError)
  }

  /** A threshold the comparisons accept is shown by '%i' as its integer
      part. */
  lemma ThresholdShown(v: Value)
    requires ThresholdValue(v).Ok?
    ensures PercentI(v) == Ok(TruncInt(ThresholdValue(v).value))
  {
    if v.VInt? {
      assert TruncInt(v.i as real) == v.i;
    } else if v.VBool? {
      assert TruncInt(0.0) == 0 && TruncInt(1.0) == 1;
    }
  }

  /** t0, t1, t2 = parameters['low_threshold'], ['medium_threshold'],
      ['high_threshold']: the three keys are looked up in that order, the
      first missing one raising KeyError; then their values are read. */
  function ReadThresholds(parameters: Value): (r: Result<Thresholds>)
    ensures DictGet(parameters, "low_threshold").Err? ==> r == Err(DictGet(parameters, "low_threshold").error)
    ensures DictGet(parameters, "low_threshold").Ok? && DictGet(parameters, "medium_threshold").Err? ==>
      r == Err(KeyError)
    ensures (DictGet(parameters, "low_threshold").Ok? && DictGet(parameters, "medium_threshold").Ok? &&
             DictGet(parameters, "high_threshold").Err?) ==> r == Err(KeyError)
    ensures (DictGet(parameters, "low_threshold").Ok? && DictGet(parameters, "medium_threshold").Ok? &&
             DictGet(parameters, "high_threshold").Ok? && r.Err?) ==> r.error == TypeError
    ensures r.Ok? <==>
      DictGet(parameters, "low_threshold").Ok? && DictGet(parameters, "medium_threshold").Ok? &&
      DictGet(parameters, "high_threshold").Ok? &&
      ThresholdValue(DictGet(parameters, "low_threshold").value).Ok? &&
      ThresholdValue(DictGet(parameters, "medium_threshold").value).Ok? &&
      ThresholdValue(DictGet(parameters, "high_threshold").value).Ok?
    ensures r.Ok? ==>
      ThresholdValue(DictGet(parameters, "low_threshold").value) == Ok(r.value.t0) &&
      ThresholdValue(DictGet(parameters, "medium_threshold").value) == Ok(r.value.t1) &&
      ThresholdValue(DictGet(parameters, "high_threshold").value) == Ok(r.value.t2)
  {
    var v0 :- DictGet(parameters, "low_threshold");
    var v1 :- DictGet(parameters, "medium_threshold");
    var v2 :- DictGet(parameters, "high_threshold");
    var t0 :- ThresholdValue(v0);
    var t1 :- ThresholdValue(v1);
    var t2 :- ThresholdValue(v2);
    Ok(Thresholds(t0, t1, t2))
  }

  /** The function's default parameters, 6, 7 and 8 with the categorical
      aggregation postprocessor switched on. */
  function DefaultParameters(): Value
  {
    VDict([("low_threshold", VInt(6)), ("medium_threshold", VInt(7)), ("high_threshold", VInt(8)),
           ("postprocessors", VDict([("AggregationCategorical", VDict([("on", VBool(true))]))]))])
  }

  /** The default parameters read as the default thresholds. */
  lemma DefaultParametersRead()
    ensures ReadThresholds(DefaultParameters()) == Ok(DefaultThresholds)
  {
    var p := DefaultParameters();
    assert DictGet(p, "low_threshold") == Ok(VInt(6));
    assert DictGet(p, "medium_threshold") == Ok(VInt(7));
    assert DictGet(p, "high_threshold") == Ok(VInt(8));
  }

  /** The building checklist shows the thresholds the buildings were
      classed by: both read the same function_details['parameters']. */
  lemma ChecklistShowsThresholds(info: ImpactFunctionInfo)
    requires ReadThresholds(info.parameters).Ok?
    ensures var t := ReadThresholds(info.parameters).value;
      ChecklistThresholds(FunctionDetails(info)) == Ok((TruncInt(t.t0), TruncInt(t.t1), TruncInt(t.t2)))
  {
    FunctionDetailsParameters(info);
    var p := info.parameters;
    ThresholdShown(DictGet(p, "low_threshold").value);
    ThresholdShown(DictGet(p, "medium_threshold").value);
    ThresholdShown(DictGet(p, "high_threshold").value);
  }

  /** The checklist that closes the building table shows those same
      thresholds, highest first. */
  lemma TableShowsThresholds(info: ImpactFunctionInfo, provenance: map<string, Value>, b: ImpactBreakdown?,
                             table: seq<Entry>)
    requires b != null ==> b.Valid()
    requires ReadThresholds(info.parameters).Ok?
    requires BuildingTableOf(provenance, FunctionDetails(info), b) == Ok(table)
    ensures var t := ReadThresholds(info.parameters).value;
      |table| >= 3 &&
      table[|table| - 3..] ==
        [Line(Fill(HighHazardDefined, [Number(TruncInt(t.t2))])),
         Line(Fill(MediumHazardDefined, [Number(TruncInt(t.t1)), Number(TruncInt(t.t2))])),
         Line(Fill(LowHazardDefined, [Number(TruncInt(t.t0)), Number(TruncInt(t.t1))]))]
  {
    ChecklistShowsThresholds(info);
  }

  predicate Ordered(t: Thresholds)
  {
    t.t0 <= t.t1 <= t.t2
  }

  /** A building's class: 1 (low), 2 (medium), 3 (high) or 0 (unaffected).
      NaN fails every comparison and is unaffected. */
  function ShakeClass(x: Num, t: Thresholds): (c: nat)
    ensures c <= 3
  {
    if x.NaN? then 0
    else if t.t0 <= x.r < t.t1 then 1
    else if t.t1 <= x.r < t.t2 then 2
    else if t.t2 <= x.r then 3
    else 0
  }

  /** For ordered thresholds each class is exactly one interval, and a value
      on a boundary belongs to the upper class. */
  lemma ShakeClassIntervals(x: Num, t: Thresholds)
    requires Ordered(t)
    ensures ShakeClass(x, t) == 1 <==> x.Fin? && t.t0 <= x.r < t.t1
    ensures ShakeClass(x, t) == 2 <==> x.Fin? && t.t1 <= x.r < t.t2
    ensures ShakeClass(x, t) == 3 <==> x.Fin? && t.t2 <= x.r
    ensures ShakeClass(x, t) == 0 <==> x.NaN? || x.r < t.t0
  {
  }

  /** For ordered thresholds a stronger shake never gives a lower class. */
  lemma ShakeClassMonotone(x: real, y: real, t: Thresholds)
    requires Ordered(t) && x <= y
    ensures ShakeClass(Fin(x), t) <= ShakeClass(Fin(y), t)
  {
  }

  /** Raising the thresholds never gives a higher class. */
  lemma ShakeClassThresholdsRaised(x: Num, t: Thresholds, u: Thresholds)
    requires Ordered(t) && Ordered(u)
    requires t.t0 <= u.t0 && t.t1 <= u.t1 && t.t2 <= u.t2
    ensures ShakeClass(x, u) <= ShakeClass(x, t)
  {
  }

  /** NEXIS data: floor area, building and contents value densities are all
      attributes of the exposure. */
  predicate IsNexis(attributeNames: seq<string>)
  {
    "FLOOR_AREA" in attributeNames && "BUILDING_C" in attributeNames && "CONTENTS_C" in attributeNames
  }

  /** float(row[k]) for a NEXIS attribute: a missing attribute or a text
      that is not a number reads as 0.0; None is a TypeError. */
  function NexisFloat(row: Row, k: string): (r: Result<Num>)
    ensures k !in row ==> r == Ok(Fin(0.0))
    ensures r.Err? <==> k in row && PyFloat(row[k]) == Err(TypeError)
    ensures r.Err? ==> r.error == TypeError
    ensures k in row && PyFloat(row[k]).Ok? ==> r == PyFloat(row[k])
    ensures k in row && PyFloat(row[k]) == Err(ValueError) ==> r == Ok(Fin(0.0))
  {
    if k !in row then Ok(Fin(0.0))
    else
      match PyFloat(row[k])
      case Ok(n) => Ok(n)
      case Err(e) => if e == TypeError then Err(TypeError) else Ok(Fin(0.0))
  }

  /** float(row['mmi']): None (a TypeError) reads as 0.0; a missing
      attribute or a text that is not a number fails. */
  function MmiOf(row: Row): (r: Result<Num>)
    ensures HazardAttribute !in row ==> r == Err(KeyError)
    ensures HazardAttribute in row && row[HazardAttribute] == VNone ==> r == Ok(Fin(0.0))
    ensures HazardAttribute in row && PyFloat(row[HazardAttribute]).Ok? ==> r == PyFloat(row[HazardAttribute])
    ensures r.Err? ==> r.error == KeyError || r.error == ValueError
  {
    if HazardAttribute !in row then Err(KeyError)
    else
      match PyFloat(row[HazardAttribute])
      case Ok(n) => Ok(n)
      case Err(e) => if e == TypeError then Ok(Fin(0.0)) else Err(e)
  }

  /** One building: its class and (for NEXIS data) its building and contents
      values, density times floor area. */
  datatype RowEval = RowEval(cls: nat, building: Num, contents: Num)

  function EvalRow(row: Row, nexis: bool, t: Thresholds): (r: Result<RowEval>)
    ensures r.Ok? ==> MmiOf(row).Ok? && r.value.cls == ShakeClass(MmiOf(row).value, t)
    ensures !nexis && r.Ok? ==> r.value.building == Fin(0.0) && r.value.contents == Fin(0.0)
    ensures !nexis ==> (r.Ok? <==> MmiOf(row).Ok?)
  {
    if nexis then
      var area :- NexisFloat(row, "FLOOR_AREA");
      var buildingDensity :- NexisFloat(row, "BUILDING_C");
      var contentsDensity :- NexisFloat(row, "CONTENTS_C");
      var x :- MmiOf(row);
      Ok(RowEval(ShakeClass(x, t), NumMul(buildingDensity, area), NumMul(contentsDensity, area)))
    else
      var x :- MmiOf(row);
      Ok(RowEval(ShakeClass(x, t), Fin(0.0), Fin(0.0)))
  }

  /** A building with no MMI value (None) is unaffected whenever the low
      threshold is positive, as is one whose MMI is NaN. */
  lemma MissingShakeUnaffected(row: Row, nexis: bool, t: Thresholds)
    requires HazardAttribute in row
    requires row[HazardAttribute] == VNone || row[HazardAttribute] == VFloat(NaN)
    requires Ordered(t) && t.t0 > 0.0
    ensures EvalRow(row, nexis, t).Ok? ==> EvalRow(row, nexis, t).value.cls == 0
    ensures !nexis ==> EvalRow(row, nexis, t) == Ok(RowEval(0, Fin(0.0), Fin(0.0)))
  {
    if row[HazardAttribute] == VNone {
      assert MmiOf(row) == Ok(Fin(0.0));
    } else {
      assert MmiOf(row) == Ok(NaN);
    }
  }

  /** In NEXIS mode a building without a floor area has no value. */
  lemma NexisMissingAreaIsZero(row: Row, t: Thresholds)
    requires "FLOOR_AREA" !in row
    ensures EvalRow(row, true, t).Ok? ==>
      EvalRow(row, true, t).value.building == NumMul(NexisFloat(row, "BUILDING_C").value, Fin(0.0))
  {
  }

  predicate AllEvaluate(rows: seq<Row>, nexis: bool, t: Thresholds)
  {
    forall i :: 0 <= i < |rows| ==> EvalRow(rows[i], nexis, t).Ok?
  }

  function Evals(rows: seq<Row>, nexis: bool, t: Thresholds): (evs: seq<RowEval>)
    requires AllEvaluate(rows, nexis, t)
    ensures |evs| == |rows|
  {
    seq(|rows|, i requires 0 <= i < |rows| && AllEvaluate(rows, nexis, t) => EvalRow(rows[i], nexis, t).value)
  }

  /** The number of buildings of class k. */
  function CountClass(evs: seq<RowEval>, k: nat): nat
  {
    if evs == [] then 0
    else CountClass(evs[..|evs| - 1], k) + (if evs[|evs| - 1].cls == k then 1 else 0)
  }

  /** The building (or contents) value of the buildings of class k, summed
      in order from 0. */
  function ClassTotal(evs: seq<RowEval>, k: nat, building: bool): Num
  {
    if evs == [] then Fin(0.0)
    else
      var e := evs[|evs| - 1];
      var rest := ClassTotal(evs[..|evs| - 1], k, building);
      if e.cls == k then NumAdd(rest, if building then e.building else e.contents) else rest
  }

  /** Every building is counted in exactly one class. */
  lemma {:induction false} CountsAddUp(evs: seq<RowEval>)
    requires forall i :: 0 <= i < |evs| ==> evs[i].cls <= 3
    ensures CountClass(evs, 0) + CountClass(evs, 1) + CountClass(evs, 2) + CountClass(evs, 3) == |evs|
  {
    if evs != [] {
      CountsAddUp(evs[..|evs| - 1]);
    }
  }

  /** The count of a class is the number of buildings whose evaluation gives
      that class. */
  lemma {:induction false} CountClassBound(evs: seq<RowEval>, k: nat)
    ensures CountClass(evs, k) <= |evs|
    ensures (forall i :: 0 <= i < |evs| ==> evs[i].cls != k) ==> CountClass(evs, k) == 0
  {
    if evs != [] {
      CountClassBound(evs[..|evs| - 1], k);
    }
  }

  /** The four class counts, unaffected first. */
  function Counts(evs: seq<RowEval>): (c: seq<nat>)
    ensures |c| == 4 && forall k :: 0 <= k < 4 ==> c[k] == CountClass(evs, k)
  {
    [CountClass(evs, 0), CountClass(evs, 1), CountClass(evs, 2), CountClass(evs, 3)]
  }

  /** The four class totals of building (or contents) value. */
  function Totals(evs: seq<RowEval>, building: bool): (s: seq<Num>)
    ensures |s| == 4 && forall k :: 0 <= k < 4 ==> s[k] == ClassTotal(evs, k, building)
  {
    [ClassTotal(evs, 0, building), ClassTotal(evs, 1, building), ClassTotal(evs, 2, building), ClassTotal(evs, 3, building)]
  }

  /** Appending one building changes only the tallies of its own class. */
  lemma AppendOne(evs: seq<RowEval>, e: RowEval)
    requires e.cls < 4
    ensures Counts(evs + [e]) == Counts(evs)[e.cls := Counts(evs)[e.cls] + 1]
    ensures Totals(evs + [e], true) == Totals(evs, true)[e.cls := NumAdd(Totals(evs, true)[e.cls], e.building)]
    ensures Totals(evs + [e], false) == Totals(evs, false)[e.cls := NumAdd(Totals(evs, false)[e.cls], e.contents)]
  {
    assert (evs + [e])[..|evs|] == evs;
  }

  /** One more building evaluated and marked keeps the classification
      loop's record of the buildings before it. */
  lemma MarkedStep(rows: seq<Row>, nexis: bool, t: Thresholds, evs: seq<RowEval>, attributes: seq<Row>,
                   i: nat, e: RowEval)
    requires i < |rows| == |attributes| && |evs| == i
    requires forall j :: 0 <= j < i ==> EvalRow(rows[j], nexis, t) == Ok(evs[j])
    requires forall j :: 0 <= j < i ==> attributes[j] == Marked(rows[j], evs[j].cls)
    requires forall j :: i <= j < |rows| ==> attributes[j] == rows[j]
    requires EvalRow(rows[i], nexis, t) == Ok(e)
    ensures var evs', attributes' := evs + [e], attributes[i := Marked(rows[i], e.cls)];
      (forall j :: 0 <= j < i + 1 ==> EvalRow(rows[j], nexis, t) == Ok(evs'[j])) &&
      (forall j :: 0 <= j < i + 1 ==> attributes'[j] == Marked(rows[j], evs'[j].cls)) &&
      (forall j :: i + 1 <= j < |rows| ==> attributes'[j] == rows[j])
  {
  }

  /** Reads one building's MMI and, for NEXIS data, its building and
      contents values (density times floor area). */
  method ReadBuilding(row: Row, nexis: bool, t: Thresholds) returns (r: Result<(Num, Num, Num)>)
    ensures r.Err? ==> EvalRow(row, nexis, t) == Err(r.error)
    ensures r.Ok? ==> MmiOf(row) == Ok(r.value.0)
    ensures r.Ok? ==> EvalRow(row, nexis, t) == Ok(RowEval(ShakeClass(r.value.0, t), r.value.1, r.value.2))
  {
    var buildingValue := Fin(0.0);
    var contentsValue := Fin(0.0);
    if nexis {
      var area := NexisFloat(row, "FLOOR_AREA");
      if area.Err? {
        return Err(area.error);
      }
      var buildingDensity := NexisFloat(row, "BUILDING_C");
      if buildingDensity.Err? {
        return Err(buildingDensity.error);
      }
      var contentsDensity := NexisFloat(row, "CONTENTS_C");
      if contentsDensity.Err? {
        return Err(contentsDensity.error);
      }
      buildingValue := NumMul(buildingDensity.value, area.value);
      contentsValue := NumMul(contentsDensity.value, area.value);
    }
    var mmi := MmiOf(row);
    if mmi.Err? {
      return Err(mmi.error);
    }
    r := Ok((mmi.value, buildingValue, contentsValue));
  }

  /** The per-class tallies of the classification loop. */
  datatype Tally = Tally(attributes: seq<Row>, counts: seq<nat>, buildingTotals: seq<Num>, contentsTotals: seq<Num>)

  /** A building's attributes with its class written to Shake_cls; every
      other attribute is unchanged. */
  function Marked(row: Row, cls: nat): Row
  {
    row[TargetField := VInt(cls)]
  }

  /** The class ladder of one building: the counter of its class goes up
      by one. */
  method Tally1(x: Num, t: Thresholds, unaffected: nat, lo: nat, me: nat, hi: nat)
    returns (cls: nat, unaffected': nat, lo': nat, me': nat, hi': nat)
    ensures cls == ShakeClass(x, t)
    ensures [unaffected', lo', me', hi'] == [unaffected, lo, me, hi][cls := [unaffected, lo, me, hi][cls] + 1]
  {
    unaffected', lo', me', hi' := unaffected, lo, me, hi;
    if x.Fin? && t.t0 <= x.r < t.t1 {
      lo' := lo + 1;
      cls := 1;
    } else if x.Fin? && t.t1 <= x.r < t.t2 {
      me' := me + 1;
      cls := 2;
    } else if x.Fin? && t.t2 <= x.r {
      hi' := hi + 1;
      cls := 3;
    } else {
      unaffected' := unaffected + 1;
      cls := 0;
    }
  }

  /** For NEXIS data a building's values go to its class's totals; other
      data carries no values, so adding its zeros changes nothing. */
  method AddValues(nexis: bool, buildingValues: seq<Num>, contentsValues: seq<Num>, cls: nat,
                   buildingValue: Num, contentsValue: Num)
    returns (buildingValues': seq<Num>, contentsValues': seq<Num>)
    requires |buildingValues| == 4 && |contentsValues| == 4 && cls < 4
    requires !nexis ==> buildingValue == Fin(0.0) && contentsValue == Fin(0.0)
    ensures buildingValues' == buildingValues[cls := NumAdd(buildingValues[cls], buildingValue)]
    ensures contentsValues' == contentsValues[cls := NumAdd(contentsValues[cls], contentsValue)]
  {
    buildingValues', contentsValues' := buildingValues, contentsValues;
    if nexis {
      buildingValues' := buildingValues[cls := NumAdd(buildingValues[cls], buildingValue)];
      contentsValues' := contentsValues[cls := NumAdd(contentsValues[cls], contentsValue)];
    } else {
      assert buildingValues[cls] == NumAdd(buildingValues[cls], buildingValue);
      assert contentsValues[cls] == NumAdd(contentsValues[cls], contentsValue);
    }
  }

  /** The first building (in order) that cannot be read raises e. */
  predicate FailsFirstWith(rows: seq<Row>, nexis: bool, t: Thresholds, e: Error)
  {
    exists i :: 0 <= i < |rows| && EvalRow(rows[i], nexis, t) == Err(e) &&
      forall j :: 0 <= j < i ==> EvalRow(rows[j], nexis, t).Ok?
  }

  /** The building at i is the first that cannot be read. */
  lemma FirstFailure(rows: seq<Row>, nexis: bool, t: Thresholds, evs: seq<RowEval>, i: nat, e: Error)
    requires i < |rows| && |evs| == i && EvalRow(rows[i], nexis, t) == Err(e)
    requires forall j :: 0 <= j < i ==> EvalRow(rows[j], nexis, t) == Ok(evs[j])
    ensures !AllEvaluate(rows, nexis, t) && FailsFirstWith(rows, nexis, t, e)
  {
  }

  /** Evaluations recorded for every building are Evals. */
  lemma AllEvaluated(rows: seq<Row>, nexis: bool, t: Thresholds, evs: seq<RowEval>)
    requires |evs| == |rows|
    requires forall j :: 0 <= j < |rows| ==> EvalRow(rows[j], nexis, t) == Ok(evs[j])
    ensures AllEvaluate(rows, nexis, t) && evs == Evals(rows, nexis, t)
  {
  }

  /** The classification loop: each building's class is written to its
      Shake_cls attribute (no other attribute changes), the classes are
      counted and, for NEXIS data, the values are totalled per class. */
  method ClassifyBuildings(rows: seq<Row>, nexis: bool, t: Thresholds) returns (r: Result<Tally>)
    ensures r.Ok? <==> AllEvaluate(rows, nexis, t)
    ensures r.Err? ==> FailsFirstWith(rows, nexis, t, r.error)
    ensures r.Ok? ==>
      var evs := Evals(rows, nexis, t);
      |r.value.attributes| == |rows| &&
      (forall i :: 0 <= i < |rows| ==> r.value.attributes[i] == Marked(rows[i], evs[i].cls)) &&
      r.value.counts == Counts(evs) &&
      r.value.buildingTotals == Totals(evs, true) && r.value.contentsTotals == Totals(evs, false)
  {
    var unaffected, lo, me, hi := 0, 0, 0, 0;
    var buildingValues := [Fin(0.0), Fin(0.0), Fin(0.0), Fin(0.0)];
    var contentsValues := [Fin(0.0), Fin(0.0), Fin(0.0), Fin(0.0)];
    var attributes := rows;
    ghost var evs: seq<RowEval> := [];
    var i := 0;
    while i < |rows|
      invariant 0 <= i <= |rows|
      invariant |evs| == i && |attributes| == |rows|
      invariant forall j :: 0 <= j < i ==> EvalRow(rows[j], nexis, t) == Ok(evs[j])
      invariant forall j :: 0 <= j < i ==> attributes[j] == Marked(rows[j], evs[j].cls)
      invariant forall j :: i <= j < |rows| ==> attributes[j] == rows[j]
      invariant [unaffected, lo, me, hi] == Counts(evs)
      invariant buildingValues == Totals(evs, true) && contentsValues == Totals(evs, false)
    {
      var row := rows[i];
      ghost var old_attributes := attributes;
      var read := ReadBuilding(row, nexis, t);
      if read.Err? {
        FirstFailure(rows, nexis, t, evs, i, read.error);
        return Err(read.error);
      }
      var (x, buildingValue, contentsValue) := read.value;
      var cls;
      cls, unaffected, lo, me, hi := Tally1(x, t, unaffected, lo, me, hi);
      attributes := attributes[i := Marked(row, cls)];
      buildingValues, contentsValues := AddValues(nexis, buildingValues, contentsValues, cls, buildingValue, contentsValue);
      ghost var e := RowEval(cls, buildingValue, contentsValue);
      AppendOne(evs, e);
      assert EvalRow(rows[i], nexis, t) == Ok(e);
      MarkedStep(rows, nexis, t, evs, old_attributes, i, e);
      evs := evs + [e];
      i := i + 1;
    }
    AllEvaluated(rows, nexis, t, evs);
    r := Ok(Tally(attributes, [unaffected, lo, me, hi], buildingValues, contentsValues));
  }

  /** Each class total in whole millions of dollars, truncated toward zero;
      a NaN total is a ValueError. */
  method ConvertToMillions(buildingTotals: seq<Num>, contentsTotals: seq<Num>)
    returns (r: Result<(seq<int>, seq<int>)>)
    requires |buildingTotals| == 4 && |contentsTotals| == 4
    ensures r.Ok? <==> forall k :: 0 <= k < 4 ==> buildingTotals[k].Fin? && contentsTotals[k].Fin?
    ensures r.Err? ==> r.error == ValueError
    ensures r.Ok? ==> |r.value.0| == 4 && |r.value.1| == 4
    ensures r.Ok? ==> forall k :: 0 <= k < 4 ==>
      r.value.0[k] == TruncInt(buildingTotals[k].r / 1000000.0) &&
      r.value.1[k] == TruncInt(contentsTotals[k].r / 1000000.0)
    ensures r.Ok? ==> forall k :: 0 <= k < 4 && buildingTotals[k].r >= 0.0 ==>
      r.value.0[k] as real * 1000000.0 <= buildingTotals[k].r < (r.value.0[k] + 1) as real * 1000000.0
  {
    var buildingMillions: seq<int> := [];
    var contentsMillions: seq<int> := [];
    for key := 0 to 4
      invariant |buildingMillions| == key && |contentsMillions| == key
      invariant forall k :: 0 <= k < key ==> buildingTotals[k].Fin? && contentsTotals[k].Fin?
      invariant forall k :: 0 <= k < key ==>
        buildingMillions[k] == TruncInt(buildingTotals[k].r / 1000000.0) &&
        contentsMillions[k] == TruncInt(contentsTotals[k].r / 1000000.0)
    {
      var b := PyInt(if buildingTotals[key].NaN? then NaN else Fin(buildingTotals[key].r / 1000000.0));
      if b.Err? {
        return Err(b.error);
      }
      var c := PyInt(if contentsTotals[key].NaN? then NaN else Fin(contentsTotals[key].r / 1000000.0));
      if c.Err? {
        return Err(c.error);
      }
      buildingMillions := buildingMillions + [b.value];
      contentsMillions := contentsMillions + [c.value];
    }
    r := Ok((buildingMillions, contentsMillions));
  }

  /** The breakdown's labels as translated: the categories (unaffected,
      then the three class labels) and the three attribute names. */
  datatype Labels = Labels(categories: seq<string>, affected: string, buildingsValue: string, contentsValue: string)

  /** The untranslated labels. */
  const English := Labels(["Unaffected", "Low", "Medium", "High"],
                          "Buildings Affected", "Buildings value ($M)", "Contents value ($M)")

  /** Four distinct categories and three distinct attribute names. */
  predicate Distinct(l: Labels)
  {
    |l.categories| == 4 &&
    (forall i, j :: 0 <= i < j < 4 ==> l.categories[i] != l.categories[j]) &&
    l.affected != l.buildingsValue && l.affected != l.contentsValue && l.buildingsValue != l.contentsValue
  }

  /** The untranslated labels are distinct (their lengths or first letters
      differ). */
  lemma EnglishDistinct()
    ensures Distinct(English)
  {
    var c := English.categories;
    assert |c[0]| == 10 && |c[1]| == 3 && |c[2]| == 6 && |c[3]| == 4;
    assert |English.affected| == 18 && |English.buildingsValue| == 20;
    assert English.buildingsValue[0] != English.contentsValue[0];
  }

  function BreakdownAttributes(l: Labels, nexis: bool): (a: seq<string>)
    ensures l.affected in a
    ensures nexis ==> l.buildingsValue in a && l.contentsValue in a
    ensures |a| == if nexis then 3 else 1
  {
    if nexis then [l.affected, l.buildingsValue, l.contentsValue] else [l.affected]
  }

  /** The count writes, breakdown[categories[j], affected] = counts[j]. */
  function CountCells(l: Labels, counts: seq<nat>): (cells: seq<(string, string, Value)>)
    requires |counts| <= |l.categories|
    ensures |cells| == |counts|
    ensures forall j :: 0 <= j < |counts| ==> cells[j] == (l.categories[j], l.affected, VInt(counts[j]))
  {
    seq(|counts|, j requires 0 <= j < |counts| && |counts| <= |l.categories| =>
      (l.categories[j], l.affected, VInt(counts[j])))
  }

  /** The value writes, category by category: building value, then
      contents value. */
  function ValueCells(l: Labels, buildingMillions: seq<int>, contentsMillions: seq<int>): (cells: seq<(string, string, Value)>)
    requires |buildingMillions| == |contentsMillions| <= |l.categories|
    ensures |cells| == 2 * |buildingMillions|
  {
    seq(2 * |buildingMillions|, i requires 0 <= i < 2 * |buildingMillions| && |buildingMillions| == |contentsMillions| <= |l.categories| =>
      if i % 2 == 0 then (l.categories[i / 2], l.buildingsValue, VInt(buildingMillions[i / 2]))
      else (l.categories[i / 2], l.contentsValue, VInt(contentsMillions[i / 2])))
  }

  /** The 'building_breakdown' table: the count of every class and, for
      NEXIS data, its building and contents values in millions. */
  method BuildingBreakdown(l: Labels, counts: seq<nat>, nexis: bool, buildingMillions: seq<int>, contentsMillions: seq<int>)
    returns (b: ImpactBreakdown)
    requires Distinct(l)
    requires |counts| == 4 && |buildingMillions| == 4 && |contentsMillions| == 4
    ensures fresh(b) && b.Valid()
    ensures b.categories == l.categories && b.attributes == BreakdownAttributes(l, nexis)
    ensures b.categoryLabel == VStr("building_breakdown")
    ensures forall k :: 0 <= k < 4 ==> b.Get(l.categories[k], l.affected) == Ok(VInt(counts[k]))
    ensures nexis ==> forall k :: 0 <= k < 4 ==> b.Get(l.categories[k], l.buildingsValue) == Ok(VInt(buildingMillions[k]))
    ensures nexis ==> forall k :: 0 <= k < 4 ==> b.Get(l.categories[k], l.contentsValue) == Ok(VInt(contentsMillions[k]))
  {
    b := NewBreakdown(l.categories, BreakdownAttributes(l, nexis), VStr("building_breakdown"));
    WriteCounts(b, l, counts);
    if nexis {
      WriteValues(b, l, counts, buildingMillions, contentsMillions);
    }
  }

  /** breakdown[c, affected] = count, for the four categories in turn. */
  method WriteCounts(b: ImpactBreakdown, l: Labels, counts: seq<nat>)
    requires b.Valid() && Distinct(l) && |counts| == 4
    requires forall j :: 0 <= j < 4 ==> l.categories[j] in b.data.m
    modifies b
    ensures b.Valid()
    ensures b.categories == old(b.categories) && b.attributes == old(b.attributes)
    ensures b.categoryLabel == old(b.categoryLabel)
    ensures b.data.m.Keys == old(b.data.m.Keys)
    ensures forall k :: 0 <= k < 4 ==> b.Get(l.categories[k], l.affected) == Ok(VInt(counts[k]))
  {
    ghost var d0 := b.data;
    WriteCells(b, CountCells(l, counts));
    CountsWritten(d0, l, counts);
  }

  /** breakdown[c, buildings value] and breakdown[c, contents value], for
      the four categories in turn; the counts stay. */
  method WriteValues(b: ImpactBreakdown, l: Labels, counts: seq<nat>, buildingMillions: seq<int>, contentsMillions: seq<int>)
    requires b.Valid() && Distinct(l) && |counts| == 4 && |buildingMillions| == 4 && |contentsMillions| == 4
    requires forall j :: 0 <= j < 4 ==> l.categories[j] in b.data.m
    requires forall k :: 0 <= k < 4 ==> b.Get(l.categories[k], l.affected) == Ok(VInt(counts[k]))
    modifies b
    ensures b.Valid()
    ensures b.categories == old(b.categories) && b.attributes == old(b.attributes)
    ensures b.categoryLabel == old(b.categoryLabel)
    ensures forall k :: 0 <= k < 4 ==> b.Get(l.categories[k], l.affected) == Ok(VInt(counts[k]))
    ensures forall k :: 0 <= k < 4 ==> b.Get(l.categories[k], l.buildingsValue) == Ok(VInt(buildingMillions[k]))
    ensures forall k :: 0 <= k < 4 ==> b.Get(l.categories[k], l.contentsValue) == Ok(VInt(contentsMillions[k]))
  {
    ghost var d1 := b.data;
    WriteCells(b, ValueCells(l, buildingMillions, contentsMillions));
    ValuesWritten(d1, l, counts, buildingMillions, contentsMillions);
  }

  /** After the count writes every count cell holds its class count. */
  lemma CountsWritten(d0: Table, l: Labels, counts: seq<nat>)
    requires Distinct(l) && |counts| == 4
    requires forall j :: 0 <= j < 4 ==> l.categories[j] in d0.m
    ensures forall k :: 0 <= k < 4 ==>
      CellGet(PutCells(d0, CountCells(l, counts)), l.categories[k], l.affected) == Ok(VInt(counts[k]))
  {
    var cells := CountCells(l, counts);
    forall k | 0 <= k < 4
      ensures CellGet(PutCells(d0, cells), l.categories[k], l.affected) == Ok(VInt(counts[k]))
    {
      PutCellsGet(d0, cells, l.categories[k], l.affected);
      LastWriteOnce(cells, k, CellGet(d0, l.categories[k], l.affected));
    }
  }

  /** After the value writes every value cell holds its total in millions
      and the count cells are unchanged. */
  lemma ValuesWritten(d1: Table, l: Labels, counts: seq<nat>, buildingMillions: seq<int>, contentsMillions: seq<int>)
    requires Distinct(l) && |counts| == 4 && |buildingMillions| == 4 && |contentsMillions| == 4
    requires forall j :: 0 <= j < 4 ==> l.categories[j] in d1.m
    requires forall k :: 0 <= k < 4 ==> CellGet(d1, l.categories[k], l.affected) == Ok(VInt(counts[k]))
    ensures forall k :: 0 <= k < 4 ==>
      var d2 := PutCells(d1, ValueCells(l, buildingMillions, contentsMillions));
      CellGet(d2, l.categories[k], l.affected) == Ok(VInt(counts[k])) &&
      CellGet(d2, l.categories[k], l.buildingsValue) == Ok(VInt(buildingMillions[k])) &&
      CellGet(d2, l.categories[k], l.contentsValue) == Ok(VInt(contentsMillions[k]))
  {
    forall k | 0 <= k < 4
      ensures var d2 := PutCells(d1, ValueCells(l, buildingMillions, contentsMillions));
        CellGet(d2, l.categories[k], l.affected) == Ok(VInt(counts[k])) &&
        CellGet(d2, l.categories[k], l.buildingsValue) == Ok(VInt(buildingMillions[k])) &&
        CellGet(d2, l.categories[k], l.contentsValue) == Ok(VInt(contentsMillions[k]))
    {
      ValuesWrittenAt(d1, l, buildingMillions, contentsMillions, k);
    }
  }

  /** Value cell i belongs to category i / 2; even cells hold building
      values, odd cells contents values. */
  lemma ValueCellAt(l: Labels, buildingMillions: seq<int>, contentsMillions: seq<int>, i: nat)
    requires |buildingMillions| == |contentsMillions| <= |l.categories|
    requires i < 2 * |buildingMillions|
    ensures var c := ValueCells(l, buildingMillions, contentsMillions)[i];
      c.0 == l.categories[i / 2] &&
      c.1 == (if i % 2 == 0 then l.buildingsValue else l.contentsValue) &&
      c.2 == VInt(if i % 2 == 0 then buildingMillions[i / 2] else contentsMillions[i / 2])
  {
  }

  /** Every value cell names a category of the table. */
  lemma ValueCellsKnown(l: Labels, buildingMillions: seq<int>, contentsMillions: seq<int>, t: Table)
    requires |buildingMillions| == |contentsMillions| <= |l.categories|
    requires forall j :: 0 <= j < |buildingMillions| ==> l.categories[j] in t.m
    ensures var cells := ValueCells(l, buildingMillions, contentsMillions);
      forall i :: 0 <= i < |cells| ==> cells[i].0 in t.m
  {
    var cells := ValueCells(l, buildingMillions, contentsMillions);
    forall i | 0 <= i < |cells|
      ensures cells[i].0 in t.m
    {
      ValueCellAt(l, buildingMillions, contentsMillions, i);
    }
  }

  /** The value writes leave the count cells alone. */
  lemma CountSurvivesValues(d1: Table, l: Labels, buildingMillions: seq<int>, contentsMillions: seq<int>, k: nat)
    requires Distinct(l) && |buildingMillions| == 4 && |contentsMillions| == 4 && k < 4
    requires forall j :: 0 <= j < 4 ==> l.categories[j] in d1.m
    ensures CellGet(PutCells(d1, ValueCells(l, buildingMillions, contentsMillions)), l.categories[k], l.affected)
      == CellGet(d1, l.categories[k], l.affected)
  {
    var cells := ValueCells(l, buildingMillions, contentsMillions);
    var c := l.categories[k];
    ValueCellsKnown(l, buildingMillions, contentsMillions, d1);
    PutCellsGet(d1, cells, c, l.affected);
    forall i | 0 <= i < |cells|
      ensures (cells[i].0, cells[i].1) != (c, l.affected)
    {
      ValueCellAt(l, buildingMillions, contentsMillions, i);
    }
    LastWriteNever(cells, c, l.affected, CellGet(d1, c, l.affected));
  }

  /** After the value writes, value cell i holds its total. */
  lemma ValueWritten(d1: Table, l: Labels, buildingMillions: seq<int>, contentsMillions: seq<int>, i: nat)
    requires Distinct(l) && |buildingMillions| == 4 && |contentsMillions| == 4 && i < 8
    requires forall j :: 0 <= j < 4 ==> l.categories[j] in d1.m
    ensures var cell := ValueCells(l, buildingMillions, contentsMillions)[i];
      CellGet(PutCells(d1, ValueCells(l, buildingMillions, contentsMillions)), cell.0, cell.1) == Ok(cell.2)
  {
    var cells := ValueCells(l, buildingMillions, contentsMillions);
    ValueCellsKnown(l, buildingMillions, contentsMillions, d1);
    PutCellsGet(d1, cells, cells[i].0, cells[i].1);
    ValueCellOnce(l, buildingMillions, contentsMillions, i);
    LastWriteOnce(cells, i, CellGet(d1, cells[i].0, cells[i].1));
  }

  /** After the value writes the value cells of category k hold its totals
      in millions, and its count cell is unchanged. */
  lemma ValuesWrittenAt(d1: Table, l: Labels, buildingMillions: seq<int>, contentsMillions: seq<int>, k: nat)
    requires Distinct(l) && |buildingMillions| == 4 && |contentsMillions| == 4 && k < 4
    requires forall j :: 0 <= j < 4 ==> l.categories[j] in d1.m
    ensures var d2 := PutCells(d1, ValueCells(l, buildingMillions, contentsMillions));
      CellGet(d2, l.categories[k], l.affected) == CellGet(d1, l.categories[k], l.affected) &&
      CellGet(d2, l.categories[k], l.buildingsValue) == Ok(VInt(buildingMillions[k])) &&
      CellGet(d2, l.categories[k], l.contentsValue) == Ok(VInt(contentsMillions[k]))
  {
    CountSurvivesValues(d1, l, buildingMillions, contentsMillions, k);
    assert (2 * k) / 2 == k && (2 * k) % 2 == 0 && (2 * k + 1) / 2 == k && (2 * k + 1) % 2 == 1;
    ValueCellAt(l, buildingMillions, contentsMillions, 2 * k);
    ValueCellAt(l, buildingMillions, contentsMillions, 2 * k + 1);
    ValueWritten(d1, l, buildingMillions, contentsMillions, 2 * k);
    ValueWritten(d1, l, buildingMillions, contentsMillions, 2 * k + 1);
  }

  /** Each value cell is written once. */
  lemma ValueCellOnce(l: Labels, buildingMillions: seq<int>, contentsMillions: seq<int>, i: nat)
    requires Distinct(l) && |buildingMillions| == 4 && |contentsMillions| == 4 && i < 8
    ensures var cells := ValueCells(l, buildingMillions, contentsMillions);
      forall j :: 0 <= j < 8 && j != i ==> (cells[j].0, cells[j].1) != (cells[i].0, cells[i].1)
  {
    var cells := ValueCells(l, buildingMillions, contentsMillions);
    ValueCellAt(l, buildingMillions, contentsMillions, i);
    forall j | 0 <= j < 8 && j != i
      ensures (cells[j].0, cells[j].1) != (cells[i].0, cells[i].1)
    {
      ValueCellAt(l, buildingMillions, contentsMillions, j);
      if j / 2 == i / 2 {
        assert j % 2 != i % 2;
      }
    }
  }

  /** What run() produces: the buildings' attributes with their classes,
      and the impact summary table. */
  datatype BuildingImpact = BuildingImpact(attributes: seq<Row>, summary: seq<Entry>)

  /** The part of run() after the thresholds are read: classifies every
      building, fills the building breakdown of the recorded keywords and
      formats the summary. */
  method ClassifyAndSummarise(kw: Keywords, attributeNames: seq<string>, rows: seq<Row>, t: Thresholds, l: Labels)
    returns (r: Result<BuildingImpact>)
    requires Distinct(l)
    requires kw.primaryLayer != null && kw.primaryLayer.impactBreakdown == null
    requires kw.primaryLayer.impactAssessment == ImpactAssessment("buildings", "earthquake")
    modifies kw.primaryLayer
    ensures kw.primaryLayer.functionDetails == old(kw.primaryLayer.functionDetails)
    ensures kw.primaryLayer.title == old(kw.primaryLayer.title)
    ensures kw.primaryLayer.impactAssessment == old(kw.primaryLayer.impactAssessment)
    ensures !AllEvaluate(rows, IsNexis(attributeNames), t) ==>
      r.Err? && FailsFirstWith(rows, IsNexis(attributeNames), t, r.error)
    ensures r.Ok? ==> AllEvaluate(rows, IsNexis(attributeNames), t)
    ensures (AllEvaluate(rows, IsNexis(attributeNames), t) && IsNexis(attributeNames) &&
             !TotalsFinite(Evals(rows, IsNexis(attributeNames), t))) ==> r == Err(ValueError)
    ensures r.Ok? ==> Analysed(rows, IsNexis(attributeNames), t, l, r.value.attributes, kw.primaryLayer.impactBreakdown)
    ensures kw.primaryLayer.impactBreakdown != null ==> kw.primaryLayer.impactBreakdown.Valid()
    ensures (AllEvaluate(rows, IsNexis(attributeNames), t) &&
             (IsNexis(attributeNames) ==> TotalsFinite(Evals(rows, IsNexis(attributeNames), t)))) ==>
      var table := BuildingTableOf(kw.provenance, kw.primaryLayer.functionDetails, kw.primaryLayer.impactBreakdown);
      (table.Err? ==> r == Err(table.error)) &&
      (table.Ok? ==> r.Ok? && r.value.summary == table.value)
  {
    var analysis := Analyse(rows, IsNexis(attributeNames), t, l);
    if analysis.Err? {
      return Err(analysis.error);
    }
    var (attributes, breakdown) := analysis.value;
    var summary := Summarise(kw, breakdown);
    if summary.Err? {
      return Err(summary.error);
    }
    r := Ok(BuildingImpact(attributes, summary.value));
  }

  /** run(): records the function and the layers in the impact keywords,
      reads the thresholds from the function's parameters (a missing one
      raises KeyError), classifies every building, fills the building
      breakdown and formats the summary with the formatter the keywords
      select; its checklist shows the thresholds the buildings were classed
      by. The English (or translated) labels are a parameter. */
  method Run(info: ImpactFunctionInfo, hazard: LayerInfo, exposure: LayerInfo, attributeNames: seq<string>,
             rows: seq<Row>, l: Labels)
    returns (r: Result<BuildingImpact>, kw: Keywords)
    requires Distinct(l)
    ensures fresh(kw) && kw.primaryLayer != null
    ensures kw.primaryLayer.functionDetails == FunctionDetails(info)
    ensures kw.primaryLayer.title == VStr("Estimated buildings affected")
    ensures kw.primaryLayer.impactAssessment == ImpactAssessment("buildings", "earthquake")
    ensures kw.provenance == RecordProvenance(RecordProvenance(map[], hazard, "impact_layer"), exposure, "exposure_layer")
    ensures ReadThresholds(info.parameters).Err? ==> r == Err(ReadThresholds(info.parameters).error)
    ensures r.Ok? ==> ReadThresholds(info.parameters).Ok?
    ensures ReadThresholds(info.parameters).Ok? ==>
      var t := ReadThresholds(info.parameters).value;
      (!AllEvaluate(rows, IsNexis(attributeNames), t) ==>
        r.Err? && FailsFirstWith(rows, IsNexis(attributeNames), t, r.error)) &&
      ((AllEvaluate(rows, IsNexis(attributeNames), t) && IsNexis(attributeNames) &&
        !TotalsFinite(Evals(rows, IsNexis(attributeNames), t))) ==> r == Err(ValueError))
    ensures r.Ok? ==> AllEvaluate(rows, IsNexis(attributeNames), ReadThresholds(info.parameters).value)
    ensures r.Ok? ==>
      Analysed(rows, IsNexis(attributeNames), ReadThresholds(info.parameters).value, l,
               r.value.attributes, kw.primaryLayer.impactBreakdown)
    ensures kw.primaryLayer.impactBreakdown != null ==> kw.primaryLayer.impactBreakdown.Valid()
    ensures ReadThresholds(info.parameters).Ok? ==>
      var t := ReadThresholds(info.parameters).value;
      (AllEvaluate(rows, IsNexis(attributeNames), t) &&
       (IsNexis(attributeNames) ==> TotalsFinite(Evals(rows, IsNexis(attributeNames), t)))) ==>
      var table := BuildingTableOf(kw.provenance, kw.primaryLayer.functionDetails, kw.primaryLayer.impactBreakdown);
      (table.Err? ==> r == Err(table.error)) &&
      (table.Ok? ==> r.Ok? && r.value.summary == table.value)
    ensures r.Ok? ==>
      var t := ReadThresholds(info.parameters).value;
      |r.value.summary| >= 3 &&
      r.value.summary[|r.value.summary| - 3..] ==
        [Line(Fill(HighHazardDefined, [Number(TruncInt(t.t2))])),
         Line(Fill(MediumHazardDefined, [Number(TruncInt(t.t1)), Number(TruncInt(t.t2))])),
         Line(Fill(LowHazardDefined, [Number(TruncInt(t.t0)), Number(TruncInt(t.t1))]))]
  {
    kw := RecordRun(info, hazard, exposure);
    var thresholds := ReadThresholds(info.parameters);
    if thresholds.Err? {
      return Err(thresholds.error), kw;
    }
    r := ClassifyAndSummarise(kw, attributeNames, rows, thresholds.value, l);
    if r.Ok? {
      TableShowsThresholds(info, kw.provenance, kw.primaryLayer.impactBreakdown, r.value.summary);
    }
  }

  /** Every class total of building and of contents value is a number. */
  predicate TotalsFinite(evs: seq<RowEval>)
  {
    forall k :: 0 <= k < 4 ==> Totals(evs, true)[k].Fin? && Totals(evs, false)[k].Fin?
  }

  /** A value total in whole millions, as int(total / 1e6) gives it. */
  function Millions(total: Num): (m: int)
    requires total.Fin?
    ensures total.r >= 0.0 ==> m as real * 1000000.0 <= total.r < (m + 1) as real * 1000000.0
  {
    TruncInt(total.r / 1000000.0)
  }

  /** The outcome of the analysis: every building marked with its class,
      and a breakdown over the class labels counting the classes and, for
      NEXIS data, holding each class's building and contents values in
      millions. */
  ghost predicate Analysed(rows: seq<Row>, nexis: bool, t: Thresholds, l: Labels, attributes: seq<Row>, b: ImpactBreakdown?)
    reads b
  {
    AllEvaluate(rows, nexis, t) && |l.categories| == 4 &&
    var evs := Evals(rows, nexis, t);
    |attributes| == |rows| &&
    (forall i :: 0 <= i < |rows| ==> attributes[i] == Marked(rows[i], evs[i].cls)) &&
    b != null && b.Valid() && b.categories == l.categories && b.attributes == BreakdownAttributes(l, nexis) &&
    (forall k :: 0 <= k < 4 ==> b.Get(l.categories[k], l.affected) == Ok(VInt(Counts(evs)[k]))) &&
    (nexis ==> ValuesInMillions(evs, l, b))
  }

  /** The breakdown holds each class's building and contents value totals
      in millions. */
  ghost predicate ValuesInMillions(evs: seq<RowEval>, l: Labels, b: ImpactBreakdown)
    requires b.Valid() && |l.categories| == 4
    reads b
  {
    TotalsFinite(evs) &&
    forall k :: 0 <= k < 4 ==>
      b.Get(l.categories[k], l.buildingsValue) == Ok(VInt(Millions(Totals(evs, true)[k]))) &&
      b.Get(l.categories[k], l.contentsValue) == Ok(VInt(Millions(Totals(evs, false)[k])))
  }

  /** The classification and the breakdown, without the keywords. */
  method Analyse(rows: seq<Row>, nexis: bool, t: Thresholds, l: Labels) returns (r: Result<(seq<Row>, ImpactBreakdown)>)
    requires Distinct(l)
    ensures !AllEvaluate(rows, nexis, t) ==> r.Err? && FailsFirstWith(rows, nexis, t, r.error)
    ensures AllEvaluate(rows, nexis, t) && nexis && !TotalsFinite(Evals(rows, nexis, t)) ==> r == Err(ValueError)
    ensures AllEvaluate(rows, nexis, t) && (nexis ==> TotalsFinite(Evals(rows, nexis, t))) ==> r.Ok?
    ensures r.Ok? ==> fresh(r.value.1) && Analysed(rows, nexis, t, l, r.value.0, r.value.1)
  {
    var tally := ClassifyBuildings(rows, nexis, t);
    if tally.Err? {
      return Err(tally.error);
    }
    ghost var evs := Evals(rows, nexis, t);
    var buildingMillions, contentsMillions := [0, 0, 0, 0], [0, 0, 0, 0];
    if nexis {
      var millions := ConvertToMillions(tally.value.buildingTotals, tally.value.contentsTotals);
      if millions.Err? {
        return Err(millions.error);
      }
      buildingMillions, contentsMillions := millions.value.0, millions.value.1;
      assert TotalsFinite(evs);
      assert forall k :: 0 <= k < 4 ==>
        buildingMillions[k] == TruncInt(Totals(evs, true)[k].r / 1000000.0) &&
        contentsMillions[k] == TruncInt(Totals(evs, false)[k].r / 1000000.0);
    }
    var breakdown := BuildingBreakdown(l, tally.value.counts, nexis, buildingMillions, contentsMillions);
    if nexis {
      MillionsWritten(evs, l, breakdown, buildingMillions, contentsMillions);
    }
    r := Ok((tally.value.attributes, breakdown));
  }

  /** Writing the converted totals is holding the values in millions. */
  lemma MillionsWritten(evs: seq<RowEval>, l: Labels, b: ImpactBreakdown, buildingMillions: seq<int>, contentsMillions: seq<int>)
    requires b.Valid() && |l.categories| == 4 && |buildingMillions| == 4 && |contentsMillions| == 4
    requires TotalsFinite(evs)
    requires forall k :: 0 <= k < 4 ==>
      buildingMillions[k] == TruncInt(Totals(evs, true)[k].r / 1000000.0) &&
      contentsMillions[k] == TruncInt(Totals(evs, false)[k].r / 1000000.0)
    requires forall k :: 0 <= k < 4 ==>
      b.Get(l.categories[k], l.buildingsValue) == Ok(VInt(buildingMillions[k])) &&
      b.Get(l.categories[k], l.contentsValue) == Ok(VInt(contentsMillions[k]))
    ensures ValuesInMillions(evs, l, b)
  {
  }

  /** The keywords run() records before the analysis: the function's
      details, the title, the two layers and the assessment. */
  method RecordRun(info: ImpactFunctionInfo, hazard: LayerInfo, exposure: LayerInfo) returns (kw: Keywords)
    ensures fresh(kw) && kw.primaryLayer != null && fresh(kw.primaryLayer)
    ensures kw.primaryLayer.functionDetails == FunctionDetails(info)
    ensures kw.primaryLayer.title == VStr("Estimated buildings affected")
    ensures kw.primaryLayer.impactAssessment == ImpactAssessment("buildings", "earthquake")
    ensures kw.primaryLayer.impactBreakdown == null
    ensures kw.provenance == RecordProvenance(RecordProvenance(map[], hazard, "impact_layer"), exposure, "exposure_layer")
  {
    kw := new Keywords.ImpactKeywords();
    var layer := kw.primaryLayer;
    layer.SetFunctionDetails(info);
    layer.SetTitle(VStr("Estimated buildings affected"));
    kw.SetProvenanceLayer(hazard, "impact_layer");
    kw.SetProvenanceLayer(exposure, "exposure_layer");
    layer.SetImpactAssessment("buildings", "earthquake");
  }

  /** set_impact_breakdown, then the analysis table of the formatter that
      TableSelector picks for a buildings assessment (BuildingTable). */
  method Summarise(kw: Keywords, b: ImpactBreakdown) returns (r: Result<seq<Entry>>)
    requires kw.primaryLayer != null && b.Valid()
    requires kw.primaryLayer.impactAssessment == ImpactAssessment("buildings", "earthquake")
    modifies kw.primaryLayer
    ensures kw.primaryLayer.impactBreakdown == b
    ensures kw.primaryLayer.functionDetails == old(kw.primaryLayer.functionDetails)
    ensures kw.primaryLayer.title == old(kw.primaryLayer.title)
    ensures kw.primaryLayer.impactAssessment == old(kw.primaryLayer.impactAssessment)
    ensures r == BuildingTableOf(kw.provenance, kw.primaryLayer.functionDetails, b)
  {
    var layer := kw.primaryLayer;
    layer.SetImpactBreakdown(b);
    SelectorOnRecordedAssessment("buildings", "earthquake");
    var selected := TableSelector(layer.impactAssessment);
    assert selected == Ok(Some(BuildingTable));
    var summary := Call(selected.value.value, kw, "Analysis Result", EnglishEarthquake);
    if summary.Err? {
      return Err(summary.error);
    }
    r := Ok(summary.value.value);
  }
}
