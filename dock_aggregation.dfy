/** The aggregation bookkeeping of the InaSAFE dock: trimming the
    aggregation layer to the attributes post processing needs, summing the
    impact layer's target field into it, the equal-step legend of the sums,
    collecting the post processors' results zone by zone, sorting them for
    the report and completing the aggregation layer's keywords. Layers are
    attribute tables; Qt's conversions and the post processors themselves
    are parameters. */
module DockAggregation {
  import opened Common

  /** Why vector aggregation was skipped (the dock keeps the translated
      message; the model keeps which of the three it was). */
  datatype Skip =
    | NoTargetFieldKeyword                 // the impact layer has no target_field keyword
    | NoTargetFieldAttribute(field: string) // its attribute table has no such field
    | VectorZonalNotImplemented            // zonal aggregation of vector impact layers

  /** The aggregation layer: its attribute names and its features' rows. */
  class AggregationLayer {
    var fields: seq<string>
    var features: seq<Row>

    constructor(fields0: seq<string>, features0: seq<Row>)
      ensures fields == fields0 && features == features0
    {
      fields := fields0;
      features := features0;
    }

    /** deleteAttributes: the fields at the given indices go, and so do
        their values in every feature. */
    method DeleteAttributes(indices: set<nat>)
      modifies this
      ensures fields == KeepIndices(old(fields), indices)
      ensures features == StripRows(old(features), NamesAt(old(fields), indices))
    {
      features := StripRows(features, NamesAt(fields, indices));
      fields := KeepIndices(fields, indices);
    }

    /** addAttributes with one new field, appended after the others. */
    method AddAttribute(name: string)
      modifies this
      ensures fields == old(fields) + [name] && features == old(features)
    {
      fields := fields + [name];
    }

    /** changeAttributeValues for feature id 0; a layer without features
        is left as it is. */
    method ChangeFirstFeature(name: string, v: Value)
      modifies this
      ensures fields == old(fields)
      ensures |features| == |old(features)|
      ensures old(features) != [] ==> features == old(features)[0 := old(features)[0][name := v]]
      ensures old(features) == [] ==> features == []
    {
      if features != [] {
        features := features[0 := features[0][name := v]];
      }
    }
  }

  /** The entries whose index is not listed, in order. */
  function KeepIndices(fields: seq<string>, indices: set<nat>): (r: seq<string>)
    ensures |r| <= |fields|
  {
    if fields == [] then []
    else
      var n := |fields| - 1;
      KeepIndices(fields[..n], indices) + (if n in indices then [] else [fields[n]])
  }

  function NamesAt(fields: seq<string>, indices: set<nat>): set<string>
  {
    set i | 0 <= i < |fields| && i in indices :: fields[i]
  }

  function StripRows(rows: seq<Row>, names: set<string>): (r: seq<Row>)
    ensures |r| == |rows|
    ensures forall i :: 0 <= i < |rows| ==> r[i] == rows[i] - names
  {
    seq(|rows|, i requires 0 <= i < |rows| => rows[i] - names)
  }

  /** A field is wanted when its name is one of the values of
      postProcessingAttributes. */
  predicate Wanted(name: string, attributes: map<string, Value>)
  {
    VStr(name) in attributes.Values
  }

  /** The wanted fields, in order. */
  function WantedFields(fields: seq<string>, attributes: map<string, Value>): (r: seq<string>)
    ensures |r| <= |fields|
  {
    if fields == [] then []
    else
      var n := |fields| - 1;
      WantedFields(fields[..n], attributes) + (if Wanted(fields[n], attributes) then [fields[n]] else [])
  }

  /** The kept fields are exactly the wanted ones. */
  lemma {:induction false} WantedFieldsMembers(fields: seq<string>, attributes: map<string, Value>, x: string)
    ensures x in WantedFields(fields, attributes) <==> x in fields && Wanted(x, attributes)
  {
    if fields != [] {
      var n := |fields| - 1;
      WantedFieldsMembers(fields[..n], attributes, x);
      assert fields == fields[..n] + [fields[n]];
    }
  }

  /** Deleting the indices of the unwanted fields keeps exactly the wanted
      ones. */
  lemma {:induction false} DeleteUnwanted(fields: seq<string>, attributes: map<string, Value>, indices: set<nat>)
    requires forall i :: 0 <= i < |fields| ==> (i in indices <==> !Wanted(fields[i], attributes))
    ensures KeepIndices(fields, indices) == WantedFields(fields, attributes)
  {
    if fields != [] {
      var n := |fields| - 1;
      DeleteUnwanted(fields[..n], attributes, indices);
    }
  }

  /** The aggregation results of one zone: the zone's name and the post
      processor's ordered indicators, each a dict holding 'value'. */
  type ZoneResult = (string, seq<(string, Row)>)

  /** An aggregation zone: its feature id and attributes. */
  datatype Zone = Zone(id: int, attrs: Row)

  /** The impact layer handed to vector aggregation. */
  datatype ImpactLayer = ImpactLayer(keywords: map<string, string>, fields: seq<string>, features: seq<Row>)

  /** A legend class of the aggregation layer's style. */
  datatype LegendClass = LegendClass(min: int, max: int, colour: string, transparency: int, caption: string)

  const Colours: seq<string> := ["#fecc5c", "#fd8d3c", "#f31a1c"]

  /** The value of a field in a row, a null QVariant when it is absent. */
  function Attr(row: Row, field: string): Value
  {
    if field in row then row[field] else VNone
  }

  // ---------------------------------------------------------------------
  // Sums and the legend

  /** The sum of a field's values over the rows, counting only the values
      QVariant.toInt() converts. */
  function IntSum(rows: seq<Row>, field: string, toInt: Value -> (int, bool)): int
  {
    if rows == [] then 0
    else
      var n := |rows| - 1;
      var (v, ok) := toInt(Attr(rows[n], field));
      IntSum(rows[..n], field, toInt) + (if ok then v else 0)
  }

  /** The sum over the rows splits over any cut of them, so it does not
      depend on how the features are batched. */
  lemma {:induction false} IntSumSplits(a: seq<Row>, b: seq<Row>, field: string, toInt: Value -> (int, bool))
    ensures IntSum(a + b, field, toInt) == IntSum(a, field, toInt) + IntSum(b, field, toInt)
    decreases |b|
  {
    if b == [] {
      assert a + b == a;
    } else {
      var n := |b| - 1;
      assert (a + b)[..|a + b| - 1] == a + b[..n];
      IntSumSplits(a, b[..n], field, toInt);
    }
  }

  /** The largest converted value above 0, or 0. */
  function Highest(rows: seq<Row>, field: string, toInt: Value -> (int, bool)): (h: int)
    ensures h >= 0
    ensures forall i :: 0 <= i < |rows| && toInt(Attr(rows[i], field)).1 ==> toInt(Attr(rows[i], field)).0 <= h
    ensures h > 0 ==> exists i :: 0 <= i < |rows| && toInt(Attr(rows[i], field)) == (h, true)
  {
    if rows == [] then 0
    else
      var n := |rows| - 1;
      var h := Highest(rows[..n], field, toInt);
      assert forall i :: 0 <= i < n ==> rows[..n][i] == rows[i];
      var (v, ok) := toInt(Attr(rows[n], field));
      if ok && v > h then v else h
  }

  /** Every row has the field: a missing one is a KeyError once the rows
      are read. */
  predicate AllHave(rows: seq<Row>, field: string)
  {
    forall i :: 0 <= i < |rows| ==> field in rows[i]
  }

  /** Class k of the legend: from k·(step+1) to that plus step. */
  function ClassFor(k: nat, step: int): LegendClass
    requires k < |Colours|
  {
    var lo := k * (step + 1);
    LegendClass(lo, lo + step, Colours[k], 30, IntToString(lo) + " - " + IntToString(lo + step))
  }

  /** The three classes, built by the legend loop. */
  method LegendClasses(highest: int) returns (classes: seq<LegendClass>)
    requires highest >= 0
    ensures |classes| == |Colours|
    ensures forall k :: 0 <= k < |classes| ==> classes[k] == ClassFor(k, highest / |Colours|)
  {
    classes := [];
    var step := highest / |Colours|;
    var counter := 0;
    for k := 0 to |Colours|
      invariant |classes| == k && counter == k * (step + 1)
      invariant forall j :: 0 <= j < k ==> classes[j] == ClassFor(j, step)
    {
      var lo := counter;
      counter := counter + step;
      var hi := counter;
      var c := LegendClass(lo, hi, Colours[k], 30, IntToString(lo) + " - " + IntToString(hi));
      assert c == ClassFor(k, step);
      classes := classes + [c];
      counter := counter + 1;
      assert counter == (k + 1) * (step + 1) by {
        assert (k + 1) * (step + 1) == k * (step + 1) + step + 1;
      }
    }
  }

  /** Consecutive classes never overlap, and every value from 0 to the
      highest sum falls in exactly one class. */
  lemma LegendPartitions(highest: int, v: int)
    requires highest >= 0 && 0 <= v <= highest
    ensures var step := highest / 3;
      forall k :: 0 <= k < 2 ==> ClassFor(k, step).max < ClassFor(k + 1, step).min
    ensures var step := highest / 3;
      exists k :: 0 <= k < 3 && ClassFor(k, step).min <= v <= ClassFor(k, step).max
    ensures var step := highest / 3;
      forall k, k' :: 0 <= k < k' < 3 ==>
        !(ClassFor(k, step).min <= v <= ClassFor(k, step).max && ClassFor(k', step).min <= v <= ClassFor(k', step).max)
  {
    var step := highest / 3;
    assert ClassFor(0, step).min == 0 && ClassFor(0, step).max == step;
    assert ClassFor(1, step).min == step + 1 && ClassFor(1, step).max == 2 * step + 1;
    assert ClassFor(2, step).min == 2 * step + 2 && ClassFor(2, step).max == 3 * step + 2;
    if v <= step {
      assert ClassFor(0, step).min <= v <= ClassFor(0, step).max;
    } else if v <= 2 * step + 1 {
      assert ClassFor(1, step).min <= v <= ClassFor(1, step).max;
    } else {
      assert ClassFor(2, step).min <= v <= ClassFor(2, step).max;
    }
  }

  // ---------------------------------------------------------------------
  // Post processing results

  /** What the output holds for a post processor, [] before its first
      result. */
  function Results(out: map<string, seq<ZoneResult>>, key: string): seq<ZoneResult>
  {
    if key in out then out[key] else []
  }

  /** One result appended to its post processor's list, the list created
      on first use. */
  function Append(out: map<string, seq<ZoneResult>>, key: string, r: ZoneResult): (o: map<string, seq<ZoneResult>>)
    ensures o.Keys == out.Keys + {key}
    ensures Results(o, key) == Results(out, key) + [r]
  {
    out[key := Results(out, key) + [r]]
  }

  /** Appending to one list leaves every other list alone. */
  lemma AppendOther(out: map<string, seq<ZoneResult>>, key: string, r: ZoneResult, k: string)
    requires k != key
    ensures Results(Append(out, key, r), k) == Results(out, k)
  {
  }

  /** A zone is named by its feature id when the layer has no name field,
      and by its name attribute otherwise. */
  function ZoneName(z: Zone, nameField: Option<string>, toText: Value -> string): string
  {
    match nameField
    case None => IntToString(z.id)
    case Some(f) => toText(Attr(z.attrs, f))
  }

  /** The results of one zone appended for the post processors in order. */
  function AddZone(out: map<string, seq<ZoneResult>>, processors: seq<string>, name: string,
                   z: Zone, compute: (string, Zone) -> seq<(string, Row)>): map<string, seq<ZoneResult>>
  {
    if processors == [] then out
    else
      var n := |processors| - 1;
      Append(AddZone(out, processors[..n], name, z, compute), processors[n], (name, compute(processors[n], z)))
  }

  /** The results of the zones in order. */
  function AddZones(out: map<string, seq<ZoneResult>>, processors: seq<string>, zones: seq<Zone>,
                    nameField: Option<string>, toText: Value -> string,
                    compute: (string, Zone) -> seq<(string, Row)>): map<string, seq<ZoneResult>>
  {
    if zones == [] then out
    else
      var n := |zones| - 1;
      var z := zones[n];
      AddZone(AddZones(out, processors, zones[..n], nameField, toText, compute), processors, ZoneName(z, nameField, toText), z, compute)
  }

  /** One zone adds one result to each post processor (their names are
      distinct, being dict keys) and leaves every other list alone. */
  lemma {:induction false} AddZoneResults(out: map<string, seq<ZoneResult>>, processors: seq<string>, name: string,
                                          z: Zone, compute: (string, Zone) -> seq<(string, Row)>, key: string)
    requires forall i, j :: 0 <= i < j < |processors| ==> processors[i] != processors[j]
    ensures Results(AddZone(out, processors, name, z, compute), key) ==
            Results(out, key) + (if key in processors then [(name, compute(key, z))] else [])
  {
    if processors != [] {
      var n := |processors| - 1;
      var pre := processors[..n];
      var last := processors[n];
      LastIsNew(processors);
      AddZoneResults(out, pre, name, z, compute, key);
      if key != last {
        AppendOther(AddZone(out, pre, name, z, compute), last, (name, compute(last, z)), key);
      }
    }
  }

  /** The last of distinct elements is not among those before it. */
  lemma LastIsNew<T>(s: seq<T>)
    requires s != [] && forall i, j :: 0 <= i < j < |s| ==> s[i] != s[j]
    ensures var pre := s[..|s| - 1];
      (forall i, j :: 0 <= i < j < |pre| ==> pre[i] != pre[j]) &&
      s[|s| - 1] !in pre && forall k :: k in s <==> k in pre || k == s[|s| - 1]
  {
    var pre := s[..|s| - 1];
    assert s == pre + [s[|s| - 1]];
    forall j | 0 <= j < |pre|
      ensures pre[j] != s[|s| - 1]
    {
      assert pre[j] == s[j];
    }
  }

  /** The zones' results for one post processor, in zone order. */
  function ZoneEntries(key: string, zones: seq<Zone>, nameField: Option<string>, toText: Value -> string,
                       compute: (string, Zone) -> seq<(string, Row)>): (r: seq<ZoneResult>)
    ensures |r| == |zones|
    ensures forall i :: 0 <= i < |zones| ==> r[i] == (ZoneName(zones[i], nameField, toText), compute(key, zones[i]))
  {
    seq(|zones|, i requires 0 <= i < |zones| => (ZoneName(zones[i], nameField, toText), compute(key, zones[i])))
  }

  lemma Snoc<T>(e: seq<T>, e': seq<T>)
    requires |e| == |e'| + 1 && forall i :: 0 <= i < |e'| ==> e[i] == e'[i]
    ensures e == e' + [e[|e'|]]
  {
  }

  /** After the zones, each post processor's list holds what it held
      before followed by one result per zone in zone order; lists of other
      keys are unchanged. */
  lemma {:induction false} AddZonesResults(out: map<string, seq<ZoneResult>>, processors: seq<string>, zones: seq<Zone>,
                                           nameField: Option<string>, toText: Value -> string,
                                           compute: (string, Zone) -> seq<(string, Row)>, key: string)
    requires forall i, j :: 0 <= i < j < |processors| ==> processors[i] != processors[j]
    ensures Results(AddZones(out, processors, zones, nameField, toText, compute), key) ==
            Results(out, key) + (if key in processors then ZoneEntries(key, zones, nameField, toText, compute) else [])
  {
    if zones != [] {
      var n := |zones| - 1;
      var mid := AddZones(out, processors, zones[..n], nameField, toText, compute);
      var name := ZoneName(zones[n], nameField, toText);
      assert AddZones(out, processors, zones, nameField, toText, compute) == AddZone(mid, processors, name, zones[n], compute);
      AddZonesResults(out, processors, zones[..n], nameField, toText, compute, key);
      AddZoneResults(mid, processors, name, zones[n], compute, key);
      if key in processors {
        var e := ZoneEntries(key, zones, nameField, toText, compute);
        var e' := ZoneEntries(key, zones[..n], nameField, toText, compute);
        assert forall i :: 0 <= i < n ==> zones[..n][i] == zones[i];
        Snoc(e, e');
        Assoc(Results(out, key), e', [(name, compute(key, zones[n]))]);
      }
    }
  }

  lemma Assoc<T>(a: seq<T>, b: seq<T>, c: seq<T>)
    ensures (a + b) + c == a + (b + c)
  {
  }

  // ---------------------------------------------------------------------
  // Sorting the results for the report

  /** The first indicator with that name, if any. */
  function Indicator(results: seq<(string, Row)>, name: string): (r: Option<Row>)
    ensures r.Some? ==> exists i :: 0 <= i < |results| && results[i] == (name, r.value)
    ensures r.None? ==> forall i :: 0 <= i < |results| ==> results[i].0 != name
  {
    if results == [] then None
    else if results[0].0 == name then Some(results[0].1)
    else
      var r := Indicator(results[1..], name);
      assert forall i :: 0 < i < |results| ==> results[i] == results[1..][i - 1];
      r
  }

  /** The sort key: -1 for NO_DATA, the value otherwise; a zone without the
      first indicator or its 'value' raises KeyError. */
  function SortKey(r: ZoneResult, firstKey: string, noData: Value): (k: Result<real>)
    ensures Indicator(r.1, firstKey).None? ==> k == Err(KeyError)
    ensures k.Ok? ==> var d := Indicator(r.1, firstKey).value;
      "value" in d && (d["value"] == noData ==> k.value == -1.0)
  {
    match Indicator(r.1, firstKey)
    case None => Err(KeyError)
    case Some(d) =>
      if "value" !in d then Err(KeyError)
      else if d["value"] == noData then Ok(-1.0)
      else match d["value"]
        case VInt(i) => Ok(i as real)
        case VFloat(Fin(x)) => Ok(x)
        case _ => Err(TypeError)
  }

  /** The key of a result whose key could be computed. */
  function KeyOf(r: ZoneResult, firstKey: string, noData: Value): real
  {
    match SortKey(r, firstKey, noData)
    case Ok(k) => k
    case Err(_) => 0.0
  }

  predicate Descending<T>(s: seq<T>, key: T -> real)
  {
    forall i, j :: 0 <= i < j < |s| ==> key(s[i]) >= key(s[j])
  }

  /** x goes after every entry whose key is at least its own. */
  function InsertDescending<T>(x: T, s: seq<T>, key: T -> real): (r: seq<T>)
    ensures multiset(r) == multiset(s) + multiset{x}
  {
    if s == [] then [x]
    else if key(s[0]) < key(x) then [x] + s
    else
      assert s == [s[0]] + s[1..];
      [s[0]] + InsertDescending(x, s[1..], key)
  }

  /** Inserting below a bound keeps every key below it. */
  lemma {:induction false} InsertBounded<T>(x: T, t: seq<T>, key: T -> real, bound: real)
    requires key(x) <= bound && forall i :: 0 <= i < |t| ==> key(t[i]) <= bound
    ensures forall i :: 0 <= i < |InsertDescending(x, t, key)| ==> key(InsertDescending(x, t, key)[i]) <= bound
  {
    var r := InsertDescending(x, t, key);
    if t == [] || key(t[0]) < key(x) {
      assert forall i :: 0 < i < |r| ==> r[i] == t[i - 1];
    } else {
      var rest := InsertDescending(x, t[1..], key);
      InsertBounded(x, t[1..], key, bound);
      assert r == [t[0]] + rest;
      assert forall i :: 0 < i < |r| ==> r[i] == rest[i - 1];
    }
  }

  lemma {:induction false} InsertKeepsDescending<T>(x: T, s: seq<T>, key: T -> real)
    requires Descending(s, key)
    ensures Descending(InsertDescending(x, s, key), key)
  {
    if s != [] && key(s[0]) >= key(x) {
      var rest := InsertDescending(x, s[1..], key);
      assert Descending(s[1..], key);
      InsertKeepsDescending(x, s[1..], key);
      InsertBounded(x, s[1..], key, key(s[0]));
      var r := [s[0]] + rest;
      forall i, j | 0 <= i < j < |r|
        ensures key(r[i]) >= key(r[j])
      {
        assert r[j] == rest[j - 1];
        if i == 0 {
          assert key(rest[j - 1]) <= key(s[0]);
        } else {
          assert r[i] == rest[i - 1];
          assert key(rest[i - 1]) >= key(rest[j - 1]);
        }
      }
    }
  }

  /** sorted(..., reverse=True): a stable sort by descending key. */
  function SortDescending<T>(s: seq<T>, key: T -> real): (r: seq<T>)
    ensures multiset(r) == multiset(s)
    ensures Descending(r, key)
  {
    if s == [] then []
    else
      var n := |s| - 1;
      assert s == s[..n] + [s[n]];
      var sorted := SortDescending(s[..n], key);
      InsertKeepsDescending(s[n], sorted, key);
      InsertDescending(s[n], sorted, key)
  }

  /** The sort in postProcessingTables: by the first indicator of the
      first zone, descending, NO_DATA ranked as -1; a KeyError on any zone
      leaves the order as it was. keyAt(0) on a zone without results
      raises IndexError. */
  function SortZoneResults(rs: seq<ZoneResult>, noData: Value): (r: Result<seq<ZoneResult>>)
    ensures r.Err? <==> rs == [] || rs[0].1 == []
    ensures r.Ok? ==> multiset(r.value) == multiset(rs)
    ensures r.Ok? && (forall i :: 0 <= i < |rs| ==> SortKey(rs[i], rs[0].1[0].0, noData).Ok?) ==>
      Descending(r.value, (z: ZoneResult) => KeyOf(z, rs[0].1[0].0, noData))
    ensures r.Ok? && (exists i :: 0 <= i < |rs| && SortKey(rs[i], rs[0].1[0].0, noData).Err?) ==> r.value == rs
  {
    if rs == [] || rs[0].1 == [] then Err(IndexError)
    else
      var firstKey := rs[0].1[0].0;
      if exists i :: 0 <= i < |rs| && SortKey(rs[i], firstKey, noData).Err? then Ok(rs)
      else Ok(SortDescending(rs, (z: ZoneResult) => KeyOf(z, firstKey, noData)))
  }

  /** A zone missing the first indicator leaves the order as it was. */
  lemma MissingIndicatorKeepsOrder(rs: seq<ZoneResult>, noData: Value, i: nat)
    requires rs != [] && rs[0].1 != [] && i < |rs|
    requires forall j :: 0 <= j < |rs[i].1| ==> rs[i].1[j].0 != rs[0].1[0].0
    ensures SortZoneResults(rs, noData) == Ok(rs)
  {
    assert SortKey(rs[i], rs[0].1[0].0, noData).Err?;
  }

  // ---------------------------------------------------------------------
  // Keywords of the aggregation layer

  /** The keyword names and default values the dock reads from its
      defaults. */
  datatype Defaults = Defaults(aggrAttrKey: string, femRatioAttrKey: string, femRatioKey: string, femRatio: Value, noData: Value)

  const UseDefault := "Use default"

  /** The completeness test as written: it compares the NAME of the
      female ratio attribute keyword with 'Use default'. */
  predicate CompleteAsWritten(kw: map<string, Value>, d: Defaults)
  {
    "category" in kw && kw["category"] == VStr("postprocessing") &&
    d.aggrAttrKey in kw && d.femRatioAttrKey in kw &&
    (d.femRatioAttrKey != UseDefault || d.femRatioKey in kw)
  }

  /** The completeness test as intended: when the female ratio attribute
      is 'Use default', the ratio itself must be stored. */
  predicate Complete(kw: map<string, Value>, d: Defaults)
  {
    "category" in kw && kw["category"] == VStr("postprocessing") &&
    d.aggrAttrKey in kw && d.femRatioAttrKey in kw &&
    (kw[d.femRatioAttrKey] != VStr(UseDefault) || d.femRatioKey in kw)
  }

  /** The defaults written into incomplete keywords: the category, the
      first attribute name, 'Use default' and the default ratio, each only
      when missing. getLayerAttributeNames gives None for a non-vector
      layer (TypeError on [0]) and [] for one without int or string
      fields (IndexError). */
  function FillDefaults(kw: map<string, Value>, d: Defaults, attributes: Option<seq<string>>): (r: Result<map<string, Value>>)
    ensures r.Err? <==> d.aggrAttrKey != "category" && d.aggrAttrKey !in kw && (attributes.None? || attributes.value == [])
    ensures r.Ok? ==> "category" in r.value && r.value["category"] == VStr("postprocessing")
    ensures r.Ok? ==> d.aggrAttrKey in r.value && d.femRatioAttrKey in r.value && d.femRatioKey in r.value
    ensures r.Ok? ==> forall k :: k in kw && k != "category" ==> k in r.value && r.value[k] == kw[k]
  {
    var k1 := kw["category" := VStr("postprocessing")];
    if d.aggrAttrKey !in k1 && attributes.None? then Err(TypeError)
    else if d.aggrAttrKey !in k1 && attributes.value == [] then Err(IndexError)
    else
      var k2 := if d.aggrAttrKey !in k1 then k1[d.aggrAttrKey := VStr(attributes.value[0])] else k1;
      var k3 := if d.femRatioAttrKey !in k2 then k2[d.femRatioAttrKey := VStr(UseDefault)] else k2;
      var k4 := if d.femRatioKey !in k3 then k3[d.femRatioKey := d.femRatio] else k3;
      Ok(k4)
  }

  /** What _checkPostProcessingAttributes decides: its answer and the
      keywords it appends, if any. */
  datatype Check = Check(ready: bool, appended: Option<map<string, Value>>)

  /** _checkPostProcessingAttributes as written. Unreadable keywords count
      as {}; complete ones give True with nothing written; otherwise the
      defaults are appended and the answer is False exactly when zonal
      aggregation prompts the user. */
  function CheckAttributesAsWritten(keywords: Option<map<string, Value>>, d: Defaults,
                                    attributes: Option<seq<string>>, zonal: bool): (r: Result<Check>)
    ensures var kw := if keywords.Some? then keywords.value else map[];
      CompleteAsWritten(kw, d) ==> r == Ok(Check(true, None))
  {
    var kw := if keywords.Some? then keywords.value else map[];
    if CompleteAsWritten(kw, d) then Ok(Check(true, None))
    else
      match FillDefaults(kw, d, attributes)
      case Err(e) => Err(e)
      case Ok(filled) => Ok(Check(!zonal, Some(filled)))
  }

  /** Keywords naming 'Use default' for the female ratio attribute but
      holding no ratio pass the test as written, so no ratio is ever
      stored for them. */
  lemma UseDefaultWithoutRatioPasses(d: Defaults, aggr: Value)
    requires d.femRatioAttrKey != UseDefault && d.femRatioAttrKey != "category" && d.aggrAttrKey != "category"
    requires d.femRatioKey != d.femRatioAttrKey && d.femRatioKey != d.aggrAttrKey && d.femRatioKey != "category"
    ensures var kw := map["category" := VStr("postprocessing"), d.aggrAttrKey := aggr, d.femRatioAttrKey := VStr(UseDefault)];
      d.femRatioKey !in kw && !Complete(kw, d) &&
      CheckAttributesAsWritten(Some(kw), d, Some([]), false) == Ok(Check(true, None))
  {
    var kw := map["category" := VStr("postprocessing"), d.aggrAttrKey := aggr, d.femRatioAttrKey := VStr(UseDefault)];
    assert kw[d.femRatioAttrKey] == VStr(UseDefault);
    assert CompleteAsWritten(kw, d);
  }

  /** _checkPostProcessingAttributes with the intended test: the answer is
      True without writing when the keywords are complete; otherwise the
      defaults are written, and the answer is False only under zonal
      aggregation. */
  function CheckAttributes(keywords: Option<map<string, Value>>, d: Defaults,
                           attributes: Option<seq<string>>, zonal: bool): (r: Result<Check>)
    ensures var kw := if keywords.Some? then keywords.value else map[];
      Complete(kw, d) <==> r == Ok(Check(true, None))
    ensures r.Ok? && !r.value.ready ==> zonal
    ensures r.Ok? && r.value.appended.Some? ==> Complete(r.value.appended.value, d)
  {
    var kw := if keywords.Some? then keywords.value else map[];
    if Complete(kw, d) then Ok(Check(true, None))
    else
      match FillDefaults(kw, d, attributes)
      case Err(e) => Err(e)
      case Ok(filled) => Ok(Check(!zonal, Some(filled)))
  }

  /** Once the defaults are appended, the next check finds the keywords
      complete and changes nothing. */
  lemma CheckSettles(keywords: Option<map<string, Value>>, d: Defaults, attributes: Option<seq<string>>,
                     zonal: bool, attributes2: Option<seq<string>>, zonal2: bool)
    requires CheckAttributes(keywords, d, attributes, zonal).Ok?
    requires CheckAttributes(keywords, d, attributes, zonal).value.appended.Some?
    ensures var filled := CheckAttributes(keywords, d, attributes, zonal).value.appended.value;
      CheckAttributes(Some(filled), d, attributes2, zonal2) == Ok(Check(true, None))
  {
  }

  // ---------------------------------------------------------------------
  // The dock's aggregation state

  class Dock {
    var postProcessingOutput: map<string, seq<ZoneResult>>
    var aggregationPrefix: string
    var doZonalAggregation: bool
    var showPostProcLayers: bool
    var postProcessingAttributes: map<string, Value>
    var aggregationErrorSkipPostprocessing: Option<Skip>
    var postProcessingLayer: AggregationLayer

    constructor(layer: AggregationLayer, zonal: bool, showLayers: bool)
      ensures postProcessingOutput == map[] && aggregationPrefix == "aggr_"
      ensures doZonalAggregation == zonal && showPostProcLayers == showLayers
      ensures postProcessingAttributes == map[] && aggregationErrorSkipPostprocessing == None
      ensures postProcessingLayer == layer
    {
      postProcessingOutput := map[];
      aggregationPrefix := "aggr_";
      doZonalAggregation := zonal;
      showPostProcLayers := showLayers;
      postProcessingAttributes := map[];
      aggregationErrorSkipPostprocessing := None;
      postProcessingLayer := layer;
    }

    function AggregationFieldNameCount(): (r: string)
      reads this
      ensures |r| == |aggregationPrefix| + 5 && r[..|aggregationPrefix|] == aggregationPrefix
      ensures r[|aggregationPrefix|..] == "count"
    {
      aggregationPrefix + "count"
    }

    function AggregationFieldNameMean(): (r: string)
      reads this
      ensures |r| == |aggregationPrefix| + 4 && r[..|aggregationPrefix|] == aggregationPrefix
      ensures r[|aggregationPrefix|..] == "mean"
    {
      aggregationPrefix + "mean"
    }

    function AggregationFieldNameSum(): (r: string)
      reads this
      ensures |r| == |aggregationPrefix| + 3 && r[..|aggregationPrefix|] == aggregationPrefix
      ensures r[|aggregationPrefix|..] == "sum"
    {
      aggregationPrefix + "sum"
    }

    /** The three aggregation fields have distinct names, all starting
        with the prefix. */
    lemma AggregationFieldNamesDistinct()
      ensures AggregationFieldNameCount() != AggregationFieldNameMean()
      ensures AggregationFieldNameMean() != AggregationFieldNameSum()
      ensures AggregationFieldNameSum() != AggregationFieldNameCount()
    {
      var p := |aggregationPrefix|;
      assert AggregationFieldNameCount()[p] == 'c' && AggregationFieldNameMean()[p] == 'm';
      assert |AggregationFieldNameSum()| != |AggregationFieldNameCount()|;
      assert |AggregationFieldNameSum()| != |AggregationFieldNameMean()|;
    }

    /** The field stripping in _aggregateResults: every field whose name is
        not among the values of postProcessingAttributes is deleted. */
    method RemoveUnneededFields()
      modifies postProcessingLayer
      ensures postProcessingLayer.fields == WantedFields(old(postProcessingLayer.fields), postProcessingAttributes)
      ensures postProcessingLayer.features ==
        StripRows(old(postProcessingLayer.features),
                  set i | 0 <= i < |old(postProcessingLayer.fields)| && !Wanted(old(postProcessingLayer.fields)[i], postProcessingAttributes)
                        :: old(postProcessingLayer.fields)[i])
    {
      var fields := postProcessingLayer.fields;
      var unneeded: set<nat> := {};
      for i := 0 to |fields|
        invariant forall j :: 0 <= j < |fields| ==> (j in unneeded <==> j < i && !Wanted(fields[j], postProcessingAttributes))
      {
        if !Wanted(fields[i], postProcessingAttributes) {
          unneeded := unneeded + {i};
        }
      }
      DeleteUnwanted(fields, postProcessingAttributes, unneeded);
      assert NamesAt(fields, unneeded) ==
        set i | 0 <= i < |fields| && !Wanted(fields[i], postProcessingAttributes) :: fields[i];
      postProcessingLayer.DeleteAttributes(unneeded);
    }

    /** _aggregateResultsVector: records why it skips (no target_field
        keyword, no such field, zonal aggregation) and changes nothing
        else; otherwise adds the sum field and writes the sum of the
        convertible target values into feature 0. */
    method AggregateResultsVector(impact: ImpactLayer, toInt: Value -> (int, bool))
      modifies this, postProcessingLayer
      ensures postProcessingLayer == old(postProcessingLayer)
      ensures postProcessingOutput == old(postProcessingOutput) && postProcessingAttributes == old(postProcessingAttributes)
      ensures aggregationPrefix == old(aggregationPrefix) && doZonalAggregation == old(doZonalAggregation)
      ensures "target_field" !in impact.keywords ==>
        aggregationErrorSkipPostprocessing == Some(NoTargetFieldKeyword)
      ensures "target_field" in impact.keywords && impact.keywords["target_field"] !in impact.fields ==>
        aggregationErrorSkipPostprocessing == Some(NoTargetFieldAttribute(impact.keywords["target_field"]))
      ensures "target_field" in impact.keywords && impact.keywords["target_field"] in impact.fields && doZonalAggregation ==>
        aggregationErrorSkipPostprocessing == Some(VectorZonalNotImplemented)
      ensures !("target_field" in impact.keywords && impact.keywords["target_field"] in impact.fields && !doZonalAggregation) ==>
        unchanged(postProcessingLayer)
      ensures "target_field" in impact.keywords && impact.keywords["target_field"] in impact.fields && !doZonalAggregation ==>
        aggregationErrorSkipPostprocessing == old(aggregationErrorSkipPostprocessing) &&
        postProcessingLayer.fields == old(postProcessingLayer.fields) + [AggregationFieldNameSum()] &&
        |postProcessingLayer.features| == |old(postProcessingLayer.features)| &&
        (old(postProcessingLayer.features) != [] ==>
          postProcessingLayer.features == old(postProcessingLayer.features)[0 := old(postProcessingLayer.features)[0][
            AggregationFieldNameSum() := VInt(IntSum(impact.features, impact.keywords["target_field"], toInt))]])
    {
      if "target_field" !in impact.keywords {
        aggregationErrorSkipPostprocessing := Some(NoTargetFieldKeyword);
        return;
      }
      var targetField := impact.keywords["target_field"];
      if targetField !in impact.fields {
        aggregationErrorSkipPostprocessing := Some(NoTargetFieldAttribute(targetField));
        return;
      }
      if doZonalAggregation {
        aggregationErrorSkipPostprocessing := Some(VectorZonalNotImplemented);
        return;
      }
      var total := 0;
      for i := 0 to |impact.features|
        invariant total == IntSum(impact.features[..i], targetField, toInt)
      {
        assert impact.features[..i + 1][..i] == impact.features[..i];
        var (v, ok) := toInt(Attr(impact.features[i], targetField));
        if ok {
          total := total + v;
        }
      }
      assert impact.features[..|impact.features|] == impact.features;
      var aggrField := AggregationFieldNameSum();
      postProcessingLayer.AddAttribute(aggrField);
      postProcessingLayer.ChangeFirstFeature(aggrField, VInt(total));
    }

    /** The legend loop of _aggregateResults: with post processing layers
        shown under zonal aggregation, three classes of equal step from the
        highest positive sum; no style otherwise. A feature without the
        sum field fails with KeyError. */
    method AggregationLegend(toInt: Value -> (int, bool)) returns (style: Result<Option<seq<LegendClass>>>)
      ensures !(showPostProcLayers && doZonalAggregation) ==> style == Ok(None)
      ensures showPostProcLayers && doZonalAggregation && !AllHave(postProcessingLayer.features, AggregationFieldNameSum()) ==>
        style == Err(KeyError)
      ensures showPostProcLayers && doZonalAggregation && AllHave(postProcessingLayer.features, AggregationFieldNameSum()) ==>
        var h := Highest(postProcessingLayer.features, AggregationFieldNameSum(), toInt);
        style.Ok? && style.value.Some? &&
        |style.value.value| == 3 && forall k :: 0 <= k < 3 ==> style.value.value[k] == ClassFor(k, h / 3)
    {
      if !(showPostProcLayers && doZonalAggregation) {
        return Ok(None);
      }
      var field := AggregationFieldNameSum();
      var features := postProcessingLayer.features;
      var highest := 0;
      for i := 0 to |features|
        invariant highest == Highest(features[..i], field, toInt)
        invariant AllHave(features[..i], field)
      {
        assert features[..i + 1][..i] == features[..i];
        if field !in features[i] {
          return Err(KeyError);
        }
        var (v, ok) := toInt(features[i][field]);
        if ok && v > highest {
          highest := v;
        }
      }
      assert features[..|features|] == features;
      var classes := LegendClasses(highest);
      return Ok(Some(classes));
    }

    /** The zone loop of _startPostProcessors: each zone's results are
        appended to each post processor's list. */
    method StartPostProcessors(processors: seq<string>, zones: seq<Zone>, nameField: Option<string>,
                               toText: Value -> string, compute: (string, Zone) -> seq<(string, Row)>)
      modifies this`postProcessingOutput
      ensures postProcessingOutput == AddZones(old(postProcessingOutput), processors, zones, nameField, toText, compute)
    {
      ghost var out0 := postProcessingOutput;
      for z := 0 to |zones|
        invariant postProcessingOutput == AddZones(out0, processors, zones[..z], nameField, toText, compute)
      {
        assert zones[..z + 1][..z] == zones[..z];
        var zone := zones[z];
        var name := ZoneName(zone, nameField, toText);
        PostProcessZone(processors, name, zone, compute);
      }
      assert zones[..|zones|] == zones;
    }

    /** The inner loop of _startPostProcessors: one zone's results are
        appended to each post processor's list, in order. */
    method PostProcessZone(processors: seq<string>, name: string, zone: Zone,
                           compute: (string, Zone) -> seq<(string, Row)>)
      modifies this`postProcessingOutput
      ensures postProcessingOutput == AddZone(old(postProcessingOutput), processors, name, zone, compute)
    {
      ghost var before := postProcessingOutput;
      for p := 0 to |processors|
        invariant postProcessingOutput == AddZone(before, processors[..p], name, zone, compute)
      {
        assert processors[..p + 1][..p] == processors[..p];
        var key := processors[p];
        var results := compute(key, zone);
        // a KeyError creates the list before the result is appended
        var list := if key in postProcessingOutput then postProcessingOutput[key] else [];
        postProcessingOutput := postProcessingOutput[key := list + [(name, results)]];
        assert AddZone(before, processors[..p + 1], name, zone, compute) ==
               Append(AddZone(before, processors[..p], name, zone, compute), key, (name, results));
      }
      assert processors[..|processors|] == processors;
    }
  }
}
