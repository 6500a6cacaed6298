/** Flood impact on OpenStreetMap buildings: every building is flagged as
    flooded from the depth at its location (a raster hazard) or from the
    attributes of the hazard polygon it lies in (a vector hazard), the
    buildings are counted per usage type, small and unknown types are lumped
    into 'other', and the counts are laid out in the impact summary. */
module FloodBuilding {
  import opened Common
  import opened TableFormatter

  /** The attribute that receives each building's flag. */
  const TargetField := "INUNDATED"

  /** Flood threshold in metres for a depth grid. */
  const Threshold := 1.0

  /** DEFAULT_ATTRIBUTE: the flag the interpolation sets on buildings that
      lie inside a hazard polygon. */
  const DefaultAttribute := "inapolygon"

  /** Types with fewer buildings than this are lumped into 'other'. */
  const MinGroup := 25

  /** A raster hazard gives depths ('grid'); a vector hazard gives the
      attributes of the polygons ('regions'). */
  datatype Mode = Grid | Regions

  // ---------------------------------------------------------------------
  // The flooded flag

  /** float(depth) >= 1.0; a NaN depth fails the comparison. */
  function DepthFlag(row: Row): (r: Result<Value>)
    ensures r.Ok? ==> r.value.VBool?
    ensures r.Err? <==> "depth" !in row || PyFloat(row["depth"]).Err?
    ensures r == Ok(VBool(true)) ==> PyFloat(row["depth"]).value.Fin? && PyFloat(row["depth"]).value.r >= Threshold
  {
    if "depth" !in row then Err(KeyError)
    else
      match PyFloat(row["depth"])
      case Err(e) => Err(e)
      case Ok(d) => Ok(VBool(d.Fin? && d.r >= Threshold))
  }

  /** A deeper building is flooded whenever a shallower one is. */
  lemma DepthFlagMonotone(r1: Row, r2: Row, d1: real, d2: real)
    requires "depth" in r1 && r1["depth"] == VFloat(Fin(d1))
    requires "depth" in r2 && r2["depth"] == VFloat(Fin(d2))
    requires d1 <= d2
    ensures DepthFlag(r1) == Ok(VBool(true)) ==> DepthFlag(r2) == Ok(VBool(true))
    ensures DepthFlag(r2) == Ok(VBool(false)) ==> DepthFlag(r1) == Ok(VBool(false))
  {
    assert PyFloat(r1["depth"]) == Ok(Fin(d1)) && PyFloat(r2["depth"]) == Ok(Fin(d2));
  }

  /** The flag from the first flood attribute present: 'affected' (None is
      False, otherwise its truth value), 'FLOODPRONE' (None is False,
      otherwise "yes" in any case; a value without lower() raises
      AttributeError), DEFAULT_ATTRIBUTE (None is False, otherwise the value
      itself); with none of them an Exception is raised. */
  function RegionFlag(row: Row): (r: Result<Value>)
    ensures r.Err? <==>
      ("affected" !in row && "FLOODPRONE" in row && !row["FLOODPRONE"].VNone? && !row["FLOODPRONE"].VStr?) ||
      ("affected" !in row && "FLOODPRONE" !in row && DefaultAttribute !in row)
    ensures r == Err(PlainException(NoFloodAttribute)) <==>
      "affected" !in row && "FLOODPRONE" !in row && DefaultAttribute !in row
    ensures "affected" in row ==> r == Ok(VBool(Truthy(row["affected"])))
    ensures "affected" !in row && "FLOODPRONE" in row && r.Ok? ==>
      r.value == VBool(row["FLOODPRONE"].VStr? && Lower(row["FLOODPRONE"].s) == "yes")
  {
    if "affected" in row then
      // bool(None) is False, so the None case needs no branch of its own
      Ok(VBool(Truthy(row["affected"])))
    else if "FLOODPRONE" in row then
      match row["FLOODPRONE"]
      case VNone => Ok(VBool(false))
      case VStr(s) => Ok(VBool(Lower(s) == "yes"))
      case _ => Err(AttributeError)
    else if DefaultAttribute in row then
      Ok(if row[DefaultAttribute] == VNone then VBool(false) else row[DefaultAttribute])
    else
      Err(PlainException(NoFloodAttribute))
  }

  /** "Yes", "YES" and "yes" all flag a FLOODPRONE polygon. */
  lemma FloodProneAnyCase(row: Row)
    requires "affected" !in row && "FLOODPRONE" in row
    requires row["FLOODPRONE"] in {VStr("Yes"), VStr("YES"), VStr("yes")}
    ensures RegionFlag(row) == Ok(VBool(true))
  {
    var s := row["FLOODPRONE"].s;
    assert Lower(s) == "yes" by {
      assert |Lower(s)| == 3;
      assert Lower(s)[0] == 'y' && Lower(s)[1] == 'e' && Lower(s)[2] == 's';
    }
  }

  function Flag(mode: Mode, row: Row): (r: Result<Value>)
  {
    match mode
    case Grid => DepthFlag(row)
    case Regions => RegionFlag(row)
  }

  // ---------------------------------------------------------------------
  // The usage type

  /** Python `usage is None or usage == 0`. */
  predicate Unset(u: Value)
  {
    u == VNone || EqualsZero(u)
  }

  /** One link of the usage chain: attribute a of the layer is consulted
      only while the usage is still unset; for 'building' the value 'yes'
      reads as 'building'. */
  function Consult(names: seq<string>, row: Row, a: string, usage: Value): (r: Result<Value>)
    ensures !(a in names && Unset(usage)) ==> r == Ok(usage)
    ensures a in names && Unset(usage) && a in row && a != "building" ==> r == Ok(row[a])
    ensures r.Err? <==> a in names && Unset(usage) && a !in row
  {
    if a in names && Unset(usage) then
      if a !in row then Err(KeyError)
      else if a == "building" && row[a] == VStr("yes") then Ok(VStr("building"))
      else Ok(row[a])
    else Ok(usage)
  }

  /** The usage key: type, amenity, building_t, office, tourism, leisure,
      building in this order, 'unknown' when all are unset. */
  function UsageKey(names: seq<string>, row: Row): (r: Result<Value>)
    ensures r.Ok? ==> !Unset(r.value)
  {
    var u1 :- Consult(names, row, "type", VNone);
    var u2 :- Consult(names, row, "amenity", u1);
    var u3 :- Consult(names, row, "building_t", u2);
    var u4 :- Consult(names, row, "office", u3);
    var u5 :- Consult(names, row, "tourism", u4);
    var u6 :- Consult(names, row, "leisure", u5);
    var u7 :- Consult(names, row, "building", u6);
    Ok(if Unset(u7) then VStr("unknown") else u7)
  }

  /** The usage attributes in order of priority. */
  const UsageAttributes := ["type", "amenity", "building_t", "office", "tourism", "leisure", "building"]

  /** Attribute a decides nothing for this row: it is not an attribute of
      the layer, or its value is unset. */
  predicate Silent(names: seq<string>, row: Row, a: string)
  {
    a !in names || (a in row && Unset(row[a]))
  }

  /** The first usage attribute with a set value gives the key. */
  lemma UsageKeyFirstSet(names: seq<string>, row: Row, k: nat)
    requires k < 6
    requires forall j :: 0 <= j < k ==> Silent(names, row, UsageAttributes[j])
    requires UsageAttributes[k] in names && UsageAttributes[k] in row && !Unset(row[UsageAttributes[k]])
    ensures UsageKey(names, row) == Ok(row[UsageAttributes[k]])
  {
    assert Silent(names, row, UsageAttributes[0]) || k == 0;
    if k > 1 { assert Silent(names, row, UsageAttributes[1]); }
    if k > 2 { assert Silent(names, row, UsageAttributes[2]); }
    if k > 3 { assert Silent(names, row, UsageAttributes[3]); }
    if k > 4 { assert Silent(names, row, UsageAttributes[4]); }
  }

  /** The building attribute is consulted last; its value 'yes' becomes the
      type 'building'. */
  lemma UsageKeyBuildingYes(names: seq<string>, row: Row)
    requires forall j :: 0 <= j < 6 ==> Silent(names, row, UsageAttributes[j])
    requires "building" in names && "building" in row && row["building"] == VStr("yes")
    ensures UsageKey(names, row) == Ok(VStr("building"))
  {
    assert Silent(names, row, UsageAttributes[0]) && Silent(names, row, UsageAttributes[1]);
    assert Silent(names, row, UsageAttributes[2]) && Silent(names, row, UsageAttributes[3]);
    assert Silent(names, row, UsageAttributes[4]) && Silent(names, row, UsageAttributes[5]);
  }

  /** With every usage attribute silent the key is 'unknown'. */
  lemma UsageKeyUnknown(names: seq<string>, row: Row)
    requires forall j :: 0 <= j < 7 ==> Silent(names, row, UsageAttributes[j])
    ensures UsageKey(names, row) == Ok(VStr("unknown"))
  {
    assert Silent(names, row, UsageAttributes[0]) && Silent(names, row, UsageAttributes[1]);
    assert Silent(names, row, UsageAttributes[2]) && Silent(names, row, UsageAttributes[3]);
    assert Silent(names, row, UsageAttributes[4]) && Silent(names, row, UsageAttributes[5]);
    assert Silent(names, row, UsageAttributes[6]);
  }

  // ---------------------------------------------------------------------
  // Sums over dictionaries

  /** The sum of a dictionary's values. */
  ghost function MapSum(m: map<Value, int>): int
    decreases |m|
  {
    if m == map[] then 0
    else
      var k :| k in m;
      m[k] + MapSum(m - {k})
  }

  /** Any key can be taken out first. */
  lemma {:induction false} MapSumRemove(m: map<Value, int>, k: Value)
    requires k in m
    ensures MapSum(m) == m[k] + MapSum(m - {k})
    decreases |m|
  {
    var k' :| k' in m && MapSum(m) == m[k'] + MapSum(m - {k'});
    if k' != k {
      MapSumRemove(m - {k'}, k);
      MapSumRemove(m - {k}, k');
      assert m - {k'} - {k} == m - {k} - {k'};
    }
  }

  /** Setting one entry changes the sum by the difference. */
  lemma MapSumUpdate(m: map<Value, int>, k: Value, v: int)
    ensures MapSum(m[k := v]) == MapSum(m) - (if k in m then m[k] else 0) + v
  {
    MapSumRemove(m[k := v], k);
    assert m[k := v] - {k} == m - {k};
    if k in m {
      MapSumRemove(m, k);
    } else {
      assert m - {k} == m;
    }
  }

  /** Deleting one entry takes its value off the sum. */
  lemma MapSumDelete(m: map<Value, int>, k: Value)
    ensures MapSum(m - {k}) == MapSum(m) - (if k in m then m[k] else 0)
  {
    if k in m {
      MapSumRemove(m, k);
    } else {
      assert m - {k} == m;
    }
  }

  // ---------------------------------------------------------------------
  // Counting per usage type

  /** One building: its flag and its usage key. */
  datatype RowEval = RowEval(flag: Value, key: Value)

  /** The flag is read first, then the usage key. */
  function EvalRow(mode: Mode, names: seq<string>, row: Row): (r: Result<RowEval>)
    ensures r.Ok? <==> Flag(mode, row).Ok? && UsageKey(names, row).Ok?
    ensures r.Ok? ==> r.value == RowEval(Flag(mode, row).value, UsageKey(names, row).value)
    ensures Flag(mode, row).Err? ==> r == Err(Flag(mode, row).error)
  {
    var x :- Flag(mode, row);
    var key :- UsageKey(names, row);
    Ok(RowEval(x, key))
  }

  predicate AllEvaluate(mode: Mode, names: seq<string>, rows: seq<Row>)
  {
    forall i :: 0 <= i < |rows| ==> EvalRow(mode, names, rows[i]).Ok?
  }

  function Evals(mode: Mode, names: seq<string>, rows: seq<Row>): (evs: seq<RowEval>)
    requires AllEvaluate(mode, names, rows)
    ensures |evs| == |rows|
    ensures forall i :: 0 <= i < |rows| ==> EvalRow(mode, names, rows[i]) == Ok(evs[i])
  {
    seq(|rows|, i requires 0 <= i < |rows| && AllEvaluate(mode, names, rows) => EvalRow(mode, names, rows[i]).value)
  }

  /** The first building (in order) that cannot be read raises e. */
  predicate FailsFirstWith(mode: Mode, names: seq<string>, rows: seq<Row>, e: Error)
  {
    exists i :: 0 <= i < |rows| && EvalRow(mode, names, rows[i]) == Err(e) &&
      forall j :: 0 <= j < i ==> EvalRow(mode, names, rows[j]).Ok?
  }

  /** Python `x is True`: only the boolean True counts as flooded, not 1 or
      a non-empty text. */
  predicate IsTrue(x: Value)
  {
    x == VBool(true)
  }

  /** Buildings per type, flooded buildings per type, and flooded buildings
      in all. */
  datatype Tallies = Tallies(buildings: map<Value, int>, affected: map<Value, int>, count: int)

  predicate SameKeys(t: Tallies)
  {
    t.buildings.Keys == t.affected.Keys
  }

  /** One building counted: its type enters both dictionaries at 0 when new,
      its type's total goes up by one, and when its flag is True its type's
      flooded count and the overall count go up by one. */
  function AddBuilding(t: Tallies, e: RowEval): (s: Tallies)
    requires SameKeys(t)
    ensures SameKeys(s)
  {
    var b := if e.key !in t.buildings then t.buildings[e.key := 0] else t.buildings;
    var a := if e.key !in t.buildings then t.affected[e.key := 0] else t.affected;
    if IsTrue(e.flag) then Tallies(b[e.key := b[e.key] + 1], a[e.key := a[e.key] + 1], t.count + 1)
    else Tallies(b[e.key := b[e.key] + 1], a, t.count)
  }

  /** The tallies after the buildings evs, counted in order. */
  function CountAll(evs: seq<RowEval>): (t: Tallies)
    ensures SameKeys(t)
  {
    if evs == [] then Tallies(map[], map[], 0) else AddBuilding(CountAll(evs[..|evs| - 1]), evs[|evs| - 1])
  }

  /** The number of buildings flagged True. */
  function NumFlooded(evs: seq<RowEval>): nat
  {
    if evs == [] then 0 else NumFlooded(evs[..|evs| - 1]) + (if IsTrue(evs[|evs| - 1].flag) then 1 else 0)
  }

  /** The types met, first appearance first: the order in which they enter
      the dictionaries. */
  function KeysInOrder(evs: seq<RowEval>): (ks: seq<Value>)
    ensures forall i, j :: 0 <= i < j < |ks| ==> ks[i] != ks[j]
  {
    if evs == [] then []
    else
      var n := |evs| - 1;
      var ks := KeysInOrder(evs[..n]);
      if evs[n].key in ks then ks else ks + [evs[n].key]
  }

  /** Every type met is listed, and only those. */
  lemma {:induction false} KeysInOrderMet(evs: seq<RowEval>)
    ensures forall k :: k in KeysInOrder(evs) <==> exists i :: 0 <= i < |evs| && evs[i].key == k
  {
    if evs != [] {
      var n := |evs| - 1;
      KeysInOrderMet(evs[..n]);
      assert forall i :: 0 <= i < n ==> evs[..n][i] == evs[i];
    }
  }

  /** Counting one more building. */
  lemma CountAllSnoc(evs: seq<RowEval>, e: RowEval)
    ensures CountAll(evs + [e]) == AddBuilding(CountAll(evs), e)
    ensures NumFlooded(evs + [e]) == NumFlooded(evs) + (if IsTrue(e.flag) then 1 else 0)
    ensures KeysInOrder(evs + [e]) == if e.key in KeysInOrder(evs) then KeysInOrder(evs) else KeysInOrder(evs) + [e.key]
  {
    assert (evs + [e])[..|evs|] == evs;
  }

  /** The types counted are the types met. */
  lemma {:induction false} CountAllKeys(evs: seq<RowEval>)
    ensures forall k :: k in CountAll(evs).buildings <==> k in KeysInOrder(evs)
  {
    if evs != [] {
      var n := |evs| - 1;
      CountAllKeys(evs[..n]);
      CountAllSnoc(evs[..n], evs[n]);
      assert evs[..n] + [evs[n]] == evs;
    }
  }

  /** Per type, no more flooded buildings than buildings. */
  lemma {:induction false} CountAllBounds(evs: seq<RowEval>)
    ensures forall k :: k in CountAll(evs).buildings ==>
      0 <= CountAll(evs).affected[k] <= CountAll(evs).buildings[k]
  {
    if evs != [] {
      var n := |evs| - 1;
      CountAllBounds(evs[..n]);
    }
  }

  /** One more building adds one to the sum of the per-type totals, and one
      to the sum of the per-type flooded counts when it is flagged True. */
  lemma AddBuildingSums(t: Tallies, e: RowEval)
    requires SameKeys(t)
    ensures MapSum(AddBuilding(t, e).buildings) == MapSum(t.buildings) + 1
    ensures MapSum(AddBuilding(t, e).affected) == MapSum(t.affected) + (if IsTrue(e.flag) then 1 else 0)
  {
    var b := if e.key !in t.buildings then t.buildings[e.key := 0] else t.buildings;
    var a := if e.key !in t.buildings then t.affected[e.key := 0] else t.affected;
    MapSumUpdate(t.buildings, e.key, 0);
    MapSumUpdate(t.affected, e.key, 0);
    MapSumUpdate(b, e.key, b[e.key] + 1);
    MapSumUpdate(a, e.key, a[e.key] + 1);
  }

  /** The per-type totals add up to the number of buildings, and the
      per-type flooded counts to the overall count of buildings flagged
      True. */
  lemma {:induction false} CountAllSums(evs: seq<RowEval>)
    ensures MapSum(CountAll(evs).buildings) == |evs|
    ensures MapSum(CountAll(evs).affected) == CountAll(evs).count == NumFlooded(evs)
  {
    if evs != [] {
      var n := |evs| - 1;
      CountAllSums(evs[..n]);
      AddBuildingSums(CountAll(evs[..n]), evs[n]);
    }
  }

  /** A building flagged with the raw value 1 (DEFAULT_ATTRIBUTE set to 1)
      is marked but not counted as flooded. */
  lemma RawFlagNotCounted(evs: seq<RowEval>, e: RowEval)
    requires e.flag == VInt(1)
    ensures NumFlooded(evs + [e]) == NumFlooded(evs)
  {
    assert (evs + [e])[..|evs|] == evs;
  }

  /** A building's attributes with its flag written to INUNDATED. */
  function Marked(row: Row, flag: Value): Row
  {
    row[TargetField := flag]
  }

  /** The buildings evs were read from the first |evs| rows, which are
      marked; the rest are as they were. */
  ghost predicate MarkedPrefix(mode: Mode, names: seq<string>, rows: seq<Row>, evs: seq<RowEval>, attributes: seq<Row>)
  {
    |evs| <= |rows| && |attributes| == |rows| &&
    (forall j :: 0 <= j < |evs| ==> EvalRow(mode, names, rows[j]) == Ok(evs[j])) &&
    (forall j :: 0 <= j < |evs| ==> attributes[j] == Marked(rows[j], evs[j].flag)) &&
    (forall j :: |evs| <= j < |rows| ==> attributes[j] == rows[j])
  }

  lemma MarkedPrefixStep(mode: Mode, names: seq<string>, rows: seq<Row>, evs: seq<RowEval>, attributes: seq<Row>, e: RowEval)
    requires MarkedPrefix(mode, names, rows, evs, attributes) && |evs| < |rows|
    requires EvalRow(mode, names, rows[|evs|]) == Ok(e)
    ensures MarkedPrefix(mode, names, rows, evs + [e], attributes[|evs| := Marked(rows[|evs|], e.flag)])
  {
    assert forall j :: 0 <= j < |evs| ==> (evs + [e])[j] == evs[j];
  }

  /** The loop body's counting: the type enters both dictionaries at 0
      when new, then its total goes up by one, and its flooded count and the
      overall count when the flag is True. */
  method CountOne(buildings: map<Value, int>, affected: map<Value, int>, count: int, e: RowEval)
    returns (buildings': map<Value, int>, affected': map<Value, int>, count': int)
    requires buildings.Keys == affected.Keys
    ensures Tallies(buildings', affected', count') == AddBuilding(Tallies(buildings, affected, count), e)
  {
    buildings', affected', count' := buildings, affected, count;
    if e.key !in buildings' {
      buildings' := buildings'[e.key := 0];
      affected' := affected'[e.key := 0];
    }
    buildings' := buildings'[e.key := buildings'[e.key] + 1];
    if e.flag == VBool(true) {
      affected' := affected'[e.key := affected'[e.key] + 1];
      count' := count' + 1;
    }
  }

  /** The feature loop: every building's flag is written to its INUNDATED
      attribute and the buildings are counted per type. Also returns the
      types in the order they were met. */
  method CountBuildings(mode: Mode, names: seq<string>, rows: seq<Row>)
    returns (r: Result<(seq<Row>, Tallies, seq<Value>)>)
    ensures r.Ok? <==> AllEvaluate(mode, names, rows)
    ensures r.Err? ==> FailsFirstWith(mode, names, rows, r.error)
    ensures r.Ok? ==>
      var evs := Evals(mode, names, rows);
      |r.value.0| == |rows| &&
      (forall i :: 0 <= i < |rows| ==> r.value.0[i] == Marked(rows[i], evs[i].flag)) &&
      r.value.1 == CountAll(evs) && r.value.2 == KeysInOrder(evs)
  {
    var count := 0;
    var buildings: map<Value, int> := map[];
    var affected: map<Value, int> := map[];
    var order: seq<Value> := [];
    var attributes := rows;
    ghost var evs: seq<RowEval> := [];
    for i := 0 to |rows|
      invariant |evs| == i && MarkedPrefix(mode, names, rows, evs, attributes)
      invariant Tallies(buildings, affected, count) == CountAll(evs)
      invariant order == KeysInOrder(evs)
    {
      // the flag, then the usage key
      var ev := EvalRow(mode, names, rows[i]);
      if ev.Err? {
        return Err(ev.error);
      }
      var e := ev.value;
      CountAllSnoc(evs, e);
      CountAllKeys(evs);
      if e.key !in buildings {
        order := order + [e.key];
      }
      buildings, affected, count := CountOne(buildings, affected, count, e);
      MarkedPrefixStep(mode, names, rows, evs, attributes, e);
      attributes := attributes[i := Marked(rows[i], e.flag)];
      evs := evs + [e];
    }
    assert evs == Evals(mode, names, rows);
    r := Ok((attributes, Tallies(buildings, affected, count), order));
  }

  // ---------------------------------------------------------------------
  // Lumping small types into 'other'

  const Other := VStr("other")

  /** A type to lump: fewer than 25 buildings, or the type 'unknown'. */
  predicate Small(b: map<Value, int>, u: Value)
    requires u in b
  {
    b[u] < MinGroup || u == VStr("unknown")
  }

  /** m[u] added to m[o] (created at 0 when absent), then u deleted. */
  function MoveInto(m: map<Value, int>, u: Value, o: Value): (r: map<Value, int>)
    requires u in m && u != o
    ensures r.Keys == m.Keys - {u} + {o}
    ensures forall k :: k in r && k != o ==> r[k] == m[k]
    ensures r[o] == (if o in m then m[o] else 0) + m[u]
  {
    var m0 := if o !in m then m[o := 0] else m;
    m0[o := m0[o] + m[u]] - {u}
  }

  /** Moving a type's count into another keeps the sum. */
  lemma MoveIntoSum(m: map<Value, int>, u: Value, o: Value)
    requires u in m && u != o
    ensures MapSum(MoveInto(m, u, o)) == MapSum(m)
  {
    if o in m {
      MapSumUpdate(m, o, m[o] + m[u]);
      MapSumDelete(m[o := m[o] + m[u]], u);
    } else {
      var m0 := m[o := 0];
      MapSumUpdate(m, o, 0);
      MapSumUpdate(m0, o, m[u]);
      MapSumDelete(m0[o := m[u]], u);
    }
  }

  /** One step of the lumping loop: a small type's counts are added to
      'other' and the type is deleted, in both dictionaries. */
  function LumpOne(t: Tallies, u: Value): (s: Tallies)
    requires SameKeys(t)
    ensures SameKeys(s) && s.count == t.count
  {
    if u in t.buildings && u != Other && Small(t.buildings, u) then
      Tallies(MoveInto(t.buildings, u, Other), MoveInto(t.affected, u, Other), t.count)
    else if u in t.buildings && Small(t.buildings, u) then
      // 'other' itself: its count is doubled, then deleted
      Tallies(t.buildings - {u}, t.affected - {u}, t.count)
    else t
  }

  /** The tallies after the lumping loop has visited the types of order. */
  function LumpAll(t: Tallies, order: seq<Value>): (s: Tallies)
    requires SameKeys(t)
    ensures SameKeys(s) && s.count == t.count
  {
    if order == [] then t else LumpOne(LumpAll(t, order[..|order| - 1]), order[|order| - 1])
  }

  /** The lumping loop's body for one type still present. */
  method LumpType(buildings: map<Value, int>, affected: map<Value, int>, count: int, usage: Value)
    returns (buildings': map<Value, int>, affected': map<Value, int>)
    requires buildings.Keys == affected.Keys && usage in buildings
    ensures Tallies(buildings', affected', count) == LumpOne(Tallies(buildings, affected, count), usage)
  {
    buildings', affected' := buildings, affected;
    var x := buildings'[usage];
    if x < MinGroup || usage == VStr("unknown") {
      if Other !in buildings' {
        buildings' := buildings'[Other := 0];
        affected' := affected'[Other := 0];
      }
      buildings' := buildings'[Other := buildings'[Other] + x];
      affected' := affected'[Other := affected'[Other] + affected'[usage]];
      buildings' := buildings' - {usage};
      affected' := affected' - {usage};
      if usage != Other {
        assert buildings' == MoveInto(buildings, usage, Other);
        assert affected' == MoveInto(affected, usage, Other);
      } else {
        assert buildings' == buildings - {usage} && affected' == affected - {usage};
      }
    }
  }

  /** The lumping loop over a snapshot of the types (distinct, all counted).
      Each visited type is still present when the loop reaches it. */
  method Lump(t: Tallies, order: seq<Value>) returns (s: Tallies)
    requires SameKeys(t)
    requires forall i, j :: 0 <= i < j < |order| ==> order[i] != order[j]
    requires forall u :: u in order ==> u in t.buildings
    ensures s == LumpAll(t, order)
  {
    var buildings, affected := t.buildings, t.affected;
    for i := 0 to |order|
      invariant Tallies(buildings, affected, t.count) == LumpAll(t, order[..i])
      invariant forall j :: i <= j < |order| ==> order[j] in buildings
    {
      assert order[..i + 1][..i] == order[..i];
      buildings, affected := LumpType(buildings, affected, t.count, order[i]);
    }
    assert order[..|order|] == order;
    s := Tallies(buildings, affected, t.count);
  }

  /** Lumping a type other than 'other' keeps both sums. */
  lemma LumpOneSums(t: Tallies, u: Value)
    requires SameKeys(t) && u != Other
    ensures MapSum(LumpOne(t, u).buildings) == MapSum(t.buildings)
    ensures MapSum(LumpOne(t, u).affected) == MapSum(t.affected)
  {
    if u in t.buildings && Small(t.buildings, u) {
      MoveIntoSum(t.buildings, u, Other);
      MoveIntoSum(t.affected, u, Other);
    }
  }

  /** When 'other' is not itself one of the visited types, lumping keeps
      the number of buildings and of flooded buildings. */
  lemma {:induction false} LumpAllSums(t: Tallies, order: seq<Value>)
    requires SameKeys(t) && Other !in order
    ensures MapSum(LumpAll(t, order).buildings) == MapSum(t.buildings)
    ensures MapSum(LumpAll(t, order).affected) == MapSum(t.affected)
  {
    if order != [] {
      var n := |order| - 1;
      assert Other !in order[..n];
      LumpAllSums(t, order[..n]);
      LumpOneSums(LumpAll(t, order[..n]), order[n]);
    }
  }

  /** The state after lumping the visited types of t (none of them
      'other'): the types besides 'other' are the unvisited ones and the
      visited ones that are not small, with their counts unchanged; 'other'
      is present exactly when a visited type was small. */
  ghost predicate LumpedState(t: Tallies, visited: seq<Value>, s: Tallies)
    requires forall u :: u in visited ==> u in t.buildings
  {
    (forall k :: k != Other ==>
      (k in s.buildings <==> k in t.buildings && (k !in visited || !Small(t.buildings, k)))) &&
    (forall k :: k != Other && k in s.buildings && k in t.buildings ==>
      s.buildings[k] == t.buildings[k] && k in s.affected && k in t.affected && s.affected[k] == t.affected[k]) &&
    (Other in s.buildings <==> exists u :: u in visited && Small(t.buildings, u))
  }

  lemma LumpOneStep(t: Tallies, p: seq<Value>, u: Value, s: Tallies)
    requires SameKeys(s) && u in t.buildings && u != Other && u !in p
    requires forall v :: v in p ==> v in t.buildings
    requires LumpedState(t, p, s)
    ensures LumpedState(t, p + [u], LumpOne(s, u))
  {
    assert u in s.buildings && s.buildings[u] == t.buildings[u];
    assert forall v :: v in p + [u] <==> v in p || v == u;
    if Small(t.buildings, u) {
      assert exists v :: v in p + [u] && Small(t.buildings, v) by {
        assert u in p + [u];
      }
    } else {
      assert LumpOne(s, u) == s;
    }
  }

  /** After lumping all types (none of them 'other'), the types left besides
      'other' are exactly the ones with at least 25 buildings that are not
      'unknown', with their counts unchanged; 'other' is present exactly
      when some type was lumped. */
  lemma {:induction false} LumpAllShape(t: Tallies, order: seq<Value>)
    requires SameKeys(t) && Other !in t.buildings
    requires forall i, j :: 0 <= i < j < |order| ==> order[i] != order[j]
    requires forall u :: u in order ==> u in t.buildings
    ensures LumpedState(t, order, LumpAll(t, order))
  {
    if order == [] {
      assert LumpAll(t, order) == t;
    } else {
      var n := |order| - 1;
      var p := order[..n];
      assert order == p + [order[n]];
      assert forall i :: 0 <= i < n ==> p[i] == order[i];
      LumpAllShape(t, p);
      LumpOneStep(t, p, order[n], LumpAll(t, p));
    }
  }

  /** When every type has been visited, no type but 'other' is small. */
  lemma LumpedLeavesLarge(t: Tallies, order: seq<Value>)
    requires SameKeys(t) && Other !in t.buildings
    requires forall i, j :: 0 <= i < j < |order| ==> order[i] != order[j]
    requires forall u :: u in order <==> u in t.buildings
    ensures forall k :: k in LumpAll(t, order).buildings && k != Other ==>
      LumpAll(t, order).buildings[k] >= MinGroup && k != VStr("unknown")
  {
    LumpAllShape(t, order);
  }

  /** An existing type literally named 'other' with fewer than 25 buildings
      is counted twice and then deleted: its buildings are lost. */
  lemma OriginalOtherLost()
    ensures var t := Tallies(map[Other := 1], map[Other := 0], 0);
      MapSum(t.buildings) == 1 && MapSum(LumpAll(t, [Other]).buildings) == 0
  {
    var t := Tallies(map[Other := 1], map[Other := 0], 0);
    MapSumRemove(t.buildings, Other);
    assert t.buildings - {Other} == map[];
    assert [Other][..0] == [];
    assert LumpAll(t, [Other]).buildings == map[];
  }

  // ---------------------------------------------------------------------
  // The breakdown by type

  function UpperChar(c: char): char
  {
    if 'a' <= c <= 'z' then (c as int - 32) as char else c
  }

  /** str.capitalize(): the first character in upper case, the rest in
      lower case. */
  function Capitalize(s: string): (r: string)
    ensures |r| == |s|
    ensures |s| > 0 ==> r[0] == UpperChar(s[0])
    ensures forall i :: 1 <= i < |s| ==> r[i] == LowerChar(s[i])
  {
    if s == [] then [] else [UpperChar(s[0])] + Lower(s[1..])
  }

  /** s.replace('_', ' '). */
  function Spaced(s: string): (r: string)
    ensures |r| == |s|
    ensures forall i :: 0 <= i < |s| ==> r[i] == (if s[i] == '_' then ' ' else s[i])
  {
    seq(|s|, i requires 0 <= i < |s| => if s[i] == '_' then ' ' else s[i])
  }

  /** A word without spaces or underscores is the spaced form of itself
      only. */
  lemma SpacedOnly(s: string, w: string)
    requires forall i :: 0 <= i < |w| ==> w[i] != ' ' && w[i] != '_'
    ensures Spaced(s) == w <==> s == w
  {
    if s == w {
      assert Spaced(s) == w;
    }
    if Spaced(s) == w {
      assert forall i :: 0 <= i < |s| ==> s[i] == w[i] by {
        forall i | 0 <= i < |s| ensures s[i] == w[i] {
          assert Spaced(s)[i] == w[i];
        }
      }
    }
  }

  const School := "school"
  const Hospital := "hospital"

  /** One line of the breakdown: the type's display name, its flooded
      buildings and its buildings. */
  datatype TypeRow = TypeRow(name: string, affected: int, total: int)

  predicate AllNamed(keys: seq<Value>)
  {
    forall i :: 0 <= i < |keys| ==> keys[i].VStr?
  }

  predicate Counted(t: Tallies, keys: seq<Value>)
  {
    SameKeys(t) && forall i :: 0 <= i < |keys| ==> keys[i] in t.buildings
  }

  /** The rows for the types keys, in that order. */
  function TypeRows(t: Tallies, keys: seq<Value>): (r: seq<TypeRow>)
    requires Counted(t, keys) && AllNamed(keys)
    ensures |r| == |keys|
    ensures forall i :: 0 <= i < |keys| ==>
      r[i] == TypeRow(Capitalize(Spaced(keys[i].s)), t.affected[keys[i]], t.buildings[keys[i]])
  {
    seq(|keys|, i requires 0 <= i < |keys| && Counted(t, keys) && AllNamed(keys) =>
      TypeRow(Capitalize(Spaced(keys[i].s)), t.affected[keys[i]], t.buildings[keys[i]]))
  }

  /** The flooded buildings of type w among keys, 0 when w is not listed. */
  function ClosedIn(t: Tallies, keys: seq<Value>, w: string): int
    requires Counted(t, keys)
  {
    if VStr(w) in keys then t.affected[VStr(w)] else 0
  }

  /** One more type extends the rows by its row. */
  lemma TypeRowsStep(t: Tallies, keys: seq<Value>, i: nat)
    requires Counted(t, keys) && i < |keys| && AllNamed(keys[..i + 1])
    ensures Counted(t, keys[..i]) && Counted(t, keys[..i + 1])
    ensures TypeRows(t, keys[..i + 1]) ==
      TypeRows(t, keys[..i]) + [TypeRow(Capitalize(Spaced(keys[i].s)), t.affected[keys[i]], t.buildings[keys[i]])]
  {
    assert keys[..i + 1] == keys[..i] + [keys[i]];
  }

  /** One more type makes the flooded count of the word w its own count
      when its spaced name is w, and leaves it otherwise. */
  lemma ClosedInStep(t: Tallies, keys: seq<Value>, i: nat, w: string)
    requires Counted(t, keys) && i < |keys| && keys[i].VStr?
    requires forall k :: 0 <= k < |w| ==> w[k] != ' ' && w[k] != '_'
    ensures Counted(t, keys[..i]) && Counted(t, keys[..i + 1])
    ensures ClosedIn(t, keys[..i + 1], w) ==
      (if Spaced(keys[i].s) == w then t.affected[keys[i]] else ClosedIn(t, keys[..i], w))
  {
    assert keys[..i + 1] == keys[..i] + [keys[i]];
    SpacedOnly(keys[i].s, w);
  }

  /** The loop over the types after lumping: a row per type, and the
      flooded schools and hospitals remembered. A type that is not text has
      no replace() and raises AttributeError. */
  method BreakdownList(t: Tallies, keys: seq<Value>) returns (r: Result<(seq<TypeRow>, int, int)>)
    requires Counted(t, keys)
    ensures r.Ok? <==> AllNamed(keys)
    ensures r.Err? ==> r.error == AttributeError
    ensures r.Ok? ==> r.value == (TypeRows(t, keys), ClosedIn(t, keys, School), ClosedIn(t, keys, Hospital))
  {
    var list: seq<TypeRow> := [];
    var school, hospital := 0, 0;
    for i := 0 to |keys|
      invariant Counted(t, keys[..i]) && AllNamed(keys[..i])
      invariant list == TypeRows(t, keys[..i])
      invariant school == ClosedIn(t, keys[..i], School) && hospital == ClosedIn(t, keys[..i], Hospital)
    {
      var usage := keys[i];
      if !usage.VStr? {
        return Err(AttributeError);
      }
      assert AllNamed(keys[..i + 1]) by {
        assert forall j :: 0 <= j < i ==> keys[..i + 1][j] == keys[..i][j];
      }
      TypeRowsStep(t, keys, i);
      ClosedInStep(t, keys, i, School);
      ClosedInStep(t, keys, i, Hospital);
      var buildingType := Spaced(usage.s);
      list := list + [TypeRow(Capitalize(buildingType), t.affected[usage], t.buildings[usage])];
      if buildingType == School {
        school := t.affected[usage];
      }
      if buildingType == Hospital {
        hospital := t.affected[usage];
      }
    }
    assert keys[..|keys|] == keys;
    r := Ok((list, school, hospital));
  }

  // ---------------------------------------------------------------------
  // Sorting the breakdown by name (list.sort())

  /** a <= b for Python strings. */
  predicate NameLe(a: string, b: string)
  {
    a == b || LexLess(a, b)
  }

  lemma NameLeTransitive(a: string, b: string, c: string)
    requires NameLe(a, b) && NameLe(b, c)
    ensures NameLe(a, c)
  {
    if a != b && b != c {
      LexLessTransitive(a, b, c);
    }
  }

  predicate NameSorted(rows: seq<TypeRow>)
  {
    forall i, j :: 0 <= i < j < |rows| ==> NameLe(rows[i].name, rows[j].name)
  }

  /** x placed before the first row whose name is not smaller. */
  function Insert(x: TypeRow, rows: seq<TypeRow>): (r: seq<TypeRow>)
    ensures multiset(r) == multiset(rows) + multiset{x}
  {
    if rows == [] then [x]
    else if NameLe(x.name, rows[0].name) then [x] + rows
    else
      assert rows == [rows[0]] + rows[1..];
      [rows[0]] + Insert(x, rows[1..])
  }

  /** The rows sorted by name, rows of equal name kept in their order. */
  function SortByName(rows: seq<TypeRow>): (r: seq<TypeRow>)
    ensures multiset(r) == multiset(rows)
  {
    if rows == [] then []
    else
      assert rows == [rows[0]] + rows[1..];
      Insert(rows[0], SortByName(rows[1..]))
  }

  lemma ConsSorted(h: TypeRow, rows: seq<TypeRow>)
    requires NameSorted(rows)
    requires forall y :: y in rows ==> NameLe(h.name, y.name)
    ensures NameSorted([h] + rows)
  {
    forall i, j | 0 <= i < j < |[h] + rows|
      ensures NameLe(([h] + rows)[i].name, ([h] + rows)[j].name)
    {
      if i > 0 {
        assert ([h] + rows)[i] == rows[i - 1] && ([h] + rows)[j] == rows[j - 1];
      } else {
        assert ([h] + rows)[j] in rows;
      }
    }
  }

  lemma {:induction false} InsertSorted(x: TypeRow, rows: seq<TypeRow>)
    requires NameSorted(rows)
    ensures NameSorted(Insert(x, rows))
  {
    if rows != [] {
      if NameLe(x.name, rows[0].name) {
        forall y | y in rows ensures NameLe(x.name, y.name) {
          var j :| 0 <= j < |rows| && rows[j] == y;
          if j > 0 { NameLeTransitive(x.name, rows[0].name, y.name); }
        }
        ConsSorted(x, rows);
      } else {
        LexLessTotal(x.name, rows[0].name);
        var tail := rows[1..];
        assert NameSorted(tail) by {
          forall i, j | 0 <= i < j < |tail| ensures NameLe(tail[i].name, tail[j].name) {
            assert tail[i] == rows[i + 1] && tail[j] == rows[j + 1];
          }
        }
        InsertSorted(x, tail);
        forall y | y in Insert(x, tail) ensures NameLe(rows[0].name, y.name) {
          assert y in multiset(Insert(x, tail));
          assert y in multiset(tail) || y == x;
        }
        ConsSorted(rows[0], Insert(x, tail));
      }
    }
  }

  /** The sort orders the rows by name. */
  lemma {:induction false} SortByNameSorted(rows: seq<TypeRow>)
    ensures NameSorted(SortByName(rows))
  {
    if rows != [] {
      SortByNameSorted(rows[1..]);
      InsertSorted(rows[0], SortByName(rows[1..]));
    }
  }

  /** Sums of the total and flooded columns. */
  function TotalOf(rows: seq<TypeRow>): int
  {
    if rows == [] then 0 else rows[0].total + TotalOf(rows[1..])
  }

  function AffectedOf(rows: seq<TypeRow>): int
  {
    if rows == [] then 0 else rows[0].affected + AffectedOf(rows[1..])
  }

  lemma {:induction false} InsertSums(x: TypeRow, rows: seq<TypeRow>)
    ensures TotalOf(Insert(x, rows)) == x.total + TotalOf(rows)
    ensures AffectedOf(Insert(x, rows)) == x.affected + AffectedOf(rows)
  {
    if rows != [] && !NameLe(x.name, rows[0].name) {
      InsertSums(x, rows[1..]);
      assert ([rows[0]] + Insert(x, rows[1..]))[1..] == Insert(x, rows[1..]);
    }
  }

  /** Sorting keeps the column sums. */
  lemma {:induction false} SortByNameSums(rows: seq<TypeRow>)
    ensures TotalOf(SortByName(rows)) == TotalOf(rows)
    ensures AffectedOf(SortByName(rows)) == AffectedOf(rows)
  {
    if rows != [] {
      SortByNameSums(rows[1..]);
      InsertSums(rows[0], SortByName(rows[1..]));
    }
  }

  /** m[keys[0]] + m[keys[1]] + ... */
  function KeySum(m: map<Value, int>, keys: seq<Value>): int
    requires forall i :: 0 <= i < |keys| ==> keys[i] in m
  {
    if keys == [] then 0 else m[keys[0]] + KeySum(m, keys[1..])
  }

  lemma {:induction false} KeySumFrame(m: map<Value, int>, m': map<Value, int>, keys: seq<Value>)
    requires forall i :: 0 <= i < |keys| ==> keys[i] in m && keys[i] in m' && m[keys[i]] == m'[keys[i]]
    ensures KeySum(m, keys) == KeySum(m', keys)
  {
    if keys != [] {
      KeySumFrame(m, m', keys[1..]);
    }
  }

  /** Summing over an enumeration of the keys gives the sum of the map. */
  lemma {:induction false} KeySumIsMapSum(m: map<Value, int>, keys: seq<Value>)
    requires forall i, j :: 0 <= i < j < |keys| ==> keys[i] != keys[j]
    requires forall k :: k in m <==> k in keys
    ensures KeySum(m, keys) == MapSum(m)
    decreases |keys|
  {
    if keys == [] {
      assert m == map[];
    } else {
      var m' := m - {keys[0]};
      assert forall k :: k in m' <==> k in keys[1..] by {
        assert forall k :: k in keys <==> k == keys[0] || k in keys[1..] by {
          assert keys == [keys[0]] + keys[1..];
        }
      }
      KeySumIsMapSum(m', keys[1..]);
      KeySumFrame(m, m', keys[1..]);
      MapSumRemove(m, keys[0]);
    }
  }

  lemma {:induction false} TypeRowsSums(t: Tallies, keys: seq<Value>)
    requires Counted(t, keys) && AllNamed(keys)
    ensures TotalOf(TypeRows(t, keys)) == KeySum(t.buildings, keys)
    ensures AffectedOf(TypeRows(t, keys)) == KeySum(t.affected, keys)
  {
    if keys != [] {
      TypeRowsSums(t, keys[1..]);
      assert TypeRows(t, keys)[1..] == TypeRows(t, keys[1..]);
    }
  }

  // ---------------------------------------------------------------------
  // The order of the lumped dictionary

  predicate Unique(s: seq<Value>)
  {
    forall i, j :: 0 <= i < j < |s| ==> s[i] != s[j]
  }

  /** The types of order still present in m, in that order. */
  function Present(order: seq<Value>, m: map<Value, int>): (r: seq<Value>)
    ensures forall k :: k in r <==> k in order && k in m
    ensures Unique(order) ==> Unique(r)
  {
    if order == [] then []
    else
      var n := |order| - 1;
      assert forall k :: k in order <==> k in order[..n] || k == order[n] by {
        assert order == order[..n] + [order[n]];
      }
      assert Unique(order) ==> Unique(order[..n]) && order[n] !in order[..n];
      Present(order[..n], m) + (if order[n] in m then [order[n]] else [])
  }

  /** Iteration order after lumping: the surviving types in their order of
      insertion, then 'other' when lumping created it. */
  function LumpedOrder(order: seq<Value>, lumped: Tallies): (keys: seq<Value>)
    ensures Unique(order) ==> Unique(keys)
    ensures forall k :: k in keys ==> k in lumped.buildings
    ensures forall k :: k in lumped.buildings && (k in order || k == Other) ==> k in keys
  {
    Present(order, lumped.buildings) + (if Other in lumped.buildings && Other !in order then [Other] else [])
  }

  /** Lumping only ever adds 'other'. */
  lemma {:induction false} LumpAllKeys(t: Tallies, order: seq<Value>)
    requires SameKeys(t)
    ensures forall k :: k in LumpAll(t, order).buildings ==> k in t.buildings || k == Other
  {
    if order != [] {
      LumpAllKeys(t, order[..|order| - 1]);
    }
  }

  // ---------------------------------------------------------------------
  // The impact summary

  /** The question, the header row, and the row for all buildings. */
  function Heading(question: Entry, count: int, n: int): seq<Entry>
  {
    [question,
     Row([Say(BuildingType), Say(NumberFlooded), Say(Total)], true),
     Row([Say(AllTypes), Int(VInt(count)), Int(VInt(n))], false)]
  }

  /** The breakdown rows, one per type, name first. */
  function ListEntries(rows: seq<TypeRow>): (r: seq<Entry>)
    ensures |r| == |rows|
    ensures forall i :: 0 <= i < |rows| ==>
      r[i] == Row([Text(rows[i].name), Int(VInt(rows[i].affected)), Int(VInt(rows[i].total))], false)
  {
    seq(|rows|, i requires 0 <= i < |rows| =>
      Row([Text(rows[i].name), Int(VInt(rows[i].affected)), Int(VInt(rows[i].total))], false))
  }

  const BuildingChecklistRows: seq<Entry> := [
    Says(ActionChecklist, true), Says(FacilitiesOpen, false), Says(WarningCapacity, false),
    Says(EvacuationCentres, false), Says(OperationsCentre, false), Says(Warehouses, false)]

  /** The question about closed schools or hospitals, only when some are
      flooded. */
  function ClosedRow(p: Phrase, closed: int): seq<Entry>
  {
    if closed > 0 then [Row([Fill(p, [Int(VInt(closed))])], false)] else []
  }

  /** The note on when a building counts as flooded. */
  function Assumption(mode: Mode): Entry
  {
    match mode
    case Grid => Line(Fill(FloodedAboveDepth, [Text("1.0")]))
    case Regions => Line(Say(FloodedInMarkedRegions))
  }

  /** The checklist, the closed schools and hospitals, and the notes. */
  function Closing(mode: Mode, school: int, hospital: int): seq<Entry>
  {
    BuildingChecklistRows + ClosedRow(ClosedSchools, school) + ClosedRow(ClosedHospitals, hospital) +
    [Says(Notes, true), Assumption(mode)]
  }

  /** The layer has at least one of the usage attributes. */
  predicate HasUsage(names: seq<string>)
  {
    exists i :: 0 <= i < |UsageAttributes| && UsageAttributes[i] in names
  }

  /** The buildings with their INUNDATED flag, and the impact summary. */
  datatype FloodImpact = FloodImpact(attributes: seq<Row>, summary: seq<Entry>)

  /** The counts after the feature loop. */
  ghost function TallyOf(mode: Mode, names: seq<string>, rows: seq<Row>): Tallies
    requires AllEvaluate(mode, names, rows)
  {
    CountAll(Evals(mode, names, rows))
  }

  /** The counts after lumping, visiting the types in insertion order. */
  ghost function LumpedOf(mode: Mode, names: seq<string>, rows: seq<Row>): (t: Tallies)
    requires AllEvaluate(mode, names, rows)
    ensures SameKeys(t)
  {
    LumpAll(TallyOf(mode, names, rows), KeysInOrder(Evals(mode, names, rows)))
  }

  ghost function ListedOf(mode: Mode, names: seq<string>, rows: seq<Row>): (keys: seq<Value>)
    requires AllEvaluate(mode, names, rows)
    ensures Counted(LumpedOf(mode, names, rows), keys) && Unique(keys)
  {
    LumpedOrder(KeysInOrder(Evals(mode, names, rows)), LumpedOf(mode, names, rows))
  }

  /** The breakdown rows as shown: one per remaining type, sorted by name. */
  ghost function ListingOf(mode: Mode, names: seq<string>, rows: seq<Row>): seq<TypeRow>
    requires AllEvaluate(mode, names, rows) && AllNamed(ListedOf(mode, names, rows))
  {
    SortByName(TypeRows(LumpedOf(mode, names, rows), ListedOf(mode, names, rows)))
  }

  /** Every building with its flag written to INUNDATED. */
  ghost function MarkedRows(mode: Mode, names: seq<string>, rows: seq<Row>): (r: seq<Row>)
    requires AllEvaluate(mode, names, rows)
    ensures |r| == |rows|
    ensures forall i :: 0 <= i < |rows| ==> r[i] == Marked(rows[i], Evals(mode, names, rows)[i].flag)
  {
    seq(|rows|, i requires 0 <= i < |rows| && AllEvaluate(mode, names, rows) =>
      Marked(rows[i], Evals(mode, names, rows)[i].flag))
  }

  /** The summary from the counts: with the breakdown when the layer has a
      usage attribute (a type that is not text then raises AttributeError). */
  function Summary(mode: Mode, names: seq<string>, question: Entry, count: int, n: int,
                   lumped: Tallies, keys: seq<Value>): (r: Result<seq<Entry>>)
    requires Counted(lumped, keys)
    ensures r.Ok? ==> |r.value| > 3 && r.value[..3] == Heading(question, count, n)
    ensures r.Err? <==> HasUsage(names) && !AllNamed(keys)
  {
    var head := Heading(question, count, n);
    if !HasUsage(names) then Ok(head + Closing(mode, 0, 0))
    else if !AllNamed(keys) then Err(AttributeError)
    else
      Ok(head + [Says(BreakdownByType, true)] + ListEntries(SortByName(TypeRows(lumped, keys))) +
         Closing(mode, ClosedIn(lumped, keys, School), ClosedIn(lumped, keys, Hospital)))
  }

  /** What run() produces once every building has been read. */
  ghost function Reported(mode: Mode, names: seq<string>, rows: seq<Row>, question: Entry): Result<FloodImpact>
    requires AllEvaluate(mode, names, rows)
  {
    var summary := Summary(mode, names, question, TallyOf(mode, names, rows).count, |rows|,
                           LumpedOf(mode, names, rows), ListedOf(mode, names, rows));
    if summary.Err? then Err(summary.error) else Ok(FloodImpact(MarkedRows(mode, names, rows), summary.value))
  }

  /** The feature loop and the lumping. */
  method Analyse(mode: Mode, names: seq<string>, rows: seq<Row>)
    returns (r: Result<(seq<Row>, Tallies, Tallies, seq<Value>)>)
    ensures r.Ok? <==> AllEvaluate(mode, names, rows)
    ensures r.Err? ==> FailsFirstWith(mode, names, rows, r.error)
    ensures r.Ok? ==> r.value.0 == MarkedRows(mode, names, rows) && r.value.1 == TallyOf(mode, names, rows)
    ensures r.Ok? ==> r.value.2 == LumpedOf(mode, names, rows) && r.value.3 == KeysInOrder(Evals(mode, names, rows))
  {
    var counted := CountBuildings(mode, names, rows);
    if counted.Err? {
      return Err(counted.error);
    }
    var (attributes, t, order) := counted.value;
    CountAllKeys(Evals(mode, names, rows));
    var lumped := Lump(t, order);
    r := Ok((attributes, t, lumped, order));
  }

  /** Laying out the summary: the heading, the breakdown when the layer has
      a usage attribute, the checklist and the notes. */
  method Summarise(mode: Mode, names: seq<string>, question: Entry, count: int, n: int,
                   lumped: Tallies, order: seq<Value>)
    returns (r: Result<seq<Entry>>)
    requires SameKeys(lumped) && Unique(order)
    ensures r == Summary(mode, names, question, count, n, lumped, LumpedOrder(order, lumped))
  {
    var body := Heading(question, count, n);
    var school, hospital := 0, 0;
    if exists i :: 0 <= i < |UsageAttributes| && UsageAttributes[i] in names {
      var keys := LumpedOrder(order, lumped);
      var listing := BreakdownList(lumped, keys);
      if listing.Err? {
        return Err(listing.error);
      }
      var (list, s, h) := listing.value;
      body := body + [Says(BreakdownByType, true)] + ListEntries(SortByName(list));
      school, hospital := s, h;
    }
    body := body + Closing(mode, school, hospital);
    r := Ok(body);
  }

  /** Flood impact on buildings: flag and count every building, lump the
      small types, and lay out the summary. The question heading is given. */
  method Run(mode: Mode, names: seq<string>, rows: seq<Row>, question: Entry) returns (r: Result<FloodImpact>)
    ensures !AllEvaluate(mode, names, rows) ==> r.Err? && FailsFirstWith(mode, names, rows, r.error)
    ensures AllEvaluate(mode, names, rows) ==> r == Reported(mode, names, rows, question)
  {
    var analysis := Analyse(mode, names, rows);
    if analysis.Err? {
      return Err(analysis.error);
    }
    var (attributes, t, lumped, order) := analysis.value;
    var summary := Summarise(mode, names, question, t.count, |rows|, lumped, order);
    if summary.Err? {
      return Err(summary.error);
    }
    r := Ok(FloodImpact(attributes, summary.value));
  }

  // ---------------------------------------------------------------------
  // What the summary says

  lemma {:induction false} NumFloodedBound(evs: seq<RowEval>)
    ensures NumFlooded(evs) <= |evs|
  {
    if evs != [] {
      NumFloodedBound(evs[..|evs| - 1]);
    }
  }

  /** The row for all buildings shows the number of buildings flagged True
      out of the number of buildings. */
  lemma ReportedAllRow(mode: Mode, names: seq<string>, rows: seq<Row>, question: Entry)
    requires AllEvaluate(mode, names, rows) && Reported(mode, names, rows, question).Ok?
    ensures var n := NumFlooded(Evals(mode, names, rows));
      n <= |rows| &&
      Reported(mode, names, rows, question).value.summary[2] ==
        Row([Say(AllTypes), Int(VInt(n)), Int(VInt(|rows|))], false)
  {
    var summary := Summary(mode, names, question, TallyOf(mode, names, rows).count, |rows|,
                           LumpedOf(mode, names, rows), ListedOf(mode, names, rows));
    assert Reported(mode, names, rows, question).value.summary[2] == summary.value[..3][2];
    CountAllSums(Evals(mode, names, rows));
    NumFloodedBound(Evals(mode, names, rows));
  }

  /** The breakdown is in alphabetical order of the type names. */
  lemma ListingSorted(mode: Mode, names: seq<string>, rows: seq<Row>)
    requires AllEvaluate(mode, names, rows) && AllNamed(ListedOf(mode, names, rows))
    ensures NameSorted(ListingOf(mode, names, rows))
  {
    SortByNameSorted(TypeRows(LumpedOf(mode, names, rows), ListedOf(mode, names, rows)));
  }

  /** The types listed are 'other' and the types with at least 25
      buildings other than 'unknown'. */
  lemma ListedTypesLarge(mode: Mode, names: seq<string>, rows: seq<Row>)
    requires AllEvaluate(mode, names, rows)
    requires Other !in TallyOf(mode, names, rows).buildings
    ensures var t := TallyOf(mode, names, rows);
      forall k :: k in ListedOf(mode, names, rows) ==> k == Other || (k in t.buildings && !Small(t.buildings, k))
  {
    var evs := Evals(mode, names, rows);
    CountAllKeys(evs);
    LumpAllShape(TallyOf(mode, names, rows), KeysInOrder(evs));
  }

  /** A large type keeps its counts through lumping and gets its own row. */
  lemma LargeTypeListed(t: Tallies, order: seq<Value>, k: Value)
    requires SameKeys(t) && Other !in t.buildings && Unique(order)
    requires forall u :: u in order <==> u in t.buildings
    requires AllNamed(LumpedOrder(order, LumpAll(t, order)))
    requires k in t.buildings && !Small(t.buildings, k)
    ensures k.VStr?
    ensures TypeRow(Capitalize(Spaced(k.s)), t.affected[k], t.buildings[k]) in
      SortByName(TypeRows(LumpAll(t, order), LumpedOrder(order, LumpAll(t, order))))
  {
    var s := LumpAll(t, order);
    LargeSurvives(t, order, k);
    var keys := LumpedOrder(order, s);
    assert k in keys;
    var i :| 0 <= i < |keys| && keys[i] == k;
    var listed := TypeRows(s, keys);
    assert listed[i] == TypeRow(Capitalize(Spaced(k.s)), t.affected[k], t.buildings[k]);
    SortedKeepsRow(listed, i);
  }

  /** A large type keeps its counts through lumping. */
  lemma LargeSurvives(t: Tallies, order: seq<Value>, k: Value)
    requires SameKeys(t) && Other !in t.buildings && Unique(order)
    requires forall u :: u in order <==> u in t.buildings
    requires k in t.buildings && !Small(t.buildings, k)
    ensures var s := LumpAll(t, order);
      k in s.buildings && k in s.affected && k in t.affected &&
      s.buildings[k] == t.buildings[k] && s.affected[k] == t.affected[k]
  {
    LumpAllShape(t, order);
    assert k != Other;
  }

  /** Sorting keeps every row. */
  lemma SortedKeepsRow(rows: seq<TypeRow>, i: nat)
    requires i < |rows|
    ensures rows[i] in SortByName(rows)
  {
    assert rows[i] in multiset(rows);
  }

  /** Every type with at least 25 buildings other than 'unknown' has its
      own row, with its own counts. */
  lemma ListingShowsLargeType(mode: Mode, names: seq<string>, rows: seq<Row>, k: Value)
    requires AllEvaluate(mode, names, rows) && AllNamed(ListedOf(mode, names, rows))
    requires Other !in TallyOf(mode, names, rows).buildings
    requires k in TallyOf(mode, names, rows).buildings && !Small(TallyOf(mode, names, rows).buildings, k)
    ensures var t := TallyOf(mode, names, rows);
      k.VStr? && TypeRow(Capitalize(Spaced(k.s)), t.affected[k], t.buildings[k]) in ListingOf(mode, names, rows)
  {
    var evs := Evals(mode, names, rows);
    CountAllKeys(evs);
    LargeTypeListed(TallyOf(mode, names, rows), KeysInOrder(evs), k);
  }

  /** When no type is literally 'other', the breakdown adds up: its totals
      to the number of buildings, its flooded counts to the number of
      buildings flagged True. */
  lemma ListingAddsUp(mode: Mode, names: seq<string>, rows: seq<Row>)
    requires AllEvaluate(mode, names, rows) && AllNamed(ListedOf(mode, names, rows))
    requires Other !in TallyOf(mode, names, rows).buildings
    ensures TotalOf(ListingOf(mode, names, rows)) == |rows|
    ensures AffectedOf(ListingOf(mode, names, rows)) == NumFlooded(Evals(mode, names, rows))
  {
    var evs := Evals(mode, names, rows);
    var t := TallyOf(mode, names, rows);
    var order := KeysInOrder(evs);
    var lumped := LumpedOf(mode, names, rows);
    var keys := ListedOf(mode, names, rows);
    CountAllKeys(evs);
    CountAllSums(evs);
    LumpAllKeys(t, order);
    LumpAllSums(t, order);
    SortByNameSums(TypeRows(lumped, keys));
    TypeRowsSums(lumped, keys);
    KeySumIsMapSum(lumped.buildings, keys);
    KeySumIsMapSum(lumped.affected, keys);
  }

  /** The closed schools are the flooded buildings of type 'school' only
      when that type has at least 25 buildings; fewer are lumped into
      'other' first and the question about schools is not asked. */
  lemma ClosedSchoolsAfterLumping(mode: Mode, names: seq<string>, rows: seq<Row>)
    requires AllEvaluate(mode, names, rows)
    requires Other !in TallyOf(mode, names, rows).buildings
    ensures var t := TallyOf(mode, names, rows);
      ClosedIn(LumpedOf(mode, names, rows), ListedOf(mode, names, rows), School) ==
        if VStr(School) in t.buildings && !Small(t.buildings, VStr(School)) then t.affected[VStr(School)] else 0
  {
    var evs := Evals(mode, names, rows);
    CountAllKeys(evs);
    LumpAllShape(TallyOf(mode, names, rows), KeysInOrder(evs));
  }
}
