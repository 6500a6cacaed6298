/** FloodEvacuationFunctionVectorHazard.run: population points counted into
    the flood-prone polygons that contain them, per polygon, per FLOODPRONE
    category and in total; the evacuated share floored to thousands; the
    weekly relief needs and the impact tables. The points are the output of
    the hazard interpolation, taken as given. */
module FloodPolygon {
  import opened Common
  import opened TableFormatter

  const TargetField := "population"
  const CategoryTitle := "FLOODPRONE"

  /** The default 'evacuation_percentage' parameter. */
  const DefaultPercentage: real := 1.0

  // ---------------------------------------------------------------------
  // Which points are affected

  /** A point is affected by its 'affected' attribute when present (None
      meaning no), else by 'FLOODPRONE' matching "yes" in any case (None
      meaning no, a non-text value raising AttributeError in lower()); a
      point with only 'Affected' is never affected; a point with none of
      them raises the plain exception. */
  function PointAffected(point: Row): (r: Result<bool>)
    ensures "affected" in point ==> r == Ok(point["affected"] != VNone && Truthy(point["affected"]))
    ensures "affected" !in point && CategoryTitle in point ==>
      r == (match point[CategoryTitle]
            case VNone => Ok(false)
            case VStr(s) => Ok(Lower(s) == "yes")
            case _ => Err(AttributeError))
    ensures "affected" !in point && CategoryTitle !in point && "Affected" in point ==> r == Ok(false)
    ensures "affected" !in point && CategoryTitle !in point && "Affected" !in point ==>
      r == Err(PlainException(NoFloodAttribute))
  {
    if "affected" in point then
      var res := point["affected"];
      Ok(res != VNone && Truthy(res))
    else if CategoryTitle in point then
      match point[CategoryTitle]
      case VNone => Ok(false)
      case VStr(s) => Ok(Lower(s) == "yes")
      case _ => Err(AttributeError)
    else if "Affected" in point then Ok(false)
    else Err(PlainException(NoFloodAttribute))
  }

  /** A 'FLOODPRONE' value is read case-insensitively. */
  lemma FloodProneAnyCase(s: string, t: string)
    requires Lower(s) == Lower(t)
    ensures PointAffected(map[CategoryTitle := VStr(s)]) == PointAffected(map[CategoryTitle := VStr(t)])
  {
  }

  /** Python list indexing: an int (or bool) in -n..n-1, negative indices
      counting from the end. */
  function ListIndex(n: nat, v: Value): (r: Result<nat>)
    ensures r.Ok? ==> r.value < n
    ensures v.VInt? && 0 <= v.i < n ==> r == Ok(v.i)
    ensures v.VInt? && -(n as int) <= v.i < 0 ==> r == Ok(v.i + n)
    ensures v.VInt? && (v.i >= n || v.i < -(n as int)) ==> r == Err(IndexError)
    ensures !v.VInt? && !v.VBool? ==> r == Err(TypeError)
  {
    match v
    case VBool(b) =>
      var k := if b then 1 else 0;
      if k < n then Ok(k) else Err(IndexError)
    case VInt(k) =>
      if 0 <= k < n then Ok(k) else if -(n as int) <= k < 0 then Ok(k + n) else Err(IndexError)
    case _ => Err(TypeError)
  }

  // ---------------------------------------------------------------------
  // The counting state

  /** A polygon ready for counting: a numeric population and a category. */
  predicate Counted(p: Row)
  {
    TargetField in p && (p[TargetField].VInt? || p[TargetField].VFloat?) && CategoryTitle in p
  }

  /** A population value as a float. */
  function PopOf(v: Value): Num
    requires v.VInt? || v.VFloat?
  {
    if v.VInt? then Fin(v.i as real) else v.f
  }

  /** `population += pop`: an int or a float plus a float is a float. */
  function AddPop(v: Value, pop: Num): (w: Value)
    requires v.VInt? || v.VFloat?
    ensures w.VFloat? && PopOf(w) == NumAdd(PopOf(v), pop)
  {
    VFloat(NumAdd(PopOf(v), pop))
  }

  /** The output polygons, the categories dictionary and the affected
      population. */
  datatype Tally = Tally(polygons: seq<Row>, categories: map<Value, Num>, affected: Num)

  /** Every polygon is counted and its category has an entry. */
  predicate WellFormed(t: Tally)
  {
    forall i :: 0 <= i < |t.polygons| ==> Counted(t.polygons[i]) && t.polygons[i][CategoryTitle] in t.categories
  }

  /** One point: nothing when it is not affected; otherwise its population
      is added to the polygon its polygon_id names, to that polygon's
      category and to the total. */
  function AddPoint(t: Tally, point: Row): (r: Result<Tally>)
    requires WellFormed(t)
    ensures PointAffected(point).Err? ==> r == Err(PointAffected(point).error)
    ensures PointAffected(point) == Ok(false) ==> r == Ok(t)
    ensures r.Ok? ==> WellFormed(r.value) && |r.value.polygons| == |t.polygons|
    ensures r.Ok? && r.value != t ==> PointAffected(point) == Ok(true)
  {
    var affected :- PointAffected(point);
    if !affected then Ok(t)
    else
      var popValue :- DictValue(point, TargetField);
      var pop :- PyFloat(popValue);
      var id :- DictValue(point, "polygon_id");
      var i :- ListIndex(|t.polygons|, id);
      var p := t.polygons[i];
      var cat := p[CategoryTitle];
      Ok(Tally(t.polygons[i := p[TargetField := AddPop(p[TargetField], pop)]],
               t.categories[cat := NumAdd(t.categories[cat], pop)],
               NumAdd(t.affected, pop)))
  }

  /** attr[key]: KeyError when absent. */
  function DictValue(r: Row, key: string): (v: Result<Value>)
    ensures v.Ok? <==> key in r
    ensures v.Ok? ==> v.value == r[key]
    ensures v.Err? ==> v.error == KeyError
  {
    if key in r then Ok(r[key]) else Err(KeyError)
  }

  /** An affected point with a readable population and polygon id lands in
      exactly that polygon: its population field grows by the point's
      population, every other polygon is unchanged, its category and the
      total grow by the same amount. */
  lemma AffectedPointLands(t: Tally, point: Row, i: nat, pop: Num)
    requires WellFormed(t) && PointAffected(point) == Ok(true)
    requires TargetField in point && PyFloat(point[TargetField]) == Ok(pop)
    requires "polygon_id" in point && ListIndex(|t.polygons|, point["polygon_id"]) == Ok(i)
    ensures AddPoint(t, point).Ok?
    ensures var u := AddPoint(t, point).value;
      var cat := t.polygons[i][CategoryTitle];
      PopOf(u.polygons[i][TargetField]) == NumAdd(PopOf(t.polygons[i][TargetField]), pop) &&
      u.polygons[i][CategoryTitle] == cat &&
      (forall j :: 0 <= j < |t.polygons| && j != i ==> u.polygons[j] == t.polygons[j]) &&
      u.categories == t.categories[cat := NumAdd(t.categories[cat], pop)] &&
      u.affected == NumAdd(t.affected, pop)
  {
  }

  /** Every point in turn; the first failure stops the loop. */
  function AddPoints(t: Tally, points: seq<Row>): (r: Result<Tally>)
    requires WellFormed(t)
    ensures r.Ok? ==> WellFormed(r.value) && |r.value.polygons| == |t.polygons|
  {
    if points == [] then Ok(t)
    else
      var prev :- AddPoints(t, points[..|points| - 1]);
      AddPoint(prev, points[|points| - 1])
  }

  /** A failure stops the loop: the later points change nothing. */
  lemma {:induction false} AddPointsStops(t: Tally, points: seq<Row>, k: nat)
    requires WellFormed(t) && k <= |points| && AddPoints(t, points[..k]).Err?
    ensures AddPoints(t, points) == AddPoints(t, points[..k])
    decreases |points|
  {
    if k < |points| {
      var n := |points| - 1;
      assert points[..n][..k] == points[..k];
      AddPointsStops(t, points[..n], k);
    } else {
      assert points[..k] == points;
    }
  }

  // ---------------------------------------------------------------------
  // Sums

  /** The sum of the polygons' population fields. */
  function PolygonSum(ps: seq<Row>): Num
    requires forall i :: 0 <= i < |ps| ==> Counted(ps[i])
  {
    if ps == [] then Fin(0.0)
    else
      var n := |ps| - 1;
      assert Counted(ps[n]);
      NumAdd(PolygonSum(ps[..n]), PopOf(ps[n][TargetField]))
  }

  /** The same sum over the polygons of category c. */
  function CategorySum(ps: seq<Row>, c: Value): Num
    requires forall i :: 0 <= i < |ps| ==> Counted(ps[i])
  {
    if ps == [] then Fin(0.0)
    else
      var n := |ps| - 1;
      assert Counted(ps[n]);
      if ps[n][CategoryTitle] == c then NumAdd(CategorySum(ps[..n], c), PopOf(ps[n][TargetField]))
      else CategorySum(ps[..n], c)
  }

  /** The sum of the categories dictionary's values. */
  ghost function MapNumSum(m: map<Value, Num>): Num
    decreases |m|
  {
    if m == map[] then Fin(0.0)
    else
      var k :| k in m;
      NumAdd(m[k], MapNumSum(m - {k}))
  }

  /** NumAdd with NaN absorbing is associative and commutative. */
  lemma NumAddSwap(a: Num, b: Num, c: Num)
    ensures NumAdd(NumAdd(a, b), c) == NumAdd(NumAdd(a, c), b)
    ensures NumAdd(a, NumAdd(b, c)) == NumAdd(b, NumAdd(a, c))
  {
  }

  /** Any key can be taken out first. */
  lemma {:induction false} MapNumSumRemove(m: map<Value, Num>, k: Value)
    requires k in m
    ensures MapNumSum(m) == NumAdd(m[k], MapNumSum(m - {k}))
    decreases |m|
  {
    var k' :| k' in m && MapNumSum(m) == NumAdd(m[k'], MapNumSum(m - {k'}));
    if k' != k {
      MapNumSumRemove(m - {k'}, k);
      MapNumSumRemove(m - {k}, k');
      assert m - {k'} - {k} == m - {k} - {k'};
      NumAddSwap(m[k'], m[k], MapNumSum(m - {k} - {k'}));
    }
  }

  /** Adding pop to one entry adds pop to the sum. */
  lemma MapNumSumAdd(m: map<Value, Num>, k: Value, pop: Num)
    requires k in m
    ensures MapNumSum(m[k := NumAdd(m[k], pop)]) == NumAdd(MapNumSum(m), pop)
  {
    var m' := m[k := NumAdd(m[k], pop)];
    MapNumSumRemove(m', k);
    MapNumSumRemove(m, k);
    assert m' - {k} == m - {k};
    NumAddSwap(m[k], pop, MapNumSum(m - {k}));
  }

  /** A map of zeros sums to zero. */
  lemma {:induction false} MapNumSumZeros(m: map<Value, Num>)
    requires forall k :: k in m ==> m[k] == Fin(0.0)
    ensures MapNumSum(m) == Fin(0.0)
    decreases |m|
  {
    if m != map[] {
      var k :| k in m && MapNumSum(m) == NumAdd(m[k], MapNumSum(m - {k}));
      MapNumSumZeros(m - {k});
    }
  }

  /** Adding pop to polygon i adds pop to the polygon sum and to the sum
      of i's category, and leaves the other categories' sums alone. */
  lemma {:induction false} PolygonSumsAdd(ps: seq<Row>, i: nat, pop: Num)
    requires forall j :: 0 <= j < |ps| ==> Counted(ps[j])
    requires i < |ps|
    ensures Counted(ps[i])
    ensures var ps' := ps[i := ps[i][TargetField := AddPop(ps[i][TargetField], pop)]];
      PolygonSum(ps') == NumAdd(PolygonSum(ps), pop) &&
      forall c :: CategorySum(ps', c) ==
        if c == ps[i][CategoryTitle] then NumAdd(CategorySum(ps, c), pop) else CategorySum(ps, c)
  {
    var ps' := ps[i := ps[i][TargetField := AddPop(ps[i][TargetField], pop)]];
    var n := |ps| - 1;
    if i == n {
      assert ps'[..n] == ps[..n];
      NumAddSwap(PolygonSum(ps[..n]), PopOf(ps[n][TargetField]), pop);
      forall c
        ensures CategorySum(ps', c) ==
          if c == ps[i][CategoryTitle] then NumAdd(CategorySum(ps, c), pop) else CategorySum(ps, c)
      {
        NumAddSwap(CategorySum(ps[..n], c), PopOf(ps[n][TargetField]), pop);
      }
    } else {
      PolygonSumsAdd(ps[..n], i, pop);
      assert ps'[..n] == ps[..n][i := ps[i][TargetField := AddPop(ps[i][TargetField], pop)]];
      assert ps'[n] == ps[n];
      NumAddSwap(PolygonSum(ps[..n]), pop, PopOf(ps[n][TargetField]));
      forall c
        ensures CategorySum(ps', c) ==
          if c == ps[i][CategoryTitle] then NumAdd(CategorySum(ps, c), pop) else CategorySum(ps, c)
      {
        NumAddSwap(CategorySum(ps[..n], c), pop, PopOf(ps[n][TargetField]));
      }
    }
  }

  /** The three tallies agree: the polygons add up to the total, each
      category's entry is the sum of its polygons, and the categories add
      up to the total. */
  ghost predicate Balanced(t: Tally)
    requires WellFormed(t)
  {
    PolygonSum(t.polygons) == t.affected &&
    MapNumSum(t.categories) == t.affected &&
    forall c :: c in t.categories ==> t.categories[c] == CategorySum(t.polygons, c)
  }

  /** Each point keeps the tallies in agreement. */
  lemma AddPointBalanced(t: Tally, point: Row)
    requires WellFormed(t) && Balanced(t) && AddPoint(t, point).Ok?
    ensures Balanced(AddPoint(t, point).value)
  {
    if PointAffected(point) == Ok(true) {
      var pop := PyFloat(point[TargetField]).value;
      var i := ListIndex(|t.polygons|, point["polygon_id"]).value;
      var cat := t.polygons[i][CategoryTitle];
      PolygonSumsAdd(t.polygons, i, pop);
      MapNumSumAdd(t.categories, cat, pop);
    }
  }

  /** The whole point loop keeps them in agreement. */
  lemma {:induction false} AddPointsBalanced(t: Tally, points: seq<Row>)
    requires WellFormed(t) && Balanced(t) && AddPoints(t, points).Ok?
    ensures Balanced(AddPoints(t, points).value)
  {
    if points != [] {
      var n := |points| - 1;
      AddPointsBalanced(t, points[..n]);
      AddPointBalanced(AddPoints(t, points[..n]).value, points[n]);
    }
  }

  // ---------------------------------------------------------------------
  // The two loops

  /** The polygons with a population of 0. */
  function Zeroed(ps: seq<Row>): (r: seq<Row>)
    ensures |r| == |ps| && forall i :: 0 <= i < |ps| ==> r[i] == ps[i][TargetField := VInt(0)]
  {
    seq(|ps|, i requires 0 <= i < |ps| => ps[i][TargetField := VInt(0)])
  }

  /** Every polygon has a category. */
  predicate HasCategories(ps: seq<Row>)
  {
    forall i :: 0 <= i < |ps| ==> CategoryTitle in ps[i]
  }

  /** The categories of the polygons. */
  function CategoriesOf(ps: seq<Row>): set<Value>
    requires HasCategories(ps)
  {
    set i | 0 <= i < |ps| :: ps[i][CategoryTitle]
  }

  /** The categories of the polygons, each at 0. */
  function ZeroCategories(ps: seq<Row>): (m: map<Value, Num>)
    requires HasCategories(ps)
    ensures forall i :: 0 <= i < |ps| ==> ps[i][CategoryTitle] in m
    ensures forall c :: c in m ==> m[c] == Fin(0.0) && exists i :: 0 <= i < |ps| && ps[i][CategoryTitle] == c
  {
    map c | c in CategoriesOf(ps) :: Fin(0.0)
  }

  /** One more polygon adds its category. */
  lemma ZeroCategoriesStep(ps: seq<Row>, i: nat)
    requires i < |ps| && HasCategories(ps[..i]) && CategoryTitle in ps[i]
    ensures HasCategories(ps[..i + 1])
    ensures ZeroCategories(ps[..i + 1]) == ZeroCategories(ps[..i])[ps[i][CategoryTitle] := Fin(0.0)]
  {
    var p, q := ps[..i + 1], ps[..i];
    assert forall j :: 0 <= j < i ==> p[j] == q[j];
    assert p[i] == ps[i];
    assert CategoriesOf(p) == CategoriesOf(q) + {ps[i][CategoryTitle]};
  }

  /** The state after the first loop. */
  function Initial(ps: seq<Row>): (t: Tally)
    requires HasCategories(ps)
    ensures WellFormed(t)
  {
    Tally(Zeroed(ps), ZeroCategories(ps), Fin(0.0))
  }

  /** Before any point is counted the tallies agree (all are 0). */
  lemma {:induction false} InitialBalanced(ps: seq<Row>)
    requires HasCategories(ps)
    ensures Balanced(Initial(ps))
  {
    var t := Initial(ps);
    ZeroSums(t.polygons);
    MapNumSumZeros(t.categories);
  }

  lemma {:induction false} ZeroSums(ps: seq<Row>)
    requires forall i :: 0 <= i < |ps| ==> Counted(ps[i]) && ps[i][TargetField] == VInt(0)
    ensures PolygonSum(ps) == Fin(0.0)
    ensures forall c :: CategorySum(ps, c) == Fin(0.0)
  {
    if ps != [] {
      ZeroSums(ps[..|ps| - 1]);
    }
  }

  /** The first loop: population 0 in every polygon and 0 for every
      category; KeyError when a polygon has no 'FLOODPRONE'. */
  method InitPolygons(ps: seq<Row>) returns (r: Result<Tally>)
    ensures r.Ok? <==> HasCategories(ps)
    ensures r.Err? ==> r.error == KeyError
    ensures r.Ok? ==> r.value == Initial(ps)
  {
    var attributes := ps;
    var categories: map<Value, Num> := map[];
    for i := 0 to |ps|
      invariant |attributes| == |ps|
      invariant forall j :: 0 <= j < i ==> attributes[j] == ps[j][TargetField := VInt(0)]
      invariant forall j :: i <= j < |ps| ==> attributes[j] == ps[j]
      invariant HasCategories(ps[..i])
      invariant categories == ZeroCategories(ps[..i])
    {
      var attr := attributes[i][TargetField := VInt(0)];
      attributes := attributes[i := attr];
      if CategoryTitle !in attr {
        assert CategoryTitle !in ps[i];
        return Err(KeyError);
      }
      var cat := attr[CategoryTitle];
      categories := categories[cat := Fin(0.0)];
      ZeroCategoriesStep(ps, i);
    }
    assert ps[..|ps|] == ps;
    r := Ok(Tally(attributes, categories, Fin(0.0)));
  }

  /** The second loop, over the points. */
  method CountPoints(t0: Tally, points: seq<Row>) returns (r: Result<Tally>)
    requires WellFormed(t0)
    ensures r == AddPoints(t0, points)
  {
    var polygons, categories, affected := t0.polygons, t0.categories, t0.affected;
    for k := 0 to |points|
      invariant AddPoints(t0, points[..k]) == Ok(Tally(polygons, categories, affected))
    {
      var attr := points[k];
      assert points[..k + 1][..k] == points[..k];
      ghost var step := AddPoint(Tally(polygons, categories, affected), attr);
      assert AddPoints(t0, points[..k + 1]) == step;
      if step.Err? {
        AddPointsStops(t0, points, k + 1);
      }
      var flag := PointAffected(attr);
      if flag.Err? {
        return Err(flag.error);
      }
      if flag.value {
        var popValue := DictValue(attr, TargetField);
        if popValue.Err? {
          return Err(popValue.error);
        }
        var pop := PyFloat(popValue.value);
        if pop.Err? {
          return Err(pop.error);
        }
        var id := DictValue(attr, "polygon_id");
        if id.Err? {
          return Err(id.error);
        }
        var polyId := ListIndex(|polygons|, id.value);
        if polyId.Err? {
          return Err(polyId.error);
        }
        var i := polyId.value;
        polygons := polygons[i := polygons[i][TargetField := AddPop(polygons[i][TargetField], pop.value)]];
        var cat := polygons[i][CategoryTitle];
        categories := categories[cat := NumAdd(categories[cat], pop.value)];
        affected := NumAdd(affected, pop.value);
      }
    }
    assert points[..|points|] == points;
    r := Ok(Tally(polygons, categories, affected));
  }

  // ---------------------------------------------------------------------
  // Evacuated, totals and needs

  /** evacuated = affected_population * percentage / 100.0. */
  function Evacuated(affected: Num, percentage: real): (e: Num)
    ensures e.NaN? <==> affected.NaN?
    ensures e.Fin? ==> e.r * 100.0 == affected.r * percentage
  {
    if affected.NaN? then NaN else Fin(affected.r * percentage / 100.0)
  }

  /** `if x > 1000: x = x // 1000 * 1000` on a float. */
  function FloorThousands(x: Num): (y: Num)
    ensures x.NaN? ==> y.NaN?
    ensures x.Fin? && x.r <= 1000.0 ==> y == x
    ensures x.Fin? && x.r > 1000.0 ==> y.Fin? && y.r <= x.r < y.r + 1000.0 && y.r >= 1000.0
    ensures x.Fin? && x.r > 1000.0 ==> (y.r / 1000.0).Floor as real == y.r / 1000.0
  {
    if x.Fin? && x.r > 1000.0 then Fin((x.r / 1000.0).Floor as real * 1000.0) else x
  }

  /** The same on an int. */
  function FloorThousandsInt(x: int): (y: int)
    ensures x <= 1000 ==> y == x
    ensures x > 1000 ==> y % 1000 == 0 && 1000 <= y <= x < y + 1000
  {
    if x > 1000 then x / 1000 * 1000 else x
  }

  /** A float scaled by a constant. */
  function Scale(x: Num, k: real): Num
  {
    if x.NaN? then NaN else Fin(x.r * k)
  }

  /** The weekly needs: rice [kg], drinking water [l], clean water [l],
      family kits and toilets. */
  datatype Needs = Needs(rice: Num, drinkingWater: Num, water: Num, familyKits: Num, toilets: Num)

  /** The weekly needs are seven days of 400 g of rice, 2.5 l of drinking
      water and 15 l of clean water per person, one family kit per five
      people and one toilet per twenty; a NaN count gives NaN needs. */
  function WeeklyNeeds(evacuated: Num): (n: Needs)
    ensures evacuated.NaN? ==> n == Needs(NaN, NaN, NaN, NaN, NaN)
    ensures evacuated.Fin? ==>
      n.rice == Fin(7.0 * (0.4 * evacuated.r)) &&
      n.drinkingWater == Fin(7.0 * (2.5 * evacuated.r)) &&
      n.water == Fin(7.0 * (15.0 * evacuated.r)) &&
      n.familyKits.Fin? && n.familyKits.r * 5.0 == evacuated.r &&
      n.toilets.Fin? && n.toilets.r * 20.0 == evacuated.r
  {
    Needs(Scale(evacuated, 2.8), Scale(evacuated, 17.5), Scale(evacuated, 105.0),
          Scale(evacuated, 1.0 / 5.0), Scale(evacuated, 1.0 / 20.0))
  }

  // ---------------------------------------------------------------------
  // run()

  /** The hazard layer: its name, its kind and its polygons' attributes. */
  datatype HazardLayer = HazardLayer(name: Value, isVector: bool, isPolygon: bool, polygons: seq<Row>)

  /** The exposure layer: its name and its population grid. */
  datatype ExposureLayer = ExposureLayer(name: Value, grid: seq<Num>)

  datatype PolygonImpact = PolygonImpact(
    tally: Tally, evacuated: Num, total: int, needs: Needs,
    impactTable: seq<Entry>, impactSummary: seq<Entry>)

  /** The needs rows of the impact table, each need truncated with int(). */
  function NeedsRows(n: Needs): (r: Result<seq<Entry>>)
    ensures r.Ok? <==> n.rice.Fin? && n.drinkingWater.Fin? && n.water.Fin? && n.familyKits.Fin? && n.toilets.Fin?
    ensures r.Err? ==> r.error == ValueError
  {
    var rice :- PyInt(n.rice);
    var drinking :- PyInt(n.drinkingWater);
    var water :- PyInt(n.water);
    var kits :- PyInt(n.familyKits);
    var toilets :- PyInt(n.toilets);
    Ok([Row([Say(RiceKg), Int(VInt(rice))], false),
        Row([Say(DrinkingWaterL), Int(VInt(drinking))], false),
        Row([Say(CleanWaterL), Int(VInt(water))], false),
        Row([Say(FamilyKits), Int(VInt(kits))], false),
        Row([Say(Toilets), Int(VInt(toilets))], false)])
  }

  /** The impact table: the question, the evacuated count, the map note,
      the needs heading and the needs. */
  function ImpactTable(question: Entry, evacuated: Num, needs: Needs): (r: Result<seq<Entry>>)
    ensures r.Ok? ==> |r.value| == 9 && r.value[0] == question
    ensures r.Ok? ==> r.value[1] == Row([Say(PeopleNeedingEvacuation), Fill(AsText, [Int(VFloat(evacuated))])], true)
    ensures r.Err? <==> NeedsRows(needs).Err?
  {
    var rows :- NeedsRows(needs);
    Ok([question,
        Row([Say(PeopleNeedingEvacuation), Fill(AsText, [Int(VFloat(evacuated))])], true),
        Says(FloodProneMap, false),
        Row([Say(NeedsPerWeek), Say(Total)], true)] + rows)
  }

  /** The notes closing the on-screen summary. */
  function PolygonNotes(total: int): seq<Entry>
  {
    [Says(Notes, true),
     Line(Fill(TotalPopulationNote, [Int(VInt(total))])),
     Line(Say(FloodProneEvacuation)),
     Line(Say(NeedsRegulation))]
  }

  /** What run() computes once the polygons and points are counted. */
  ghost predicate Reports(question: Entry, t: Tally, percentage: real, grid: seq<Num>, out: PolygonImpact)
  {
    var evacuated := FloorThousands(Evacuated(t.affected, percentage));
    var total := FloorThousandsInt(TruncInt(NanSum(grid)));
    out.tally == t && out.evacuated == evacuated && out.total == total &&
    out.needs == WeeklyNeeds(evacuated) &&
    ImpactTable(question, evacuated, out.needs) == Ok(out.impactTable) &&
    out.impactSummary == out.impactTable + InundationChecklist + PolygonNotes(total)
  }

  /** run(): the hazard checks, the two loops, the totals, the needs and the
      tables. The question is get_question's heading for the two layers;
      the legend classes (numpy.linspace) are not modelled, only the
      ValueError that max() raises on a layer without polygons. */
  method Run(hazard: HazardLayer, exposure: ExposureLayer, points: seq<Row>, percentage: real, title: Value)
    returns (r: Result<PolygonImpact>)
    ensures !hazard.isVector ==> r == Err(PlainException(HazardNotVector))
    ensures hazard.isVector && !hazard.isPolygon ==> r == Err(PlainException(HazardNotPolygon))
    ensures hazard.isVector && hazard.isPolygon && !HasCategories(hazard.polygons) ==> r == Err(KeyError)
    ensures (hazard.isVector && hazard.isPolygon && HasCategories(hazard.polygons) &&
             AddPoints(Initial(hazard.polygons), points).Err?) ==>
      r == Err(AddPoints(Initial(hazard.polygons), points).error)
    ensures (hazard.isVector && hazard.isPolygon && HasCategories(hazard.polygons) &&
             AddPoints(Initial(hazard.polygons), points).Ok?) ==>
      var affected := AddPoints(Initial(hazard.polygons), points).value.affected;
      (affected.NaN? ==> r == Err(ValueError)) &&
      (affected.Fin? && hazard.polygons == [] ==> r == Err(ValueError)) &&
      (affected.Fin? && hazard.polygons != [] ==> r.Ok?)
    ensures r.Ok? ==>
      (HasCategories(hazard.polygons) && hazard.polygons != [] &&
       AddPoints(Initial(hazard.polygons), points) == Ok(r.value.tally) &&
       Balanced(r.value.tally) &&
       Reports(Question(hazard.name, exposure.name, title), r.value.tally, percentage, exposure.grid, r.value))
  {
    var question := Question(hazard.name, exposure.name, title);
    if !hazard.isVector {
      return Err(PlainException(HazardNotVector));
    }
    if !hazard.isPolygon {
      return Err(PlainException(HazardNotPolygon));
    }
    var init := InitPolygons(hazard.polygons);
    if init.Err? {
      return Err(init.error);
    }
    var counted := CountPoints(init.value, points);
    if counted.Err? {
      return Err(counted.error);
    }
    var t := counted.value;
    InitialBalanced(hazard.polygons);
    AddPointsBalanced(init.value, points);
    var evacuated := Evacuated(t.affected, percentage);
    NanSumOfZeroFilled(exposure.grid);
    var total := TruncInt(Sum(NanToZero(exposure.grid)));
    total := FloorThousandsInt(total);
    evacuated := FloorThousands(evacuated);
    var needs := WeeklyNeeds(evacuated);
    var impactTable := ImpactTable(question, evacuated, needs);
    if impactTable.Err? {
      return Err(impactTable.error);
    }
    var summary := impactTable.value + InundationChecklist + PolygonNotes(total);
    if t.polygons == [] {
      return Err(ValueError);
    }
    r := Ok(PolygonImpact(t, evacuated, total, needs, impactTable.value, summary));
  }
}
