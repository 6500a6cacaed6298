/** The JSON keywords of an impact layer: the category x attribute impact
    breakdown table, the impact layer's keyword record and the keywords
    object that forwards to its primary layer. */
module Keywords {
  import opened Common

  /** An OrderedDict with string keys: the keys in insertion order and the
      value stored under each. */
  datatype ODict<V> = ODict(keys: seq<string>, m: map<string, V>) {
    ghost predicate Valid()
    {
      (forall i, j :: 0 <= i < j < |keys| ==> keys[i] != keys[j]) &&
      (forall k :: k in m <==> k in keys)
    }

    /** d[k] = v: a new key goes to the end, an existing key keeps its place. */
    function Put(k: string, v: V): (d: ODict<V>)
      ensures Valid() ==> d.Valid()
      ensures d.m == m[k := v]
      ensures d.keys == if k in m then keys else keys + [k]
    {
      if k in m then ODict(keys, m[k := v]) else ODict(keys + [k], m[k := v])
    }
  }

  /** The distinct elements of ks in order of first occurrence: the key order
      of an OrderedDict filled from ks. */
  function Dedup(ks: seq<string>): (r: seq<string>)
    ensures forall k :: k in r <==> k in ks
    ensures forall i, j :: 0 <= i < j < |r| ==> r[i] != r[j]
  {
    if ks == [] then []
    else
      var p := Dedup(ks[..|ks| - 1]);
      if ks[|ks| - 1] in p then p else p + [ks[|ks| - 1]]
  }

  /** Filling an OrderedDict from distinct keys keeps exactly their order. */
  lemma {:induction false} DedupOfDistinct(ks: seq<string>)
    requires forall i, j :: 0 <= i < j < |ks| ==> ks[i] != ks[j]
    ensures Dedup(ks) == ks
  {
    if ks != [] {
      DedupOfDistinct(ks[..|ks| - 1]);
      assert ks[|ks| - 1] !in ks[..|ks| - 1];
      assert ks[..|ks| - 1] + [ks[|ks| - 1]] == ks;
    }
  }

  /** OrderedDict(zip(ks, [v] * len(ks))). */
  function FromKeys<V>(ks: seq<string>, v: V): (d: ODict<V>)
    ensures d.Valid()
    ensures d.keys == Dedup(ks)
    ensures forall k :: k in d.m ==> d.m[k] == v
  {
    if ks == [] then ODict([], map[]) else FromKeys(ks[..|ks| - 1], v).Put(ks[|ks| - 1], v)
  }

  /** The breakdown's data: category -> (attribute -> value). */
  type Table = ODict<ODict<Value>>

  ghost predicate WellFormed(t: Table)
  {
    t.Valid() && forall c :: c in t.m ==> t.m[c].Valid()
  }

  /** The data of a new breakdown: every category maps to its own ordered
      dictionary of the attributes, every cell None. */
  function InitialData(categories: seq<string>, attributes: seq<string>): (t: Table)
    ensures WellFormed(t)
    ensures t.keys == Dedup(categories)
    ensures forall c :: c in t.m ==> t.m[c].keys == Dedup(attributes)
    ensures forall c, a :: c in t.m && a in t.m[c].m ==> t.m[c].m[a] == VNone
  {
    if categories == [] then ODict([], map[])
    else
      InitialData(categories[..|categories| - 1], attributes)
        .Put(categories[|categories| - 1], FromKeys(attributes, VNone))
  }

  /** breakdown[c, a]: KeyError for an unknown category or attribute. */
  function CellGet(t: Table, c: string, a: string): (r: Result<Value>)
    ensures r.Ok? <==> c in t.m && a in t.m[c].m
    ensures r.Err? ==> r.error == KeyError
  {
    if c !in t.m then Err(KeyError)
    else if a !in t.m[c].m then Err(KeyError)
    else Ok(t.m[c].m[a])
  }

  /** breakdown[c, a] = v: KeyError for an unknown category; an unknown
      attribute is added to that category's dictionary. */
  function CellPut(t: Table, c: string, a: string, v: Value): (r: Result<Table>)
    ensures r.Ok? <==> c in t.m
    ensures r.Err? ==> r.error == KeyError
    ensures r.Ok? ==> r.value.keys == t.keys && r.value.m.Keys == t.m.Keys
  {
    if c !in t.m then Err(KeyError) else Ok(t.Put(c, t.m[c].Put(a, v)))
  }

  /** A new breakdown over distinct categories and attributes lists them in
      the given order, and every one of its cells reads None. */
  lemma NewTableShape(categories: seq<string>, attributes: seq<string>)
    requires forall i, j :: 0 <= i < j < |categories| ==> categories[i] != categories[j]
    requires forall i, j :: 0 <= i < j < |attributes| ==> attributes[i] != attributes[j]
    ensures InitialData(categories, attributes).keys == categories
    ensures forall c :: c in categories ==> InitialData(categories, attributes).m[c].keys == attributes
    ensures forall c, a :: c in categories && a in attributes ==>
      CellGet(InitialData(categories, attributes), c, a) == Ok(VNone)
    ensures forall c, a :: c !in categories ==> CellGet(InitialData(categories, attributes), c, a) == Err(KeyError)
  {
    DedupOfDistinct(categories);
    DedupOfDistinct(attributes);
  }

  /** Writing a cell then reading it gives the written value; every other
      cell, and the order of categories, is unchanged. */
  lemma PutThenGet(t: Table, c: string, a: string, v: Value, c2: string, a2: string)
    requires c in t.m
    ensures CellPut(t, c, a, v).Ok?
    ensures CellGet(CellPut(t, c, a, v).value, c, a) == Ok(v)
    ensures (c2, a2) != (c, a) ==> CellGet(CellPut(t, c, a, v).value, c2, a2) == CellGet(t, c2, a2)
    ensures CellPut(t, c, a, v).value.keys == t.keys
  {
  }

  /** An unknown category fails both ways and changes nothing. */
  lemma UnknownCategory(t: Table, c: string, a: string, v: Value)
    requires c !in t.m
    ensures CellGet(t, c, a) == Err(KeyError)
    ensures CellPut(t, c, a, v) == Err(KeyError)
  {
  }

  /** Setting an unknown attribute of a known category appends it to that
      category only. */
  lemma NewAttributeStaysLocal(t: Table, c: string, a: string, v: Value)
    requires c in t.m && a !in t.m[c].m
    ensures CellPut(t, c, a, v).Ok?
    ensures CellPut(t, c, a, v).value.m[c].keys == t.m[c].keys + [a]
    ensures forall c2 :: c2 in t.m && c2 != c ==> CellPut(t, c, a, v).value.m[c2] == t.m[c2]
  {
  }

  /** A run of writes breakdown[c, a] = v, in order; a write to an unknown
      category fails and leaves the table as it was. */
  function PutCells(t: Table, cells: seq<(string, string, Value)>): (r: Table)
    ensures r.keys == t.keys && r.m.Keys == t.m.Keys
  {
    if cells == [] then t
    else
      var n := |cells| - 1;
      var prev := PutCells(t, cells[..n]);
      match CellPut(prev, cells[n].0, cells[n].1, cells[n].2)
      case Ok(next) => next
      case Err(_) => prev
  }

  /** What cell (c, a) holds after a run of writes: the last value written
      to it, otherwise what it held before. */
  function LastWrite(cells: seq<(string, string, Value)>, c: string, a: string, before: Result<Value>): Result<Value>
  {
    if cells == [] then before
    else
      var n := |cells| - 1;
      if cells[n].0 == c && cells[n].1 == a then Ok(cells[n].2) else LastWrite(cells[..n], c, a, before)
  }

  /** Reading a cell after a run of writes gives the last value written to
      it, or its old content when it was not written. */
  lemma {:induction false} PutCellsGet(t: Table, cells: seq<(string, string, Value)>, c: string, a: string)
    requires forall j :: 0 <= j < |cells| ==> cells[j].0 in t.m
    ensures CellGet(PutCells(t, cells), c, a) == LastWrite(cells, c, a, CellGet(t, c, a))
  {
    if cells != [] {
      var n := |cells| - 1;
      assert forall j :: 0 <= j < n ==> cells[..n][j] == cells[j];
      PutCellsGet(t, cells[..n], c, a);
      var prev := PutCells(t, cells[..n]);
      assert cells[n].0 in prev.m;
      PutThenGet(prev, cells[n].0, cells[n].1, cells[n].2, c, a);
      assert PutCells(t, cells) == CellPut(prev, cells[n].0, cells[n].1, cells[n].2).value;
    }
  }

  /** Writing a cell keeps the table well formed and every cell it had. */
  lemma CellPutWellFormed(t: Table, c: string, a: string, v: Value)
    requires WellFormed(t) && c in t.m
    ensures WellFormed(CellPut(t, c, a, v).value)
  {
  }

  /** A run of writes keeps the table well formed. */
  lemma {:induction false} PutCellsWellFormed(t: Table, cells: seq<(string, string, Value)>)
    requires WellFormed(t) && forall j :: 0 <= j < |cells| ==> cells[j].0 in t.m
    ensures WellFormed(PutCells(t, cells))
  {
    if cells != [] {
      var n := |cells| - 1;
      PutCellsWellFormed(t, cells[..n]);
      var prev := PutCells(t, cells[..n]);
      CellPutWellFormed(prev, cells[n].0, cells[n].1, cells[n].2);
    }
  }

  /** A run of writes keeps every cell the table had. */
  lemma {:induction false} PutCellsKeepsCells(t: Table, cells: seq<(string, string, Value)>, c: string, a: string)
    requires forall j :: 0 <= j < |cells| ==> cells[j].0 in t.m
    requires c in t.m && a in t.m[c].m
    ensures a in PutCells(t, cells).m[c].m
  {
    if cells != [] {
      var n := |cells| - 1;
      PutCellsKeepsCells(t, cells[..n], c, a);
    }
  }

  /** A cell written exactly once holds the written value. */
  lemma {:induction false} LastWriteOnce(cells: seq<(string, string, Value)>, j: nat, before: Result<Value>)
    requires j < |cells|
    requires forall i :: 0 <= i < |cells| && i != j ==> (cells[i].0, cells[i].1) != (cells[j].0, cells[j].1)
    ensures LastWrite(cells, cells[j].0, cells[j].1, before) == Ok(cells[j].2)
  {
    var n := |cells| - 1;
    if j < n {
      LastWriteOnce(cells[..n], j, before);
    }
  }

  /** A cell never written keeps its content. */
  lemma {:induction false} LastWriteNever(cells: seq<(string, string, Value)>, c: string, a: string, before: Result<Value>)
    requires forall i :: 0 <= i < |cells| ==> (cells[i].0, cells[i].1) != (c, a)
    ensures LastWrite(cells, c, a, before) == before
  {
    if cells != [] {
      LastWriteNever(cells[..|cells| - 1], c, a, before);
    }
  }

  function Strings(s: seq<string>): (r: seq<Value>)
    ensures |r| == |s| && forall i :: 0 <= i < |s| ==> r[i] == VStr(s[i])
  {
    seq(|s|, i requires 0 <= i < |s| => VStr(s[i]))
  }

  function RowValue(d: ODict<Value>): (r: Value)
    requires d.Valid()
    ensures r.VDict? && |r.entries| == |d.keys|
    ensures forall i :: 0 <= i < |d.keys| ==> r.entries[i] == (d.keys[i], d.m[d.keys[i]])
  {
    VDict(seq(|d.keys|, i requires 0 <= i < |d.keys| => (d.keys[i], d.m[d.keys[i]])))
  }

  /** The table as nested ordered dictionaries, keys in insertion order. */
  function TableValue(t: Table): (r: Value)
    requires WellFormed(t)
    ensures r.VDict? && |r.entries| == |t.keys|
    ensures forall i :: 0 <= i < |t.keys| ==> r.entries[i] == (t.keys[i], RowValue(t.m[t.keys[i]]))
  {
    VDict(seq(|t.keys|, i requires 0 <= i < |t.keys| => (t.keys[i], RowValue(t.m[t.keys[i]]))))
  }

  /** A category x attribute impact table; every cell starts as None. */
  class ImpactBreakdown {
    var categoryLabel: Value
    var categories: seq<string>
    var attributes: seq<string>
    var data: Table

    /** The data lists the categories in order and holds a cell for every
        declared category and attribute. */
    ghost predicate Valid()
      reads this
    {
      WellFormed(data) &&
      data.keys == Dedup(categories) &&
      forall c :: c in data.m ==> forall a :: a in attributes ==> a in data.m[c].m
    }

    constructor (categories: seq<string>, attributes: seq<string>, categoryLabel: Value)
      ensures Valid()
      ensures this.categories == categories && this.attributes == attributes
      ensures this.categoryLabel == categoryLabel
      ensures data == InitialData(categories, attributes)
    {
      this.categoryLabel := categoryLabel;
      this.categories := categories;
      this.attributes := attributes;
      this.data := InitialData(categories, attributes);
    }

    /** breakdown[c, a]: never fails for a declared category and attribute. */
    function Get(c: string, a: string): (r: Result<Value>)
      requires Valid()
      reads this
      ensures c in categories && a in attributes ==> r.Ok?
      ensures c !in categories ==> r == Err(KeyError)
    {
      CellGet(data, c, a)
    }

    /** breakdown[c, a] = v. */
    method Set(c: string, a: string, v: Value) returns (r: Result<()>)
      modifies this
      ensures old(Valid()) ==> Valid()
      ensures categories == old(categories) && attributes == old(attributes)
      ensures categoryLabel == old(categoryLabel)
      ensures r.Ok? <==> c in old(data).m
      ensures old(Valid()) ==> (r.Ok? <==> c in categories)
      ensures r.Ok? ==> data == CellPut(old(data), c, a, v).value
      ensures r.Err? ==> r.error == KeyError && data == old(data)
    {
      if Valid() && c in data.m {
        CellPutWellFormed(data, c, a, v);
      }
      var p := CellPut(data, c, a, v);
      if p.Err? {
        return Err(p.error);
      }
      data := p.value;
      r := Ok(());
    }

    function GetCategories(): (r: seq<string>)
      requires Valid()
      reads this
      ensures forall c :: c in r ==> c in data.m
    {
      categories
    }

    function GetAttributes(): (r: seq<string>)
      requires Valid()
      reads this
      ensures forall c, a :: c in data.m && a in r ==> CellGet(data, c, a).Ok?
    {
      attributes
    }

    /** OrderedDict of category_label, data, categories and attributes. */
    function Serialize(): (r: Value)
      requires Valid()
      reads this
      ensures r.VDict? && |r.entries| == 4
      ensures r.entries[0] == ("category_label", categoryLabel)
      ensures r.entries[1] == ("data", TableValue(data))
      ensures r.entries[2] == ("categories", VList(Strings(categories)))
      ensures r.entries[3] == ("attributes", VList(Strings(attributes)))
    {
      VDict([("category_label", categoryLabel),
             ("data", TableValue(data)),
             ("categories", VList(Strings(categories))),
             ("attributes", VList(Strings(attributes)))])
    }
  }

  /** A new breakdown, with every given category a key of its data. */
  method NewBreakdown(categories: seq<string>, attributes: seq<string>, categoryLabel: Value) returns (b: ImpactBreakdown)
    ensures fresh(b) && b.Valid()
    ensures b.categories == categories && b.attributes == attributes
    ensures b.categoryLabel == categoryLabel
    ensures forall j :: 0 <= j < |categories| ==> categories[j] in b.data.m
  {
    b := new ImpactBreakdown(categories, attributes, categoryLabel);
  }

  /** Runs the writes breakdown[c, a] = v of a cell list in order. */
  method WriteCells(b: ImpactBreakdown, cells: seq<(string, string, Value)>)
    modifies b
    ensures old(b.Valid()) ==> b.Valid()
    ensures b.categories == old(b.categories) && b.attributes == old(b.attributes)
    ensures b.categoryLabel == old(b.categoryLabel)
    ensures b.data == PutCells(old(b.data), cells)
  {
    for i := 0 to |cells|
      invariant old(b.Valid()) ==> b.Valid()
      invariant b.categories == old(b.categories) && b.attributes == old(b.attributes)
      invariant b.categoryLabel == old(b.categoryLabel)
      invariant b.data == PutCells(old(b.data), cells[..i])
    {
      var _ := b.Set(cells[i].0, cells[i].1, cells[i].2);
      assert cells[..i + 1][..i] == cells[..i];
    }
    assert cells[..|cells|] == cells;
  }

  /** The impact assessment record: both subcategories, plus the units
      'wet/dry' for a flood. */
  function ImpactAssessment(exposure: string, hazard: string): (r: Value)
    ensures r.VDict?
  {
    VDict([("exposure_subcategory", VStr(exposure)), ("hazard_subcategory", VStr(hazard))]
          + (if hazard == "flood" then [("hazard_units", VStr("wet/dry"))] else []))
  }

  lemma ImpactAssessmentFields(exposure: string, hazard: string)
    ensures DictGet(ImpactAssessment(exposure, hazard), "exposure_subcategory") == Ok(VStr(exposure))
    ensures DictGet(ImpactAssessment(exposure, hazard), "hazard_subcategory") == Ok(VStr(hazard))
    ensures DictGet(ImpactAssessment(exposure, hazard), "hazard_units").Ok? <==> hazard == "flood"
    ensures hazard == "flood" ==> DictGet(ImpactAssessment(exposure, hazard), "hazard_units") == Ok(VStr("wet/dry"))
  {
    var d := ImpactAssessment(exposure, hazard);
    assert d.entries[0].0 == "exposure_subcategory";
    assert d.entries[1].0 == "hazard_subcategory";
    if hazard == "flood" {
      assert d.entries[2].0 == "hazard_units";
    }
  }

  /** What is known of an impact function object: the eight fields always
      recorded, and the optional ones it has (author, rating, citation,
      limitation). */
  datatype ImpactFunctionInfo = ImpactFunctionInfo(
    className: string, functionId: Value, synopsis: Value, title: Value,
    parameters: Value, description: Value, hazard: Value, exposure: Value,
    optional: map<string, Value>)

  const OptionalDetails: seq<string> := ["author", "rating", "citation", "limitation"]

  function OptionalEntries(f: ImpactFunctionInfo, names: seq<string>): (r: seq<(string, Value)>)
    ensures forall e :: e in r ==> e.0 in names && e.0 in f.optional && e.1 == f.optional[e.0]
    ensures forall k :: k in names && k in f.optional ==> (k, f.optional[k]) in r
  {
    if names == [] then []
    else
      (if names[0] in f.optional then [(names[0], f.optional[names[0]])] else [])
      + OptionalEntries(f, names[1..])
  }

  /** The eight fields always recorded, in order. */
  function BaseDetails(f: ImpactFunctionInfo): seq<(string, Value)>
  {
    [("impact_function_name", VStr(f.className)),
     ("impact_function_id", f.functionId),
     ("synopsis", f.synopsis),
     ("title", f.title),
     ("parameters", f.parameters),
     ("description", f.description),
     ("hazard", f.hazard),
     ("exposure", f.exposure)]
  }

  function FunctionDetails(f: ImpactFunctionInfo): (r: Value)
    ensures r.VDict?
  {
    VDict(BaseDetails(f) + OptionalEntries(f, OptionalDetails))
  }

  /** Looking a key up past a prefix that lacks it. */
  lemma {:induction false} EntryIndexAfter(a: seq<(string, Value)>, b: seq<(string, Value)>, k: string)
    requires forall e :: e in a ==> e.0 != k
    ensures EntryIndex(a + b, k) == |a| + EntryIndex(b, k)
  {
    if a != [] {
      assert (a + b)[0] == a[0] && a[0] in a;
      assert (a + b)[1..] == a[1..] + b;
      EntryIndexAfter(a[1..], b, k);
    } else {
      assert a + b == b;
    }
  }

  /** function_details['parameters'] is the function's own parameters. */
  lemma FunctionDetailsParameters(f: ImpactFunctionInfo)
    ensures DictGet(FunctionDetails(f), "parameters") == Ok(f.parameters)
  {
    var entries := FunctionDetails(f).entries;
    assert entries[..5] == BaseDetails(f)[..5];
    FoundFifth(entries, "parameters");
  }

  /** A key first found at index 4 is looked up there. */
  lemma FoundFifth(entries: seq<(string, Value)>, k: string)
    requires |entries| > 4 && entries[4].0 == k
    requires entries[0].0 != k && entries[1].0 != k && entries[2].0 != k && entries[3].0 != k
    ensures EntryIndex(entries, k) == 4
  {
    assert EntryIndex(entries[4..], k) == 0;
    assert entries[3..][1..] == entries[4..];
    assert entries[2..][1..] == entries[3..];
    assert entries[1..][1..] == entries[2..];
  }

  /** The optional details are recorded exactly when the function has them. */
  lemma FunctionDetailsFields(f: ImpactFunctionInfo, k: string)
    requires k in OptionalDetails
    ensures DictGet(FunctionDetails(f), k).Ok? <==> k in f.optional
    ensures k in f.optional ==> DictGet(FunctionDetails(f), k) == Ok(f.optional[k])
  {
    var d := FunctionDetails(f);
    var opt := OptionalEntries(f, OptionalDetails);
    BaseLacksOptional(f, k);
    EntryIndexAfter(BaseDetails(f), opt, k);
    var j := EntryIndex(opt, k);
    if j < |opt| {
      assert opt[j] in opt;
    }
    if k in f.optional {
      assert (k, f.optional[k]) in opt;
    }
  }

  /** No always-recorded field is named like an optional one. */
  lemma BaseLacksOptional(f: ImpactFunctionInfo, k: string)
    requires k in OptionalDetails
    ensures forall e :: e in BaseDetails(f) ==> e.0 != k
  {
  }

  /** The number of entries of fields whose value is truthy. */
  function CountTruthy(fields: seq<(string, Value)>): (r: nat)
    ensures r <= |fields|
  {
    if fields == [] then 0 else (if Truthy(fields[0].1) then 1 else 0) + CountTruthy(fields[1..])
  }

  /** The entries whose value is truthy, in their original order. */
  function TruthyEntries(fields: seq<(string, Value)>): (r: seq<(string, Value)>)
    ensures |r| == CountTruthy(fields)
    ensures forall e :: e in r <==> e in fields && Truthy(e.1)
  {
    if fields == [] then []
    else (if Truthy(fields[0].1) then [fields[0]] else []) + TruthyEntries(fields[1..])
  }

  /** Each truthy entry lands after exactly the truthy entries that precede
      it, so the fixed field order is kept. */
  lemma {:induction false} TruthyEntriesKeepOrder(fields: seq<(string, Value)>, i: nat)
    requires i < |fields| && Truthy(fields[i].1)
    ensures CountTruthy(fields[..i]) < |TruthyEntries(fields)|
    ensures TruthyEntries(fields)[CountTruthy(fields[..i])] == fields[i]
  {
    if i > 0 {
      TruthyEntriesKeepOrder(fields[1..], i - 1);
      assert fields[..i][1..] == fields[1..][..i - 1];
    }
  }

  /** The keywords of an impact layer. */
  class KeywordsLayerImpact {
    var version: int
    var title: Value
    var functionDetails: Value
    var impactAssessment: Value
    var minimumNeeds: Value
    var postProcessing: Value
    var impactBreakdown: ImpactBreakdown?
    var layerType: string

    /** A layer built from its data dictionary; absent fields are None. */
    constructor (layerData: Row, version: int)
      ensures this.version == version && layerType == "impact"
      ensures title == (if "title" in layerData then layerData["title"] else VNone)
      ensures functionDetails == (if "function_details" in layerData then layerData["function_details"] else VNone)
      ensures impactAssessment == (if "impact_assessment" in layerData then layerData["impact_assessment"] else VNone)
      ensures minimumNeeds == (if "minimum_needs" in layerData then layerData["minimum_needs"] else VNone)
      ensures postProcessing == (if "post_processing" in layerData then layerData["post_processing"] else VNone)
      ensures impactBreakdown == null
    {
      this.version := version;
      title := if "title" in layerData then layerData["title"] else VNone;
      functionDetails := if "function_details" in layerData then layerData["function_details"] else VNone;
      impactAssessment := if "impact_assessment" in layerData then layerData["impact_assessment"] else VNone;
      minimumNeeds := if "minimum_needs" in layerData then layerData["minimum_needs"] else VNone;
      postProcessing := if "post_processing" in layerData then layerData["post_processing"] else VNone;
      impactBreakdown := null;
      layerType := "impact";
    }

    ghost predicate Valid()
      reads this, impactBreakdown
    {
      impactBreakdown != null ==> impactBreakdown.Valid()
    }

    /** The entries for serialisation, in their fixed order; the breakdown
        (an object, so always truthy) in serialised form. */
    function Fields(): (f: seq<(string, Value)>)
      requires Valid()
      reads this, impactBreakdown
      ensures |f| == 5
      ensures f[0] == ("function_details", functionDetails)
      ensures f[1] == ("impact_assessment", impactAssessment)
      ensures f[2] == ("minimum_needs", minimumNeeds)
      ensures f[3] == ("post_processing", postProcessing)
      ensures f[4].0 == "impact_breakdown"
      ensures f[4].1 == if impactBreakdown != null then impactBreakdown.Serialize() else VNone
    {
      [("function_details", functionDetails), ("impact_assessment", impactAssessment),
       ("minimum_needs", minimumNeeds), ("post_processing", postProcessing),
       ("impact_breakdown", if impactBreakdown != null then impactBreakdown.Serialize() else VNone)]
    }

    /** Only the truthy fields, in the order of Fields(). */
    function Serialize(): (r: Value)
      requires Valid()
      reads this, impactBreakdown
      ensures r.VDict? && r.entries == TruthyEntries(Fields())
    {
      VDict(TruthyEntries(Fields()))
    }

    method SetImpactAssessment(exposure: string, hazard: string)
      modifies this
      ensures impactAssessment == ImpactAssessment(exposure, hazard)
      ensures version == old(version) && title == old(title) && functionDetails == old(functionDetails)
      ensures minimumNeeds == old(minimumNeeds) && postProcessing == old(postProcessing)
      ensures impactBreakdown == old(impactBreakdown) && layerType == old(layerType)
    {
      impactAssessment := ImpactAssessment(exposure, hazard);
    }

    method SetMinimumNeeds(needs: Value)
      modifies this
      ensures minimumNeeds == needs
      ensures version == old(version) && title == old(title) && functionDetails == old(functionDetails)
      ensures impactAssessment == old(impactAssessment) && postProcessing == old(postProcessing)
      ensures impactBreakdown == old(impactBreakdown) && layerType == old(layerType)
    {
      minimumNeeds := needs;
    }

    method SetFunctionDetails(f: ImpactFunctionInfo)
      modifies this
      ensures functionDetails == FunctionDetails(f)
      ensures version == old(version) && title == old(title) && minimumNeeds == old(minimumNeeds)
      ensures impactAssessment == old(impactAssessment) && postProcessing == old(postProcessing)
      ensures impactBreakdown == old(impactBreakdown) && layerType == old(layerType)
    {
      functionDetails := FunctionDetails(f);
    }

    method SetTitle(t: Value)
      modifies this
      ensures title == t
      ensures version == old(version) && functionDetails == old(functionDetails) && minimumNeeds == old(minimumNeeds)
      ensures impactAssessment == old(impactAssessment) && postProcessing == old(postProcessing)
      ensures impactBreakdown == old(impactBreakdown) && layerType == old(layerType)
    {
      title := t;
    }

    method SetImpactBreakdown(b: ImpactBreakdown)
      modifies this
      ensures impactBreakdown == b
      ensures version == old(version) && title == old(title) && functionDetails == old(functionDetails)
      ensures minimumNeeds == old(minimumNeeds) && impactAssessment == old(impactAssessment)
      ensures postProcessing == old(postProcessing) && layerType == old(layerType)
    {
      impactBreakdown := b;
    }
  }

  /** A serialised impact layer holds each plain field exactly when it is
      truthy. */
  lemma SerializedLayerFields(l: KeywordsLayerImpact)
    requires l.Valid()
    ensures ("function_details", l.functionDetails) in l.Serialize().entries <==> Truthy(l.functionDetails)
    ensures ("impact_assessment", l.impactAssessment) in l.Serialize().entries <==> Truthy(l.impactAssessment)
    ensures ("minimum_needs", l.minimumNeeds) in l.Serialize().entries <==> Truthy(l.minimumNeeds)
    ensures ("post_processing", l.postProcessing) in l.Serialize().entries <==> Truthy(l.postProcessing)
  {
    var f := l.Fields();
    assert f[0] in f && f[1] in f && f[2] in f && f[3] in f;
  }

  /** A serialised impact layer holds the serialised breakdown once one is
      set. */
  lemma SerializedLayerBreakdown(l: KeywordsLayerImpact)
    requires l.Valid() && l.impactBreakdown != null
    ensures ("impact_breakdown", l.impactBreakdown.Serialize()) in l.Serialize().entries
  {
    var f := l.Fields();
    var b := l.impactBreakdown.Serialize();
    assert b.entries != [];
    assert f[4] == ("impact_breakdown", b) && f[4] in f;
  }

  /** Without a breakdown the serialised layer holds at most the four plain
      fields. */
  lemma SerializedLayerWithoutBreakdown(l: KeywordsLayerImpact)
    requires l.Valid() && l.impactBreakdown == null
    ensures |l.Serialize().entries| <= 4
  {
    var f := l.Fields();
    assert f == f[..4] + [f[4]];
    CountTruthyAppend(f[..4], f[4]);
  }

  /** No entry counts exactly when no value is truthy. */
  lemma {:induction false} CountTruthyZero(fields: seq<(string, Value)>)
    ensures CountTruthy(fields) == 0 <==> forall i :: 0 <= i < |fields| ==> !Truthy(fields[i].1)
  {
    if fields != [] {
      CountTruthyZero(fields[1..]);
      assert forall i :: 1 <= i < |fields| ==> fields[1..][i - 1] == fields[i];
    }
  }

  lemma {:induction false} CountTruthyAppend(fields: seq<(string, Value)>, e: (string, Value))
    ensures CountTruthy(fields + [e]) == CountTruthy(fields) + (if Truthy(e.1) then 1 else 0)
  {
    if fields != [] {
      assert (fields + [e])[1..] == fields[1..] + [e];
      CountTruthyAppend(fields[1..], e);
    } else {
      assert ([] + [e])[1..] == [];
    }
  }

  /** A layer as seen by the keywords: file name, name, kind and its own
      keywords. */
  datatype LayerInfo = LayerInfo(filename: Value, name: Value, isVector: bool, keywords: map<string, Value>)

  function ProvenanceEntry(layer: LayerInfo): Value
  {
    VDict([("path", layer.filename), ("name", layer.name),
           ("type", VStr(if layer.isVector then "vector" else "raster"))])
  }

  /** The provenance after recording a layer under layerType. */
  function RecordProvenance(p: map<string, Value>, layer: LayerInfo, layerType: string): (r: map<string, Value>)
  {
    var q := p[layerType := ProvenanceEntry(layer)];
    if "attribution" in layer.keywords then q["attribution" := layer.keywords["attribution"]] else q
  }

  /** The layer is recorded with its path, name and type ('vector' iff it is
      a vector layer); attribution is copied only when the layer has one;
      any other entry is kept. */
  lemma RecordProvenanceFields(p: map<string, Value>, layer: LayerInfo, layerType: string)
    requires layerType != "attribution"
    ensures var r := RecordProvenance(p, layer, layerType);
      layerType in r &&
      DictGet(r[layerType], "path") == Ok(layer.filename) &&
      DictGet(r[layerType], "name") == Ok(layer.name) &&
      (DictGet(r[layerType], "type") == Ok(VStr("vector")) <==> layer.isVector) &&
      ("attribution" in layer.keywords ==> r["attribution"] == layer.keywords["attribution"]) &&
      ("attribution" !in layer.keywords ==> ("attribution" in r <==> "attribution" in p)) &&
      (forall k :: k in p && k != layerType && k != "attribution" ==> k in r && r[k] == p[k]) &&
      (forall k :: k in r ==> k in p || k == layerType || k == "attribution")
  {
    var e := ProvenanceEntry(layer);
    assert e.entries[0].0 == "path" && e.entries[1].0 == "name" && e.entries[2].0 == "type";
  }

  /** Where an attribute name is found on a Keywords object. */
  datatype Owner = OwnAttribute | PrimaryLayer

  const KeywordsMembers: set<string> := {
    "version", "publisher", "attribution", "provenance", "metrics",
    "primary_layer", "secondary_layer", "serialize", "json_dump",
    "get_version", "set_provenance_layer"}

  const ImpactLayerMembers: set<string> := {
    "version", "title", "function_details", "impact_assessment",
    "minimum_needs", "post_processing", "impact_breakdown", "layer_type",
    "get_version", "serialize", "set_impact_assesment", "set_minimum_needs",
    "set_function_details", "set_title", "set_impact_breakdown"}

  /** A keywords file's content, with an impact primary layer. */
  class Keywords {
    var version: int
    var publisher: Value
    var attribution: Value
    var provenance: map<string, Value>
    var metrics: Value
    var primaryLayer: KeywordsLayerImpact?
    var secondaryLayer: KeywordsLayerImpact?

    /** ImpactKeywords(): empty keywords whose primary layer is a new, empty
        impact layer. */
    constructor ImpactKeywords()
      ensures version == 1 && publisher == VNone && attribution == VNone && metrics == VNone
      ensures provenance == map[] && secondaryLayer == null
      ensures primaryLayer != null && fresh(primaryLayer)
      ensures primaryLayer.version == 1 && primaryLayer.layerType == "impact"
      ensures primaryLayer.title == VNone && primaryLayer.functionDetails == VNone
      ensures primaryLayer.impactAssessment == VNone && primaryLayer.minimumNeeds == VNone
      ensures primaryLayer.postProcessing == VNone && primaryLayer.impactBreakdown == null
    {
      version := 1;
      publisher := VNone;
      attribution := VNone;
      provenance := map[];
      metrics := VNone;
      secondaryLayer := null;
      primaryLayer := new KeywordsLayerImpact(map[], 1);
    }

    method SetProvenanceLayer(layer: LayerInfo, layerType: string)
      modifies this
      ensures provenance == RecordProvenance(old(provenance), layer, layerType)
      ensures version == old(version) && publisher == old(publisher) && attribution == old(attribution)
      ensures metrics == old(metrics) && primaryLayer == old(primaryLayer) && secondaryLayer == old(secondaryLayer)
    {
      provenance := provenance[layerType := ProvenanceEntry(layer)];
      if "attribution" in layer.keywords {
        provenance := provenance["attribution" := layer.keywords["attribution"]];
      }
    }

    /** Attribute lookup: a Keywords member first, then the primary layer's
        member, otherwise AttributeError. */
    function Attribute(name: string): (r: Result<Owner>)
      reads this
      ensures r == Ok(OwnAttribute) <==> name in KeywordsMembers
      ensures r == Ok(PrimaryLayer) <==> name !in KeywordsMembers && primaryLayer != null && name in ImpactLayerMembers
      ensures r.Err? <==> name !in KeywordsMembers && (primaryLayer == null || name !in ImpactLayerMembers)
      ensures r.Err? ==> r.error == AttributeError
    {
      if name in KeywordsMembers then Ok(OwnAttribute)
      else if primaryLayer != null && name in ImpactLayerMembers then Ok(PrimaryLayer)
      else Err(AttributeError)
    }
  }
}
