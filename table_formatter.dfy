/** The result tables built from impact keywords: the breakdown laid out as
    rows, building types regrouped into 'other', the action checklists and
    notes, and the choice of formatter by exposure and hazard.

    Tables are kept symbolic: a cell records what is shown (a translated
    text, a value shown as is, a value passed through format_int, or a
    template filled with cells), and the question heading is recorded with
    its three arguments. Phrases are shown in English; the earthquake table
    reads breakdown cells under labels its caller gives. */
module TableFormatter {
  import opened Common
  import opened Keywords

  datatype Cell =
    | Text(s: string)                      // a text taken from the data
    | Say(p: Phrase)                       // one of the tables' fixed texts
    | Item(v: Value)                       // a value shown as it is
    | Int(v: Value)                        // format_int(v)
    | Fill(template: Phrase, args: seq<Cell>)   // template % args

  /** The fixed (translatable) texts and templates of the tables. */
  datatype Phrase =
    | ActionChecklist | WarningsDisseminated | ReachStranded | EnoughReliefItems
    | WhereLocated | ObtainReliefToHere | ObtainRelief
    | HighHazardDefined | MediumHazardDefined | LowHazardDefined
    | VictimIdentification | SheltersAvailable
    | Notes | TotalPopulationNote | DisplacedDefinition | NeedsRegulation
    | FatalityAssumption | RoundedUp | FatalityModelSource | RoundedToThousand
    | DisplacedMap | NeedsPerWeek | Total | WithUnit | AsText | Starred
    | Star | NoStar
    | BuildingType | NumberFlooded | AllTypes | BreakdownByType
    | FacilitiesOpen | WarningCapacity | EvacuationCentres | OperationsCentre | Warehouses
    | ClosedSchools | ClosedHospitals | FloodedAboveDepth | FloodedInMarkedRegions
    | PeopleNeedingEvacuation | FloodProneMap | RiceKg | DrinkingWaterL | CleanWaterL
    | FamilyKits | Toilets | FloodProneEvacuation

  /** The English text of each phrase (translation is the identity). */
  function PhraseText(p: Phrase): string
  {
    match p
    case ActionChecklist => "Action Checklist:"
    case WarningsDisseminated => "How will warnings be disseminated?"
    case ReachStranded => "How will we reach stranded people?"
    case EnoughReliefItems => "Do we have enough relief items?"
    case WhereLocated => "If yes, where are they located and how will we distribute them?"
    case ObtainReliefToHere =>
      "If no, where can we obtain additional relief items from and how will we transport them to here?"
    case ObtainRelief => "If no, where can we obtain additional relief items from and how will we transport them?"
    case HighHazardDefined => "High hazard is defined as shake levels greater than %i on the MMI scale."
    case MediumHazardDefined => "Medium hazard is defined as shake levels between %i and %i on the MMI scale."
    case LowHazardDefined => "Low hazard is defined as shake levels between %i and %i on the MMI scale."
    case VictimIdentification => "Are there enough victim identification units available for %s people?"
    case SheltersAvailable => "Are there enough shelters and relief items available for %s people?"
    case Notes => "Notes"
    case TotalPopulationNote => "Total population: %s"
    case DisplacedDefinition =>
      "People are considered to be displaced if they experience and survive a shake level of more than 5 on the MMI scale "
    case NeedsRegulation => "Minimum needs are defined in BNPB regulation 7/2008"
    case FatalityAssumption =>
      "The fatality calculation assumes that no fatalities occur for shake levels below 4 and fatality counts of less than 50 are disregarded."
    case RoundedUp =>
      "All values are rounded up to the nearest integer in order to avoid representing human lives as fractions."
    case FatalityModelSource => "Fatality model is from Institute of Teknologi Bandung 2012."
    case RoundedToThousand => "Population numbers rounded to nearest 1000."
    case DisplacedMap => "Map shows density estimate of displaced population"
    case NeedsPerWeek => "Needs per week"
    case Total => "Total"
    case WithUnit => "%s [%s]"
    case AsText => "%s"
    case Starred => "%s%s"
    case Star => "*"
    case NoStar => ""
    case BuildingType => "Building type"
    case NumberFlooded => "Number flooded"
    case AllTypes => "All"
    case BreakdownByType => "Breakdown by building type"
    case FacilitiesOpen => "Are the critical facilities still open?"
    case WarningCapacity => "Which structures have warning capacity (eg. sirens, speakers, etc.)?"
    case EvacuationCentres => "Which buildings will be evacuation centres?"
    case OperationsCentre => "Where will we locate the operations centre?"
    case Warehouses => "Where will we locate warehouse and/or distribution centres?"
    case ClosedSchools => "Where will the students from the %s closed schools go to study?"
    case ClosedHospitals =>
      "Where will the patients from the %s closed hospitals go for treatment and how will we transport them?"
    case FloodedAboveDepth => "Buildings are said to be flooded when flood levels exceed %.1f m"
    case FloodedInMarkedRegions => "Buildings are said to be flooded when in regions marked as affected"
    case PeopleNeedingEvacuation => "People needing evacuation"
    case FloodProneMap => "Map shows population affected in each flood prone area "
    case RiceKg => "Rice [kg]"
    case DrinkingWaterL => "Drinking Water [l]"
    case CleanWaterL => "Clean Water [l]"
    case FamilyKits => "Family Kits"
    case Toilets => "Toilets"
    case FloodProneEvacuation => "People need evacuation if in area identified as \"Flood Prone\""
  }

  datatype Entry =
    | Row(cells: seq<Cell>, header: bool)  // a TableRow of cells, or a plain list of cells
    | Line(c: Cell)                        // a single text appended to the table
    | Question(impactName: Value, exposureName: Value, title: Value)  // get_question(...)

  /** The formatter classes: the base class has no analysis_table. */
  datatype Formatter = BaseFormatter | BuildingTable | PopulationEarthquakeTable

  /** A breakdown value in a table cell: ints (not bools, not floats) go
      through format_int, anything else is shown as it is. */
  function Shown(v: Value): (c: Cell)
    ensures c.Int? <==> v.VInt?
    ensures c.Int? || c.Item?
    ensures c.v == v
  {
    if v.VInt? then Int(v) else Item(v)
  }

  function Texts(s: seq<string>): (r: seq<Cell>)
    ensures |r| == |s| && forall i :: 0 <= i < |s| ==> r[i] == Text(s[i])
  {
    seq(|s|, i requires 0 <= i < |s| => Text(s[i]))
  }

  /** `category_label or ''`. */
  function HeadingLabel(categoryLabel: Value): (r: Value)
    ensures Truthy(categoryLabel) ==> r == categoryLabel
    ensures !Truthy(categoryLabel) ==> r == VStr("")
  {
    if Truthy(categoryLabel) then categoryLabel else VStr("")
  }

  /** A category's row: the category, then one shown cell per attribute
      of the breakdown, in attribute order. */
  ghost predicate IsCategoryRow(b: ImpactBreakdown, c: string, row: seq<Cell>)
    requires b.Valid()
    reads b
  {
    |row| == |b.attributes| + 1 && row[0] == Text(c) &&
    forall j :: 0 <= j < |b.attributes| ==>
      b.Get(c, b.attributes[j]).Ok? && row[j + 1] == Shown(b.Get(c, b.attributes[j]).value)
  }

  method CategoryRow(b: ImpactBreakdown, c: string) returns (row: seq<Cell>)
    requires b.Valid() && c in b.categories
    ensures IsCategoryRow(b, c, row)
  {
    row := [Text(c)];
    var j := 0;
    while j < |b.attributes|
      invariant 0 <= j <= |b.attributes|
      invariant |row| == j + 1 && row[0] == Text(c)
      invariant forall j' :: 0 <= j' < j ==>
        b.Get(c, b.attributes[j']).Ok? && row[j' + 1] == Shown(b.Get(c, b.attributes[j']).value)
    {
      var v := b.Get(c, b.attributes[j]);
      row := row + [Shown(v.value)];
      j := j + 1;
    }
  }

  /** A category's entry: a non-header row holding its row. */
  ghost predicate IsCategoryEntry(b: ImpactBreakdown, c: string, e: Entry)
    requires b.Valid()
    reads b
  {
    e.Row? && !e.header && IsCategoryRow(b, c, e.cells)
  }

  /** The breakdown as rows: a header row of the category label (or '') and
      the attributes, then one non-header row per category, in order. */
  method TableBody(b: ImpactBreakdown) returns (t: seq<Entry>)
    requires b.Valid()
    ensures |t| == |b.categories| + 1
    ensures t[0] == Row([Item(HeadingLabel(b.categoryLabel))] + Texts(b.attributes), true)
    ensures forall k :: 0 <= k < |b.categories| ==> IsCategoryEntry(b, b.categories[k], t[k + 1])
    ensures t == BodyOf(b)
  {
    var rows: seq<Entry> := [];
    var k := 0;
    while k < |b.categories|
      invariant 0 <= k <= |b.categories|
      invariant |rows| == k
      invariant forall k' :: 0 <= k' < k ==> IsCategoryEntry(b, b.categories[k'], rows[k'])
    {
      var row := CategoryRow(b, b.categories[k]);
      EntriesSnoc(b, rows, Row(row, false));
      rows := rows + [Row(row, false)];
      k := k + 1;
    }
    var header := Row([Item(HeadingLabel(b.categoryLabel))] + Texts(b.attributes), true);
    t := [header] + rows;
    EntriesAfterHeader(b, header, rows);
    BodyIs(b, t);
  }

  /** The cells of category c's row: the category, then its shown value
      for each attribute in order. */
  function CategoryCells(data: Table, c: string, attributes: seq<string>): seq<Cell>
    requires forall a :: a in attributes ==> CellGet(data, c, a).Ok?
  {
    [Text(c)] + seq(|attributes|, j requires 0 <= j < |attributes| => Shown(CellGet(data, c, attributes[j]).value))
  }

  /** _table_body as a value: the header row, then one row per category. */
  ghost function BodyOf(b: ImpactBreakdown): (t: seq<Entry>)
    requires b.Valid()
    reads b
    ensures |t| == |b.categories| + 1
  {
    var cats, attrs, data := b.categories, b.attributes, b.data;
    assert forall c, a :: c in cats && a in attrs ==> b.Get(c, a).Ok?;
    [Row([Item(HeadingLabel(b.categoryLabel))] + Texts(attrs), true)] +
    seq(|cats|, k requires 0 <= k < |cats| => Row(CategoryCells(data, cats[k], attrs), false))
  }

  /** Rows that are the header and each category's entry in order are the
      body. */
  lemma BodyIs(b: ImpactBreakdown, t: seq<Entry>)
    requires b.Valid() && |t| == |b.categories| + 1
    requires t[0] == Row([Item(HeadingLabel(b.categoryLabel))] + Texts(b.attributes), true)
    requires forall k :: 0 <= k < |b.categories| ==> IsCategoryEntry(b, b.categories[k], t[k + 1])
    ensures t == BodyOf(b)
  {
    var body := BodyOf(b);
    forall i | 1 <= i < |t|
      ensures t[i] == body[i]
    {
      EntryIsRow(b, b.categories[i - 1], t[i]);
    }
  }

  /** A category's entry is the row of its cells. */
  lemma EntryIsRow(b: ImpactBreakdown, c: string, e: Entry)
    requires b.Valid() && c in b.categories && IsCategoryEntry(b, c, e)
    ensures forall a :: a in b.attributes ==> CellGet(b.data, c, a).Ok?
    ensures e == Row(CategoryCells(b.data, c, b.attributes), false)
  {
    forall a | a in b.attributes
      ensures CellGet(b.data, c, a).Ok?
    {
      assert b.Get(c, a).Ok?;
    }
    var cells := CategoryCells(b.data, c, b.attributes);
    forall i | 0 <= i < |cells|
      ensures e.cells[i] == cells[i]
    {
      if i > 0 {
        assert e.cells[i] == Shown(b.Get(c, b.attributes[i - 1]).value);
      }
    }
    assert e.cells == cells;
  }

  /** One more category's entry extends the entries of the categories
      before it. */
  lemma EntriesSnoc(b: ImpactBreakdown, rows: seq<Entry>, e: Entry)
    requires b.Valid() && |rows| < |b.categories|
    requires forall k :: 0 <= k < |rows| ==> IsCategoryEntry(b, b.categories[k], rows[k])
    requires e.Row? && !e.header && IsCategoryRow(b, b.categories[|rows|], e.cells)
    ensures forall k :: 0 <= k < |rows| + 1 ==> IsCategoryEntry(b, b.categories[k], (rows + [e])[k])
  {
    forall k | 0 <= k < |rows| + 1
      ensures IsCategoryEntry(b, b.categories[k], (rows + [e])[k])
    {
      if k < |rows| {
        assert (rows + [e])[k] == rows[k];
      }
    }
  }

  /** Putting the header first shifts every category's entry by one. */
  lemma EntriesAfterHeader(b: ImpactBreakdown, header: Entry, rows: seq<Entry>)
    requires b.Valid() && |rows| == |b.categories|
    requires forall k :: 0 <= k < |rows| ==> IsCategoryEntry(b, b.categories[k], rows[k])
    ensures ([header] + rows)[0] == header
    ensures forall k :: 0 <= k < |b.categories| ==> IsCategoryEntry(b, b.categories[k], ([header] + rows)[k + 1])
  {
    forall k | 0 <= k < |b.categories|
      ensures IsCategoryEntry(b, b.categories[k], ([header] + rows)[k + 1])
    {
      assert ([header] + rows)[k + 1] == rows[k];
    }
  }

  // -----------------------------------------------------------------------
  // Regrouping building types

  /** A building type's totals. */
  datatype Counts = Counts(total: int, affected: int)

  function Plus(a: Counts, b: Counts): Counts
  {
    Counts(a.total + b.total, a.affected + b.affected)
  }

  /** Which types a sum takes: those with fewer than minGroup affected
      buildings, the others, or all. */
  datatype Pick = Small | Large | All

  predicate Picked(p: Pick, c: Counts, minGroup: int)
  {
    match p
    case Small => c.affected < minGroup
    case Large => c.affected >= minGroup
    case All => true
  }

  /** The sum of the counts of the picked types listed in order. */
  function SumOf(order: seq<string>, m: map<string, Counts>, p: Pick, minGroup: int): Counts
    requires forall k :: k in order ==> k in m
  {
    if order == [] then Counts(0, 0)
    else
      var last := order[|order| - 1];
      var rest := SumOf(order[..|order| - 1], m, p, minGroup);
      if Picked(p, m[last], minGroup) then Plus(rest, m[last]) else rest
  }

  predicate Distinct(s: seq<string>)
  {
    forall i, j :: 0 <= i < j < |s| ==> s[i] != s[j]
  }

  predicate AnySmall(order: seq<string>, m: map<string, Counts>, minGroup: int)
    requires forall k :: k in order ==> k in m
  {
    exists i :: 0 <= i < |order| && m[order[i]].affected < minGroup
  }

  /** The regrouped totals after visiting the types in order: a small type
      starts or grows 'other', a large type is copied under its own name. */
  function Regrouped(m: map<string, Counts>, order: seq<string>, minGroup: int): map<string, Counts>
    requires forall k :: k in order ==> k in m
  {
    if order == [] then map[]
    else
      var t := order[|order| - 1];
      RegroupOne(Regrouped(m, order[..|order| - 1], minGroup), t, m[t], minGroup)
  }

  /** One type visited: a small one starts or grows 'other', a large one is
      copied under its own name. */
  function RegroupOne(r: map<string, Counts>, t: string, c: Counts, minGroup: int): map<string, Counts>
  {
    if c.affected < minGroup then
      if "other" !in r then r["other" := c] else r["other" := Plus(r["other"], c)]
    else r[t := c]
  }

  /** Visiting one more type regroups it into the totals so far. */
  lemma RegroupedSnoc(m: map<string, Counts>, order: seq<string>, i: nat, minGroup: int)
    requires (forall k :: k in order ==> k in m) && i < |order|
    ensures forall k :: k in order[..i + 1] ==> k in m
    ensures forall k :: k in order[..i] ==> k in m
    ensures Regrouped(m, order[..i + 1], minGroup) ==
      RegroupOne(Regrouped(m, order[..i], minGroup), order[i], m[order[i]], minGroup)
  {
    assert order[..i + 1][..i] == order[..i];
  }

  /** _get_reduced_totals over the dictionary's keys enumerated in `order`. */
  method ReducedTotals(m: map<string, Counts>, order: seq<string>, minGroup: int)
    returns (r: map<string, Counts>)
    requires Distinct(order) && forall k :: k in m <==> k in order
    ensures r == Regrouped(m, order, minGroup)
  {
    r := map[];
    var i := 0;
    while i < |order|
      invariant 0 <= i <= |order|
      invariant r == Regrouped(m, order[..i], minGroup)
    {
      var t := order[i];
      var d := m[t];
      RegroupedSnoc(m, order, i, minGroup);
      r := RegroupType(r, t, d, minGroup);
      i := i + 1;
    }
    assert order[..|order|] == order;
  }

  /** The loop body of _get_reduced_totals for one type. */
  method RegroupType(r: map<string, Counts>, t: string, d: Counts, minGroup: int) returns (r': map<string, Counts>)
    ensures r' == RegroupOne(r, t, d, minGroup)
  {
    r' := r;
    if d.affected < minGroup {
      if "other" !in r' {
        r' := r'["other" := Counts(d.total, d.affected)];
      } else {
        r' := r'["other" := Counts(r'["other"].total + d.total, r'["other"].affected + d.affected)];
      }
    } else {
      r' := r'[t := d];
    }
  }

  /** With no input type named 'other', every type with at least minGroup
      affected buildings is kept unchanged, and nothing but those and
      'other' appears. */
  lemma {:induction false} RegroupedKeepsLarge(m: map<string, Counts>, order: seq<string>, minGroup: int)
    requires "other" !in m && forall k :: k in order ==> k in m
    ensures var r := Regrouped(m, order, minGroup);
      (forall k :: k in order && m[k].affected >= minGroup ==> k in r && r[k] == m[k]) &&
      (forall k :: k in r ==> k == "other" || (k in order && m[k].affected >= minGroup))
  {
    if order != [] {
      var pre := order[..|order| - 1];
      assert forall k :: k in pre ==> k in order;
      RegroupedKeepsLarge(m, pre, minGroup);
      assert forall k :: k in order ==> k in pre || k == order[|order| - 1];
    }
  }

  /** With no input type named 'other', 'other' appears exactly when some
      type has fewer than minGroup affected buildings, and then holds the
      sum of all such types. */
  lemma {:induction false} RegroupedOther(m: map<string, Counts>, order: seq<string>, minGroup: int)
    requires "other" !in m && forall k :: k in order ==> k in m
    ensures var r := Regrouped(m, order, minGroup);
      ("other" in r <==> AnySmall(order, m, minGroup)) &&
      ("other" in r ==> r["other"] == SumOf(order, m, Small, minGroup)) &&
      ("other" !in r ==> SumOf(order, m, Small, minGroup) == Counts(0, 0))
  {
    if order != [] {
      var pre := order[..|order| - 1];
      var t := order[|order| - 1];
      assert forall k :: k in pre ==> k in order;
      RegroupedOther(m, pre, minGroup);
      assert t != "other";
      if m[t].affected < minGroup {
        assert AnySmall(order, m, minGroup) by {
          assert m[order[|order| - 1]].affected < minGroup;
        }
      } else {
        assert AnySmall(order, m, minGroup) <==> AnySmall(pre, m, minGroup) by {
          if AnySmall(order, m, minGroup) {
            var i :| 0 <= i < |order| && m[order[i]].affected < minGroup;
            assert i < |pre| && pre[i] == order[i];
          }
          if AnySmall(pre, m, minGroup) {
            var i :| 0 <= i < |pre| && m[pre[i]].affected < minGroup;
            assert pre[i] == order[i];
          }
        }
      }
    }
  }

  /** The large types, in order. */
  function FilterLarge(order: seq<string>, m: map<string, Counts>, minGroup: int): (r: seq<string>)
    requires forall k :: k in order ==> k in m
    ensures forall k :: k in r <==> k in order && m[k].affected >= minGroup
  {
    if order == [] then []
    else
      var last := order[|order| - 1];
      FilterLarge(order[..|order| - 1], m, minGroup) + (if m[last].affected >= minGroup then [last] else [])
  }

  /** Every type's counts split into the small and the large ones. */
  lemma {:induction false} SmallPlusLarge(order: seq<string>, m: map<string, Counts>, minGroup: int)
    requires forall k :: k in order ==> k in m
    ensures SumOf(order, m, All, minGroup) ==
      Plus(SumOf(order, m, Large, minGroup), SumOf(order, m, Small, minGroup))
  {
    if order != [] {
      SmallPlusLarge(order[..|order| - 1], m, minGroup);
    }
  }

  lemma {:induction false} LargeSumAgrees(order: seq<string>, m: map<string, Counts>, minGroup: int, r: map<string, Counts>)
    requires forall k :: k in order ==> k in m
    requires forall k :: k in order && m[k].affected >= minGroup ==> k in r && r[k] == m[k]
    ensures forall k :: k in FilterLarge(order, m, minGroup) ==> k in r
    ensures SumOf(FilterLarge(order, m, minGroup), r, All, minGroup) == SumOf(order, m, Large, minGroup)
  {
    if order != [] {
      var last := order[|order| - 1];
      var pre := order[..|order| - 1];
      assert forall k :: k in pre ==> k in order;
      LargeSumAgrees(pre, m, minGroup, r);
      var fl := FilterLarge(order, m, minGroup);
      if m[last].affected >= minGroup {
        assert fl[..|fl| - 1] == FilterLarge(pre, m, minGroup);
        assert fl[|fl| - 1] == last;
      } else {
        assert fl == FilterLarge(pre, m, minGroup);
      }
    }
  }

  /** Regrouping keeps the grand totals (of buildings and of affected
      buildings) when no input type is named 'other': the kept types, in
      input order, plus 'other' add up to the sum over all input types. */
  lemma RegroupedKeepsSums(m: map<string, Counts>, order: seq<string>, minGroup: int)
    requires "other" !in m && forall k :: k in order ==> k in m
    ensures var r := Regrouped(m, order, minGroup);
      (forall k :: k in FilterLarge(order, m, minGroup) ==> k in r) &&
      SumOf(order, m, All, minGroup) ==
        Plus(SumOf(FilterLarge(order, m, minGroup), r, All, minGroup),
             if "other" in r then r["other"] else Counts(0, 0))
  {
    var r := Regrouped(m, order, minGroup);
    RegroupedKeepsLarge(m, order, minGroup);
    RegroupedOther(m, order, minGroup);
    SmallPlusLarge(order, m, minGroup);
    LargeSumAgrees(order, m, minGroup, r);
  }

  /** An input type literally named 'other' with enough affected buildings
      is not copied unchanged: a small type visited after it is added into
      it. */
  lemma RegroupedWithOtherInput()
    ensures Regrouped(map["other" := Counts(30, 30), "shed" := Counts(2, 2)], ["other", "shed"], 25)["other"]
      == Counts(32, 32)
  {
    var m := map["other" := Counts(30, 30), "shed" := Counts(2, 2)];
    assert ["other", "shed"][..1] == ["other"];
    assert ["other"][..0] == [];
  }

  // -----------------------------------------------------------------------
  // Rows of the analysis tables

  /** TableRow([name, format_int(int(value)) + ('*' if value >= 1000)]):
      a star marks values of a thousand or more; int() of NaN fails. */
  function FormatThousands(name: string, value: Num, header: bool): (r: Result<Entry>)
    ensures r.Err? <==> value.NaN?
    ensures r.Ok? ==> r.value.Row? && r.value.header == header && |r.value.cells| == 2
    ensures r.Ok? ==> r.value.cells[0] == Text(name) && r.value.cells[1].Fill?
    ensures r.Ok? ==> r.value.cells[1].args == [Int(VInt(TruncInt(value.r))), Say(if value.r >= 1000.0 then Star else NoStar)]
  {
    if value.NaN? then Err(ValueError)
    else Ok(Row([Text(name), Fill(Starred, [Int(VInt(TruncInt(value.r))),
                                            Say(if value.r >= 1000.0 then Star else NoStar)])], header))
  }

  /** The star appears exactly for values of at least 1000, and the number
      shown beside it is then at least 1000 too. */
  lemma FormatThousandsStar(name: string, value: real, header: bool)
    ensures FormatThousands(name, Fin(value), header).Ok?
    ensures var cell := FormatThousands(name, Fin(value), header).value.cells[1];
      (cell.args[1] == Say(Star) <==> value >= 1000.0) &&
      (value >= 1000.0 ==> cell.args[0].v.i >= 1000) &&
      (value < 1000.0 ==> cell.args[0].v.i < 1000)
  {
  }

  function Says(p: Phrase, header: bool): Entry
  {
    Row([Say(p)], header)
  }

  const InundationChecklist: seq<Entry> := [
    Says(ActionChecklist, true), Says(WarningsDisseminated, false), Says(ReachStranded, false),
    Says(EnoughReliefItems, false), Says(WhereLocated, false), Says(ObtainReliefToHere, false)]

  /** _add_action_checklist: six rows, headed 'Action Checklist:', for
      hazard 'population' and impact 'inundation'; nothing otherwise. */
  method AddActionChecklist(body: seq<Entry>, impact: string, hazard: string) returns (t: seq<Entry>)
    ensures hazard == "population" && impact == "inundation" ==> t == body + InundationChecklist
    ensures !(hazard == "population" && impact == "inundation") ==> t == body
    ensures |t| == |body| + (if hazard == "population" && impact == "inundation" then 6 else 0)
  {
    t := body;
    if hazard == "population" && impact == "inundation" {
      t := t + [Says(ActionChecklist, true)];
      t := t + [Says(WarningsDisseminated, false)];
      t := t + [Says(ReachStranded, false)];
      t := t + [Says(EnoughReliefItems, false)];
      t := t + [Says(WhereLocated, false)];
      t := t + [Says(ObtainReliefToHere, false)];
    }
  }

  /** '%i' % v: ints and bools as integers, floats truncated, NaN a
      ValueError, anything else a TypeError. */
  function PercentI(v: Value): (r: Result<int>)
    ensures v.VInt? ==> r == Ok(v.i)
    ensures v.VFloat? && v.f.Fin? ==> r == Ok(TruncInt(v.f.r))
    ensures r.Err? ==> r.error == TypeError || (r.error == ValueError && v == VFloat(NaN))
  {
    match v
    case VInt(i) => Ok(i)
    case VBool(b) => Ok(if b then 1 else 0)
    case VFloat(f) => if f.NaN? then Err(ValueError) else Ok(TruncInt(f.r))
    case _ => Err(TypeError)
  }

  /** The low, medium and high thresholds of function_details['parameters'],
      as '%i' shows them. */
  function ChecklistThresholds(functionDetails: Value): (r: Result<(int, int, int)>)
    ensures DictGet(functionDetails, "parameters").Err? ==> r.Err?
  {
    var parameters :- DictGet(functionDetails, "parameters");
    var t0 :- DictGet(parameters, "low_threshold");
    var t1 :- DictGet(parameters, "medium_threshold");
    var t2 :- DictGet(parameters, "high_threshold");
    var i2 :- PercentI(t2);
    var i1 :- PercentI(t1);
    var i0 :- PercentI(t0);
    Ok((i0, i1, i2))
  }

  function Number(i: int): Cell
  {
    Text(IntToString(i))
  }

  /** The building checklist: three lines defining high, medium and low
      hazard by the thresholds, highest first. */
  function BuildingChecklist(functionDetails: Value): (r: Result<seq<Entry>>)
    ensures r.Ok? <==> ChecklistThresholds(functionDetails).Ok?
    ensures r.Ok? ==>
      var (t0, t1, t2) := ChecklistThresholds(functionDetails).value;
      r.value == [Line(Fill(HighHazardDefined, [Number(t2)])),
                  Line(Fill(MediumHazardDefined, [Number(t1), Number(t2)])),
                  Line(Fill(LowHazardDefined, [Number(t0), Number(t1)]))]
  {
    var (t0, t1, t2) :- ChecklistThresholds(functionDetails);
    Ok([Line(Fill(HighHazardDefined, [Number(t2)])),
        Line(Fill(MediumHazardDefined, [Number(t1), Number(t2)])),
        Line(Fill(LowHazardDefined, [Number(t0), Number(t1)]))])
  }

  /** With the default thresholds 6, 7 and 8 the checklist names 8, then 7
      and 8, then 6 and 7. */
  lemma DefaultBuildingChecklist()
    ensures var parameters := VDict([("low_threshold", VInt(6)), ("medium_threshold", VInt(7)),
                                     ("high_threshold", VInt(8))]);
      BuildingChecklist(VDict([("parameters", parameters)])) ==
        Ok([Line(Fill(HighHazardDefined, [Text("8")])),
            Line(Fill(MediumHazardDefined, [Text("7"), Text("8")])),
            Line(Fill(LowHazardDefined, [Text("6"), Text("7")]))])
  {
    var parameters := VDict([("low_threshold", VInt(6)), ("medium_threshold", VInt(7)),
                             ("high_threshold", VInt(8))]);
    var d := VDict([("parameters", parameters)]);
    assert DictGet(d, "parameters") == Ok(parameters);
    assert DictGet(parameters, "low_threshold") == Ok(VInt(6));
    assert DictGet(parameters, "medium_threshold") == Ok(VInt(7));
    assert DictGet(parameters, "high_threshold") == Ok(VInt(8));
    assert ChecklistThresholds(d) == Ok((6, 7, 8));
  }

  /** The earthquake checklist for fatalities f and displaced d: always the
      header; the fatalities line only for truthy f; the three displaced
      lines only for truthy d. */
  function ChecklistLines(f: Value, d: Value): (r: seq<Entry>)
    ensures |r| == 1 + (if Truthy(f) then 1 else 0) + (if Truthy(d) then 3 else 0)
    ensures r[0] == Says(ActionChecklist, true)
    ensures Line(Fill(VictimIdentification, [Int(f)])) in r <==> Truthy(f)
    ensures Line(Fill(SheltersAvailable, [Int(d)])) in r <==> Truthy(d)
  {
    [Says(ActionChecklist, true)] +
    (if Truthy(f) then [Line(Fill(VictimIdentification, [Int(f)]))] else []) +
    (if Truthy(d) then [Line(Fill(SheltersAvailable, [Int(d)])), Says(WhereLocated, false), Says(ObtainRelief, false)] else [])
  }

  /** The breakdown cells the earthquake table reads: tr() of 'Fatalities',
      'People displaced', 'Total population' and 'population', the same
      translated texts the fatality function writes them under. */
  datatype EarthquakeLabels = EarthquakeLabels(fatalities: string, displaced: string, total: string, population: string)

  const EnglishEarthquake := EarthquakeLabels("Fatalities", "People displaced", "Total population", "population")

  /** The earthquake checklist of a breakdown: its fatalities and displaced
      cells under the labels l, which must be there. */
  method EarthquakeChecklist(b: ImpactBreakdown, l: EarthquakeLabels) returns (r: Result<seq<Entry>>)
    requires b.Valid()
    ensures r.Err? <==> b.Get(l.fatalities, l.population).Err? || b.Get(l.displaced, l.population).Err?
    ensures r.Err? ==> r.error == KeyError
    ensures r.Ok? ==>
      r.value == ChecklistLines(b.Get(l.fatalities, l.population).value, b.Get(l.displaced, l.population).value)
  {
    var fatalities := b.Get(l.fatalities, l.population);
    if fatalities.Err? {
      return Err(fatalities.error);
    }
    var displaced := b.Get(l.displaced, l.population);
    if displaced.Err? {
      return Err(displaced.error);
    }
    var f := fatalities.value;
    var d := displaced.value;
    var table := [Says(ActionChecklist, true)];
    if Truthy(f) {
      table := table + [Line(Fill(VictimIdentification, [Int(f)]))];
    }
    if Truthy(d) {
      table := table + [Line(Fill(SheltersAvailable, [Int(d)]))];
      table := table + [Says(WhereLocated, false)];
      table := table + [Says(ObtainRelief, false)];
    }
    r := Ok(table);
  }

  /** The notes of the earthquake table, the total population first. */
  function EarthquakeNotes(total: Value): (r: seq<Entry>)
    ensures |r| == 9 && r[0] == Says(Notes, true)
    ensures r[1] == Line(Fill(TotalPopulationNote, [Int(total)]))
  {
    [Says(Notes, true),
     Line(Fill(TotalPopulationNote, [Int(total)])),
     Line(Say(DisplacedDefinition)),
     Line(Say(NeedsRegulation)),
     Line(Say(FatalityAssumption)),
     Line(Say(RoundedUp)),
     Says(Notes, true),
     Line(Say(FatalityModelSource)),
     Line(Say(RoundedToThousand))]
  }

  /** One needs row: '<type> [<unit>]' or '<type>', then the quantity
      through format_int. */
  function NeedRow(resource: Value, withUnit: bool): (r: Result<Entry>)
    ensures r.Ok? ==> r.value.Row? && |r.value.cells| == 2 && !r.value.header
    ensures r.Ok? <==> DictGet(resource, "type").Ok? && DictGet(resource, "quantity").Ok? &&
                       (withUnit ==> DictGet(resource, "unit_abbreviation").Ok?)
    ensures r.Ok? ==> r.value.cells[1] == Int(DictGet(resource, "quantity").value)
  {
    var kind :- DictGet(resource, "type");
    var name :- if withUnit then
                  (var unit :- DictGet(resource, "unit_abbreviation");
                   Ok(Fill(WithUnit, [Item(kind), Item(unit)])))
                else Ok(Fill(AsText, [Item(kind)]));
    var quantity :- DictGet(resource, "quantity");
    Ok(Row([name, Int(quantity)], false))
  }

  /** d[k] for each key in turn, failing at the first missing one. */
  function Lookups(d: Value, keys: seq<string>): (r: Result<seq<Value>>)
    ensures r.Ok? ==> |r.value| == |keys|
    ensures r.Ok? ==> forall i :: 0 <= i < |keys| ==> DictGet(d, keys[i]) == Ok(r.value[i])
    ensures keys != [] && DictGet(d, keys[0]).Err? ==> r.Err?
  {
    if keys == [] then Ok([])
    else
      var v :- DictGet(d, keys[0]);
      var rest :- Lookups(d, keys[1..]);
      Ok([v] + rest)
  }

  /** The needs rows: the first `withUnit` resources are shown with their
      unit. */
  function NeedRows(resources: seq<Value>, withUnit: nat): (r: Result<seq<Entry>>)
    ensures r.Ok? ==> |r.value| == |resources|
    ensures r.Ok? ==> forall i :: 0 <= i < |resources| ==>
      NeedRow(resources[i], i < withUnit) == Ok(r.value[i])
  {
    if resources == [] then Ok([])
    else
      var row :- NeedRow(resources[0], withUnit > 0);
      var rest :- NeedRows(resources[1..], if withUnit > 0 then withUnit - 1 else 0);
      Ok([row] + rest)
  }

  const NeedKeys: seq<string> := ["food", "drinking_water", "clean_water", "hygine_pack", "toilet"]

  /** The weekly needs table: a header, then food, drinking water and clean
      water with their units, then hygiene packs and toilets. */
  function NeedsTable(needs: Value): (r: Result<seq<Entry>>)
    ensures r.Ok? ==> |r.value| == 6 && r.value[0] == Row([Say(NeedsPerWeek), Say(Total)], true)
    ensures r.Ok? ==> Lookups(needs, NeedKeys).Ok?
    ensures r.Ok? ==> forall i :: 0 <= i < 5 ==> NeedRow(Lookups(needs, NeedKeys).value[i], i < 3) == Ok(r.value[i + 1])
    ensures DictGet(needs, "food").Err? ==> r.Err?
  {
    var resources :- Lookups(needs, NeedKeys);
    var rows :- NeedRows(resources, 3);
    Ok([Row([Say(NeedsPerWeek), Say(Total)], true)] + rows)
  }

  /** The question heading: the impact and exposure layer names recorded in
      the provenance, and the function's title. */
  function QuestionOf(provenance: map<string, Value>, functionDetails: Value): (r: Result<Entry>)
    ensures r.Ok? ==> r.value.Question? && DictGet(functionDetails, "title").Ok? &&
                      r.value.title == DictGet(functionDetails, "title").value
    ensures r.Ok? ==> "impact_layer" in provenance && "exposure_layer" in provenance
    ensures "impact_layer" !in provenance ==> r == Err(KeyError)
  {
    if "impact_layer" !in provenance then Err(KeyError)
    else
      var impactName :- DictGet(provenance["impact_layer"], "name");
      if "exposure_layer" !in provenance then Err(KeyError)
      else
        var exposureName :- DictGet(provenance["exposure_layer"], "name");
        var title :- DictGet(functionDetails, "title");
        Ok(Question(impactName, exposureName, title))
  }

  /** BuildingTable.analysis_table as a value: the question, the
      breakdown's body, then the threshold checklist; it fails with the
      question's error, AttributeError without a breakdown, or the
      checklist's error, in that order. */
  ghost function BuildingTableOf(provenance: map<string, Value>, functionDetails: Value, b: ImpactBreakdown?): (r: Result<seq<Entry>>)
    requires b != null ==> b.Valid()
    reads b
    ensures r.Ok? <==> QuestionOf(provenance, functionDetails).Ok? && b != null && BuildingChecklist(functionDetails).Ok?
    ensures QuestionOf(provenance, functionDetails).Ok? && b == null ==> r == Err(AttributeError)
    ensures r.Ok? ==>
      |r.value| == |b.categories| + 5 &&
      r.value[0] == QuestionOf(provenance, functionDetails).value &&
      r.value[1..|r.value| - 3] == BodyOf(b) &&
      r.value[|r.value| - 3..] == BuildingChecklist(functionDetails).value
  {
    var question :- QuestionOf(provenance, functionDetails);
    if b == null then Err(AttributeError)
    else
      var checklist :- BuildingChecklist(functionDetails);
      Ok([question] + BodyOf(b) + checklist)
  }

  /** BuildingTable.analysis_table. */
  method BuildingAnalysisTable(kw: Keywords) returns (r: Result<seq<Entry>>)
    requires kw.primaryLayer != null && kw.primaryLayer.Valid()
    ensures r == BuildingTableOf(kw.provenance, kw.primaryLayer.functionDetails, kw.primaryLayer.impactBreakdown)
  {
    var layer := kw.primaryLayer;
    var question := QuestionOf(kw.provenance, layer.functionDetails);
    if question.Err? {
      return Err(question.error);
    }
    var b := layer.impactBreakdown;
    if b == null {
      return Err(AttributeError);
    }
    var body := TableBody(b);
    var checklist := BuildingChecklist(layer.functionDetails);
    if checklist.Err? {
      return Err(checklist.error);
    }
    r := Ok([question.value] + body + checklist.value);
  }

  /** PopulationEarthquakeTable.analysis_table as a value: the question,
      the breakdown's body, the displaced-population line, the needs
      table, the checklist and the notes with the total population. It
      fails with the question's error, AttributeError without a
      breakdown, then the needs table's error, then KeyError for a
      missing fatalities, displaced or total population cell. */
  ghost function EarthquakeTableOf(provenance: map<string, Value>, functionDetails: Value, needs: Value, b: ImpactBreakdown?,
                                   l: EarthquakeLabels): (r: Result<seq<Entry>>)
    requires b != null ==> b.Valid()
    reads b
    ensures r.Ok? <==>
      QuestionOf(provenance, functionDetails).Ok? && b != null && NeedsTable(needs).Ok? &&
      b.Get(l.fatalities, l.population).Ok? && b.Get(l.displaced, l.population).Ok? &&
      b.Get(l.total, l.population).Ok?
    ensures QuestionOf(provenance, functionDetails).Ok? && b == null ==> r == Err(AttributeError)
    ensures r.Ok? ==>
      r.value == EarthquakeRows(QuestionOf(provenance, functionDetails).value, BodyOf(b), NeedsTable(needs).value,
                                b.Get(l.fatalities, l.population).value, b.Get(l.displaced, l.population).value,
                                b.Get(l.total, l.population).value)
  {
    var question :- QuestionOf(provenance, functionDetails);
    if b == null then Err(AttributeError)
    else
      var needsRows :- NeedsTable(needs);
      var f :- b.Get(l.fatalities, l.population);
      var d :- b.Get(l.displaced, l.population);
      var total :- b.Get(l.total, l.population);
      Ok(EarthquakeRows(question, BodyOf(b), needsRows, f, d, total))
  }

  /** The earthquake table's rows in order: the question, the body, the
      displaced-population line, the needs table, the checklist for the
      fatalities and displaced values and the notes with the total. */
  function EarthquakeRows(question: Entry, body: seq<Entry>, needsRows: seq<Entry>, f: Value, d: Value, total: Value): (t: seq<Entry>)
    ensures var n := |body|;
      |t| == n + 1 + 1 + |needsRows| + |ChecklistLines(f, d)| + 9 &&
      t[0] == question && t[1..n + 1] == body && t[n + 1] == Line(Say(DisplacedMap)) &&
      t[n + 2..n + 2 + |needsRows|] == needsRows &&
      t[n + 2 + |needsRows|..] == ChecklistLines(f, d) + EarthquakeNotes(total)
  {
    [question] + body + [Line(Say(DisplacedMap))] + needsRows + (ChecklistLines(f, d) + EarthquakeNotes(total))
  }

  /** PopulationEarthquakeTable.analysis_table. */
  method EarthquakeAnalysisTable(kw: Keywords, l: EarthquakeLabels) returns (r: Result<seq<Entry>>)
    requires kw.primaryLayer != null && kw.primaryLayer.Valid()
    ensures r == EarthquakeTableOf(kw.provenance, kw.primaryLayer.functionDetails,
                                   kw.primaryLayer.minimumNeeds, kw.primaryLayer.impactBreakdown, l)
  {
    var layer := kw.primaryLayer;
    var question := QuestionOf(kw.provenance, layer.functionDetails);
    if question.Err? {
      return Err(question.error);
    }
    var b := layer.impactBreakdown;
    if b == null {
      return Err(AttributeError);
    }
    var body := TableBody(b);
    var needs := NeedsTable(layer.minimumNeeds);
    if needs.Err? {
      return Err(needs.error);
    }
    var checklist := EarthquakeChecklist(b, l);
    if checklist.Err? {
      return Err(checklist.error);
    }
    var total := b.Get(l.total, l.population);
    if total.Err? {
      return Err(total.error);
    }
    r := Ok(EarthquakeRows(question.value, body, needs.value, b.Get(l.fatalities, l.population).value,
                           b.Get(l.displaced, l.population).value, total.value));
  }

  /** A table, or its error, as __call__ returns it. */
  function Returned(t: Result<seq<Entry>>): (r: Result<Option<seq<Entry>>>)
    ensures r.Ok? <==> t.Ok?
    ensures t.Ok? ==> r.value == Some(t.value)
    ensures t.Err? ==> r.error == t.error
  {
    match t
    case Ok(v) => Ok(Some(v))
    case Err(e) => Err(e)
  }

  /** __call__: 'Analysis Result' gives the formatter's analysis table (the
      earthquake table reading its cells under the labels l; the
      base formatter has none); 'Complete Analysis Result' fails, no
      formatter defining that table; any other table type gives None. */
  method Call(kind: Formatter, kw: Keywords, tableType: string, l: EarthquakeLabels) returns (r: Result<Option<seq<Entry>>>)
    requires kw.primaryLayer != null && kw.primaryLayer.Valid()
    ensures tableType == "Complete Analysis Result" ==> r == Err(AttributeError)
    ensures tableType != "Analysis Result" && tableType != "Complete Analysis Result" ==> r == Ok(None)
    ensures tableType == "Analysis Result" && kind == BaseFormatter ==> r == Err(AttributeError)
    ensures tableType == "Analysis Result" && r.Ok? ==>
      r.value.Some? && |r.value.value| > 0 && r.value.value[0].Question?
    ensures tableType == "Analysis Result" && kind == BuildingTable ==>
      r == Returned(BuildingTableOf(kw.provenance, kw.primaryLayer.functionDetails, kw.primaryLayer.impactBreakdown))
    ensures tableType == "Analysis Result" && kind == PopulationEarthquakeTable ==>
      r == Returned(EarthquakeTableOf(kw.provenance, kw.primaryLayer.functionDetails,
                                      kw.primaryLayer.minimumNeeds, kw.primaryLayer.impactBreakdown, l))
  {
    if tableType == "Analysis Result" {
      var t: Result<seq<Entry>>;
      if kind == BaseFormatter {
        return Err(AttributeError);
      } else if kind == BuildingTable {
        t := BuildingAnalysisTable(kw);
      } else {
        t := EarthquakeAnalysisTable(kw, l);
      }
      if t.Err? {
        return Err(t.error);
      }
      return Ok(Some(t.value));
    } else if tableType == "Complete Analysis Result" {
      return Err(AttributeError);
    }
    return Ok(None);
  }

  /** TableSelector on the impact assessment record: the building table for
      'buildings' exposure, the population earthquake table for
      'population' exposure with 'earthquake' hazard, None otherwise; a
      record that is not a dictionary or lacks a subcategory fails. */
  function TableSelector(assessment: Value): (r: Result<Option<Formatter>>)
    ensures r == Ok(Some(BuildingTable)) <==> DictGet(assessment, "exposure_subcategory") == Ok(VStr("buildings"))
    ensures r == Ok(Some(PopulationEarthquakeTable)) <==>
      DictGet(assessment, "exposure_subcategory") == Ok(VStr("population")) &&
      DictGet(assessment, "hazard_subcategory") == Ok(VStr("earthquake"))
    ensures r.Ok? && r.value.Some? ==> r.value.value != BaseFormatter
    ensures DictGet(assessment, "exposure_subcategory").Err? ==> r.Err?
  {
    var exposure :- DictGet(assessment, "exposure_subcategory");
    if exposure == VStr("buildings") then Ok(Some(BuildingTable))
    else if exposure == VStr("population") then
      var hazard :- DictGet(assessment, "hazard_subcategory");
      if hazard == VStr("earthquake") then Ok(Some(PopulationEarthquakeTable)) else Ok(None)
    else Ok(None)
  }

  /** The impact assessments the keywords record select the matching
      formatter. */
  lemma SelectorOnRecordedAssessment(exposure: string, hazard: string)
    ensures exposure == "buildings" ==> TableSelector(ImpactAssessment(exposure, hazard)) == Ok(Some(BuildingTable))
    ensures exposure == "population" && hazard == "earthquake" ==>
      TableSelector(ImpactAssessment(exposure, hazard)) == Ok(Some(PopulationEarthquakeTable))
    ensures exposure != "buildings" && !(exposure == "population" && hazard == "earthquake") ==>
      TableSelector(ImpactAssessment(exposure, hazard)) == Ok(None)
  {
    ImpactAssessmentFields(exposure, hazard);
  }
}
