/** Helpers of the QGIS front end: style ranges for a raster legend, sorted
    insertion into a combo box, a human reading of a duration, adding a log
    handler once, the attribute names a layer offers, the attribution table
    of an impact layer and the conversions between millimetres, points and
    dots per inch. */
module QgisUtilities {
  import opened Common

  // ---------------------------------------------------------------------
  // _addMinMaxToStyle

  /** Two floats compare equal (NaN equals nothing). */
  predicate SameFloat(a: Num, b: Num) { a.Fin? && b.Fin? && a.r == b.r }

  /** float(style_class['quantity']). */
  function Quantity(c: Row): Result<Num>
  {
    if "quantity" in c then PyFloat(c["quantity"]) else Err(KeyError)
  }

  /** The class's range reads lo to hi. */
  predicate HasRange(d: Row, lo: Num, hi: Num)
  {
    "min" in d && "max" in d && d["min"] == VFloat(lo) && d["max"] == VFloat(hi)
  }

  /** The class with min and max written; its quantity is left alone. */
  function WithRange(c: Row, lo: Num, hi: Num): (d: Row)
    ensures HasRange(d, lo, hi)
    ensures Quantity(d) == Quantity(c)
  {
    assert "quantity" != "min" && "quantity" != "max";
    c["min" := VFloat(lo)]["max" := VFloat(hi)]
  }

  /** The loop's state: the classes seen so far (with min and max written),
      the kept ones, the running lower bound and the error that stopped
      the loop, if any. */
  datatype Pass = Pass(updated: seq<Row>, kept: seq<Row>, last: Num, failed: Option<Error>)

  /** What the loop leaves in a class dict: min and max written once its
      quantity reads, the dict untouched once the loop has stopped. */
  function Written(p: Pass, c: Row): Row
  {
    if p.failed.None? && Quantity(c).Ok? then WithRange(c, p.last, Quantity(c).value) else c
  }

  /** One class: min is the running bound and max its quantity; it is
      dropped when its quantity equals the bound, otherwise kept and the
      bound moves just above its quantity. After a failure the remaining
      classes are left as they are. */
  function Step(p: Pass, c: Row, nextUp: Num -> Num): (q: Pass)
    ensures q.updated == p.updated + [Written(p, c)]
    ensures q.kept == p.kept || q.kept == p.kept + [Written(p, c)]
    ensures p.failed.Some? ==> q == Pass(p.updated + [c], p.kept, p.last, p.failed)
    ensures q.kept == p.kept ==> q.last == p.last
    ensures q.kept != p.kept ==> p.failed.None? && Quantity(c).Ok? && q.last == nextUp(Quantity(c).value)
  {
    if p.failed.Some? then Pass(p.updated + [c], p.kept, p.last, p.failed)
    else if Quantity(c).Err? then Pass(p.updated + [c], p.kept, p.last, Some(Quantity(c).error))
    else
      var quantity := Quantity(c).value;
      var d := WithRange(c, p.last, quantity);
      if SameFloat(quantity, p.last) then Pass(p.updated + [d], p.kept, p.last, None)
      else Pass(p.updated + [d], p.kept + [d], nextUp(quantity), None)
  }

  /** The classes in order, from a lower bound of 0.0. */
  function Scan(style: seq<Row>, nextUp: Num -> Num): (p: Pass)
    ensures |p.updated| == |style|
  {
    if style == [] then Pass([], [], Fin(0.0), None)
    else Step(Scan(style[..|style| - 1], nextUp), style[|style| - 1], nextUp)
  }

  /** The lower bound after the kept classes: 0.0 before any, then just
      above the last one's quantity. */
  function Low(kept: seq<Row>, nextUp: Num -> Num): Num
  {
    if kept == [] then Fin(0.0)
    else match Quantity(kept[|kept| - 1])
      case Ok(q) => nextUp(q)
      case Err(_) => NaN
  }

  /** Each kept class reads a quantity, its max is that quantity and its
      min is the bound left by the classes before it. */
  ghost predicate Chained(kept: seq<Row>, nextUp: Num -> Num)
  {
    kept == [] ||
    (Chained(kept[..|kept| - 1], nextUp) && Quantity(kept[|kept| - 1]).Ok? &&
     HasRange(kept[|kept| - 1], Low(kept[..|kept| - 1], nextUp), Quantity(kept[|kept| - 1]).value))
  }

  /** The loop's invariant: the kept classes are chained, the bound is the
      one they leave, and every kept class is one of the written ones. */
  ghost predicate RangesChained(p: Pass, nextUp: Num -> Num)
  {
    Chained(p.kept, nextUp) && p.last == Low(p.kept, nextUp) &&
    forall x | x in p.kept :: x in p.updated
  }

  lemma StepChained(p: Pass, c: Row, nextUp: Num -> Num)
    requires RangesChained(p, nextUp)
    ensures RangesChained(Step(p, c, nextUp), nextUp)
  {
    var q := Step(p, c, nextUp);
    if q.kept != p.kept {
      var d := Written(p, c);
      assert q.kept[..|q.kept| - 1] == p.kept && q.kept[|q.kept| - 1] == d;
      assert HasRange(d, p.last, Quantity(c).value) && Quantity(d) == Quantity(c);
    }
  }

  /** In terms of positions: the first kept class starts at 0.0, each
      later one at nextafter of the quantity of the one before, and each
      ends at its own quantity. */
  lemma {:induction false} ChainedAt(kept: seq<Row>, nextUp: Num -> Num, j: nat)
    requires Chained(kept, nextUp) && j < |kept|
    ensures Quantity(kept[j]).Ok?
    ensures j == 0 ==> HasRange(kept[j], Fin(0.0), Quantity(kept[j]).value)
    ensures j > 0 ==> Quantity(kept[j - 1]).Ok? &&
                      HasRange(kept[j], nextUp(Quantity(kept[j - 1]).value), Quantity(kept[j]).value)
    decreases |kept|
  {
    var n := |kept| - 1;
    if j < n {
      ChainedAt(kept[..n], nextUp, j);
      assert kept[..n][j] == kept[j];
      if j > 0 { assert kept[..n][j - 1] == kept[j - 1]; }
    } else if j > 0 {
      ChainedAt(kept[..n], nextUp, j - 1);
      assert kept[..n][j - 1] == kept[j - 1];
    }
  }

  /** _addMinMaxToStyle gives each kept class its range, chained from 0.0,
      keeps only classes it wrote and never more classes than it was
      given. */
  lemma {:induction false} ScanChained(style: seq<Row>, nextUp: Num -> Num)
    ensures RangesChained(Scan(style, nextUp), nextUp)
    ensures |Scan(style, nextUp).kept| <= |style|
  {
    if style != [] {
      ScanChained(style[..|style| - 1], nextUp);
      StepChained(Scan(style[..|style| - 1], nextUp), style[|style| - 1], nextUp);
    }
  }

  /** One more class extends the scan by one step. */
  lemma ScanNext(style: seq<Row>, nextUp: Num -> Num, i: nat)
    requires i < |style|
    ensures Scan(style[..i + 1], nextUp) == Step(Scan(style[..i], nextUp), style[i], nextUp)
  {
    assert style[..i + 1][..i] == style[..i];
  }

  /** A class whose quantity reads always gets its range; it is dropped
      exactly when its quantity equals the running bound, and then the
      bound stays where it was. */
  lemma StepReads(p: Pass, c: Row, nextUp: Num -> Num)
    requires p.failed.None? && Quantity(c).Ok?
    ensures var q := Step(p, c, nextUp); var d := WithRange(c, p.last, Quantity(c).value);
      q.failed.None? && q.updated == p.updated + [d] &&
      (if SameFloat(Quantity(c).value, p.last) then q.kept == p.kept && q.last == p.last
       else q.kept == p.kept + [d] && q.last == nextUp(Quantity(c).value))
  {
  }

  /** After a failure one more class is passed through untouched. */
  lemma ScanStepFailed(style: seq<Row>, nextUp: Num -> Num, i: nat)
    requires i < |style| && Scan(style[..i], nextUp).failed.Some?
    ensures var q := Scan(style[..i], nextUp);
      Scan(style[..i + 1], nextUp) == Pass(q.updated + [style[i]], q.kept, q.last, q.failed)
  {
    ScanNext(style, nextUp, i);
  }

  /** Passing one more class through after the ones already passed
      through. */
  lemma PassThrough(p: Pass, q: Pass, r: Pass, style: seq<Row>, k: nat, m: nat)
    requires k < m <= |style|
    requires q == Pass(p.updated + style[k..m - 1], p.kept, p.last, p.failed)
    requires r == Pass(q.updated + [style[m - 1]], q.kept, q.last, q.failed)
    ensures r == Pass(p.updated + style[k..m], p.kept, p.last, p.failed)
  {
    SnocSlice(p.updated, style, k, m);
  }

  /** One class after the loop has stopped is passed through as well. */
  lemma PassOneMore(style: seq<Row>, nextUp: Num -> Num, p: Pass, k: nat, m: nat)
    requires k < m <= |style| && p.failed.Some?
    requires Scan(style[..m - 1], nextUp) == Pass(p.updated + style[k..m - 1], p.kept, p.last, p.failed)
    ensures Scan(style[..m], nextUp) == Pass(p.updated + style[k..m], p.kept, p.last, p.failed)
  {
    ScanStepFailed(style, nextUp, m - 1);
    PassThrough(p, Scan(style[..m - 1], nextUp), Scan(style[..m], nextUp), style, k, m);
  }

  /** Once the loop has stopped, the classes after it are left as they
      are. */
  lemma {:induction false} ScanAfterFailure(style: seq<Row>, nextUp: Num -> Num, k: nat, m: nat)
    requires k <= m <= |style| && Scan(style[..k], nextUp).failed.Some?
    ensures var p := Scan(style[..k], nextUp);
      Scan(style[..m], nextUp) == Pass(p.updated + style[k..m], p.kept, p.last, p.failed)
  {
    if m == k {
      assert style[k..m] == [];
    } else {
      ScanAfterFailure(style, nextUp, k, m - 1);
      PassOneMore(style, nextUp, Scan(style[..k], nextUp), k, m);
    }
  }

  /** _addMinMaxToStyle: writes min and max into every class dict in place
      (dropped ones included) and returns the kept ones; a class whose
      quantity does not read as a float stops it with that error. */
  method AddMinMaxToStyle(style: array<Row>, nextUp: Num -> Num) returns (r: Result<seq<Row>>)
    modifies style
    ensures style[..] == Scan(old(style[..]), nextUp).updated
    ensures r.Err? <==> Scan(old(style[..]), nextUp).failed.Some?
    ensures r.Err? ==> r.error == Scan(old(style[..]), nextUp).failed.value
    ensures r.Ok? ==> r.value == Scan(old(style[..]), nextUp).kept
  {
    ghost var s0 := style[..];
    ghost var pass := Scan([], nextUp);
    assert s0[..0] == [];
    var newStyles: seq<Row> := [];
    var lastMax := Fin(0.0);
    for i := 0 to style.Length
      invariant pass == Scan(s0[..i], nextUp) && pass.failed.None?
      invariant |pass.updated| == i && style[..] == pass.updated + s0[i..]
      invariant newStyles == pass.kept && lastMax == pass.last
    {
      var c := style[i];
      assert c == s0[i];
      var quantity := Quantity(c);
      if quantity.Err? {
        ScanStops(s0, nextUp, i);
        return Err(quantity.error);
      }
      ScanNext(s0, nextUp, i);
      StepReads(pass, c, nextUp);
      var d := WithRange(c, lastMax, quantity.value);
      UpdateAt(pass.updated, s0, i, d);
      pass := Step(pass, c, nextUp);
      style[i] := d;
      if !SameFloat(quantity.value, lastMax) {
        lastMax := nextUp(quantity.value);
        newStyles := newStyles + [d];
      }
    }
    assert s0[..style.Length] == s0;
    assert style[..] == pass.updated;
    r := Ok(newStyles);
  }

  /** A class whose quantity does not read stops the scan there, with
      that class and all after it left as they are. */
  lemma ScanStops(style: seq<Row>, nextUp: Num -> Num, i: nat)
    requires i < |style| && Scan(style[..i], nextUp).failed.None? && Quantity(style[i]).Err?
    ensures var p := Scan(style[..i], nextUp);
      Scan(style, nextUp) == Pass(p.updated + style[i..], p.kept, p.last, Some(Quantity(style[i]).error))
  {
    var p := Scan(style[..i], nextUp);
    ScanNext(style, nextUp, i);
    var q := Scan(style[..i + 1], nextUp);
    assert q == Pass(p.updated + [style[i]], p.kept, p.last, Some(Quantity(style[i]).error));
    ScanAfterFailure(style, nextUp, i + 1, |style|);
    assert style[..|style|] == style;
    assert Scan(style, nextUp) == Pass(q.updated + style[i + 1..|style|], q.kept, q.last, q.failed);
    AppendRest(p.updated, style, i);
  }

  /** Overwriting the first element of the rest extends the prefix. */
  lemma UpdateAt<T>(a: seq<T>, s: seq<T>, i: nat, d: T)
    requires |a| == i < |s|
    ensures (a + s[i..])[i := d] == (a + [d]) + s[i + 1..]
  {
    assert s[i..] == [s[i]] + s[i + 1..];
  }

  /** Extending a slice by its next element. */
  lemma SnocSlice<T>(a: seq<T>, s: seq<T>, k: nat, m: nat)
    requires k < m <= |s|
    ensures (a + s[k..m - 1]) + [s[m - 1]] == a + s[k..m]
  {
    assert s[k..m] == s[k..m - 1] + [s[m - 1]];
  }

  /** Appending one element and then the rest is appending the suffix. */
  lemma AppendRest<T>(a: seq<T>, s: seq<T>, i: nat)
    requires i < |s|
    ensures (a + [s[i]]) + s[i + 1..|s|] == a + s[i..]
  {
    assert s[i..] == [s[i]] + s[i + 1..|s|];
  }

  // ---------------------------------------------------------------------
  // addComboItemInOrder

  /** A combo box entry: display text and optional user data. */
  type Item = (string, Value)

  /** The combo box's items, as the widget holds them. */
  class Combo {
    var items: seq<Item>

    constructor(initial: seq<Item>)
      ensures items == initial
    {
      items := initial;
    }

    /** QComboBox.insertItem: the new item lands at the given index. */
    method InsertItem(index: nat, text: string, data: Value)
      requires index <= |items|
      modifies this
      ensures items == old(items)[..index] + [(text, data)] + old(items)[index..]
    {
      items := items[..index] + [(text, data)] + items[index..];
    }
  }

  /** str(a).lower() < str(b).lower(), the comparison addComboItemInOrder
      makes through cmp. */
  predicate Precedes(a: string, b: string)
  {
    LexLess(Lower(a), Lower(b))
  }

  /** No item's text precedes an earlier one's, ignoring case. */
  predicate SortedFolded(items: seq<Item>)
  {
    forall i, j :: 0 <= i < j < |items| ==> !Precedes(items[j].0, items[i].0)
  }

  /** The index of the first item the new text precedes, or the end. */
  function InsertPosition(items: seq<Item>, text: string): (k: nat)
    ensures k <= |items|
    ensures forall j :: 0 <= j < k ==> !Precedes(text, items[j].0)
    ensures k < |items| ==> Precedes(text, items[k].0)
  {
    if items == [] then 0
    else if Precedes(text, items[0].0) then 0
    else 1 + InsertPosition(items[1..], text)
  }

  /** addComboItemInOrder: scans the items in order and inserts the new one
      before the first whose text it precedes, or at the end. */
  method AddComboItemInOrder(combo: Combo, text: string, data: Value)
    modifies combo
    ensures var k := InsertPosition(old(combo.items), text);
      combo.items == old(combo.items)[..k] + [(text, data)] + old(combo.items)[k..]
  {
    var size := |combo.items|;
    for count := 0 to size
      invariant combo.items == old(combo.items)
      invariant forall j :: 0 <= j < count ==> !Precedes(text, combo.items[j].0)
    {
      if Precedes(text, combo.items[count].0) {
        combo.InsertItem(count, text, data);
        return;
      }
    }
    combo.InsertItem(size, text, data);
  }

  /** Inserting at InsertPosition keeps a case-insensitively sorted combo
      sorted; the new item goes after every item with the same folded
      text. */
  lemma InsertKeepsSorted(items: seq<Item>, text: string, data: Value)
    requires SortedFolded(items)
    ensures var k := InsertPosition(items, text);
      SortedFolded(items[..k] + [(text, data)] + items[k..])
  {
    var k := InsertPosition(items, text);
    var r := items[..k] + [(text, data)] + items[k..];
    forall i, j | 0 <= i < j < |r|
      ensures !Precedes(r[j].0, r[i].0)
    {
      if j < k {
        assert r[i] == items[i] && r[j] == items[j];
      } else if j == k {
        assert r[i] == items[i] && r[j] == (text, data);
        if Precedes(text, items[i].0) {
          assert false;
        }
      } else if i < k {
        assert r[i] == items[i] && r[j] == items[j - 1];
      } else if i == k {
        assert r[i] == (text, data) && r[j] == items[j - 1];
        if Precedes(items[j - 1].0, text) {
          LexLessTransitive(Lower(items[j - 1].0), Lower(text), Lower(items[k].0));
          if j - 1 == k {
            LexLessIrreflexive(Lower(items[k].0));
          }
          assert false;
        }
      } else {
        assert r[i] == items[i - 1] && r[j] == items[j - 1];
      }
    }
  }

  /** An item whose text no existing item follows goes to the end, and one
      that precedes the first item goes to the front. */
  lemma InsertPositionEnds(items: seq<Item>, text: string)
    ensures (forall j :: 0 <= j < |items| ==> !Precedes(text, items[j].0)) ==> InsertPosition(items, text) == |items|
    ensures items != [] && Precedes(text, items[0].0) ==> InsertPosition(items, text) == 0
  {
  }

  // ---------------------------------------------------------------------
  // humaniseSeconds

  /** The phrase humaniseSeconds picks, with the numbers it fills in. */
  datatype Span =
    | Seconds(n: int)
    | AMinute
    | Minutes(m: int)
    | OverAnHour
    | HoursMinutes(h: int, m: int)
    | DaysHoursMinutes(d: int, h: int, m: int)

  /** The branches of humaniseSeconds; days, hours and minutes come from
      Python 2's floor division and modulo. */
  function Humanise(seconds: int): (sp: Span)
    ensures seconds < 60 <==> sp.Seconds?
    ensures 60 <= seconds < 120 <==> sp.AMinute?
    ensures 120 <= seconds < 3600 <==> sp.Minutes?
    ensures 3600 <= seconds < 7200 <==> sp.OverAnHour?
    ensures 7200 <= seconds < 86400 <==> sp.HoursMinutes?
    ensures 86400 <= seconds <==> sp.DaysHoursMinutes?
  {
    var days := seconds / (3600 * 24);
    var dayModulus := seconds % (3600 * 24);
    var hours := dayModulus / 3600;
    var hourModulus := dayModulus % 3600;
    var minutes := hourModulus / 60;
    if seconds < 60 then Seconds(seconds)
    else if seconds < 120 then AMinute
    else if seconds < 3600 then Minutes(minutes)
    else if seconds < 7200 then OverAnHour
    else if seconds < 86400 then HoursMinutes(hours, minutes)
    else DaysHoursMinutes(days, hours, minutes)
  }

  /** The numbers shown add back up to the duration, short of at most 59
      seconds, with hours under a day and minutes under an hour. */
  lemma HumaniseRecombines(seconds: int)
    ensures match Humanise(seconds)
      case Seconds(n) => n == seconds
      case Minutes(m) => 2 <= m < 60 && m * 60 <= seconds < m * 60 + 60
      case HoursMinutes(h, m) =>
        2 <= h < 24 && 0 <= m < 60 && h * 3600 + m * 60 <= seconds < h * 3600 + m * 60 + 60
      case DaysHoursMinutes(d, h, m) =>
        1 <= d && 0 <= h < 24 && 0 <= m < 60 &&
        d * 86400 + h * 3600 + m * 60 <= seconds < d * 86400 + h * 3600 + m * 60 + 60
      case _ => true
  {
    var days := seconds / 86400;
    var dayModulus := seconds % 86400;
    var hours := dayModulus / 3600;
    var minutes := (dayModulus % 3600) / 60;
    assert seconds == days * 86400 + dayModulus && 0 <= dayModulus < 86400;
    assert dayModulus == hours * 3600 + dayModulus % 3600;
    assert dayModulus % 3600 == minutes * 60 + (dayModulus % 3600) % 60;
    if 120 <= seconds < 86400 {
      assert days == 0 && dayModulus == seconds;
    }
  }

  /** The last eight characters of a text, where its unit word stands. */
  function Ending(text: string): string
  {
    if |text| < 8 then text else text[|text| - 8..]
  }

  lemma EndingOf(front: string, unit: string)
    requires |unit| == 8
    ensures Ending(front + unit) == unit
  {
    assert (front + unit)[|front|..] == unit;
  }

  /** The text humaniseSeconds returns for a span; only a count of
      seconds ends in ' seconds'. */
  function SpanText(sp: Span): (text: string)
    ensures Ending(text) == " seconds" <==> sp.Seconds?
  {
    match sp
    case Seconds(n) =>
      EndingOf(IntToString(n), " seconds");
      IntToString(n) + " seconds"
    case AMinute =>
      assert Ending("a minute")[0] != " seconds"[0];
      "a minute"
    case Minutes(m) =>
      EndingOf(IntToString(m), " minutes");
      assert " minutes"[1] != " seconds"[1];
      IntToString(m) + " minutes"
    case OverAnHour =>
      assert Ending("over an hour")[1] != " seconds"[1];
      "over an hour"
    case HoursMinutes(h, m) =>
      EndingOf(IntToString(h) + " hours and " + IntToString(m), " minutes");
      assert " minutes"[1] != " seconds"[1];
      IntToString(h) + " hours and " + IntToString(m) + " minutes"
    case DaysHoursMinutes(d, h, m) =>
      EndingOf(IntToString(d) + " days, " + IntToString(h) + " hours and " + IntToString(m), " minutes");
      assert " minutes"[1] != " seconds"[1];
      IntToString(d) + " days, " + IntToString(h) + " hours and " + IntToString(m) + " minutes"
  }

  /** humaniseSeconds: under a minute the seconds are shown as they are,
      the second minute is 'a minute', the second hour 'over an hour'. */
  function HumaniseSeconds(seconds: int): (text: string)
    ensures seconds < 60 ==> text == IntToString(seconds) + " seconds"
    ensures 60 <= seconds < 120 ==> text == "a minute"
    ensures 3600 <= seconds < 7200 ==> text == "over an hour"
    ensures Ending(text) == " seconds" <==> seconds < 60
  {
    SpanText(Humanise(seconds))
  }

  // ---------------------------------------------------------------------
  // addLoggingHanderOnce

  /** A logging handler, known by the name of its class. */
  datatype Handler = Handler(className: string, target: string)

  class Logger {
    var handlers: seq<Handler>

    constructor()
      ensures handlers == []
    {
      handlers := [];
    }

    method AddHandler(h: Handler)
      modifies this
      ensures handlers == old(handlers) + [h]
    {
      handlers := handlers + [h];
    }
  }

  predicate HasHandlerClass(handlers: seq<Handler>, className: string)
  {
    exists i :: 0 <= i < |handlers| && handlers[i].className == className
  }

  /** What the logger holds after addLoggingHanderOnce, and its answer. */
  function AddOnce(handlers: seq<Handler>, h: Handler): (seq<Handler>, bool)
  {
    if HasHandlerClass(handlers, h.className) then (handlers, false) else (handlers + [h], true)
  }

  /** addLoggingHanderOnce: adds the handler unless one of the same class
      is attached, and says whether it added it. */
  method AddLoggingHandlerOnce(logger: Logger, h: Handler) returns (added: bool)
    modifies logger
    ensures (logger.handlers, added) == AddOnce(old(logger.handlers), h)
  {
    for i := 0 to |logger.handlers|
      invariant forall j :: 0 <= j < i ==> logger.handlers[j].className != h.className
    {
      if logger.handlers[i].className == h.className {
        return false;
      }
    }
    logger.AddHandler(h);
    return true;
  }

  /** No two attached handlers share a class. */
  predicate DistinctClasses(handlers: seq<Handler>)
  {
    forall i, j :: 0 <= i < j < |handlers| ==> handlers[i].className != handlers[j].className
  }

  /** Adding once keeps the classes distinct, and a second add of the same
      class changes nothing and answers False. */
  lemma AddOnceIdempotent(handlers: seq<Handler>, h: Handler, h2: Handler)
    requires DistinctClasses(handlers)
    requires h2.className == h.className
    ensures DistinctClasses(AddOnce(handlers, h).0)
    ensures AddOnce(AddOnce(handlers, h).0, h2) == (AddOnce(handlers, h).0, false)
    ensures AddOnce(handlers, h).1 <==> !HasHandlerClass(handlers, h.className)
  {
    var hs := AddOnce(handlers, h).0;
    if !HasHandlerClass(handlers, h.className) {
      assert hs[|handlers|] == h;
    }
  }

  // ---------------------------------------------------------------------
  // getLayerAttributeNames

  /** A field of a vector layer: its name and its QVariant type code. */
  datatype Field = Field(name: string, fieldType: int)

  datatype MapLayer = VectorLayer(fields: seq<Field>) | OtherLayer

  /** The names of the fields whose type is allowed, in field order. */
  function AllowedNames(fields: seq<Field>, allowed: seq<int>): (names: seq<string>)
    ensures |names| <= |fields|
    ensures forall n :: n in names <==> exists i :: 0 <= i < |fields| && fields[i].fieldType in allowed && fields[i].name == n
  {
    if fields == [] then []
    else
      var n := |fields| - 1;
      var rest := AllowedNames(fields[..n], allowed);
      assert forall i :: 0 <= i < n ==> fields[..n][i] == fields[i];
      if fields[n].fieldType in allowed then rest + [fields[n].name] else rest
  }

  /** The last position holding the keyword, if any. */
  function LastIndex(names: seq<string>, key: Option<string>): (r: Option<nat>)
    ensures r.Some? ==> r.value < |names| && key == Some(names[r.value])
    ensures r.Some? ==> forall j :: r.value < j < |names| ==> key != Some(names[j])
    ensures r.None? ==> forall j :: 0 <= j < |names| ==> key != Some(names[j])
  {
    if names == [] then None
    else if key == Some(names[|names| - 1]) then Some(|names| - 1)
    else LastIndex(names[..|names| - 1], key)
  }

  /** getLayerAttributeNames: for a vector layer the allowed field names and
      the position of the current keyword among them; (None, None) for any
      other layer. */
  method GetLayerAttributeNames(layer: MapLayer, allowed: seq<int>, current: Option<string>)
    returns (names: Option<seq<string>>, selected: Option<nat>)
    ensures layer.OtherLayer? ==> names == None && selected == None
    ensures layer.VectorLayer? ==>
      names == Some(AllowedNames(layer.fields, allowed)) && selected == LastIndex(names.value, current)
  {
    if layer.OtherLayer? {
      return None, None;
    }
    var fields := layer.fields;
    var found: seq<string> := [];
    var index: Option<nat> := None;
    var i := 0;
    for f := 0 to |fields|
      invariant found == AllowedNames(fields[..f], allowed) && i == |found|
      invariant index == LastIndex(found, current)
    {
      assert fields[..f + 1][..f] == fields[..f];
      if fields[f].fieldType in allowed {
        var name := fields[f].name;
        found := found + [name];
        assert found[..i] == found[..|found| - 1];
        if current == Some(name) {
          index := Some(i);
        }
        i := i + 1;
      }
    }
    assert fields[..|fields|] == fields;
    return Some(found), index;
  }

  // ---------------------------------------------------------------------
  // impactLayerAttribution

  /** The titles and sources the attribution table shows. */
  datatype Attribution = Attribution(hazardTitle: string, hazardSource: string, exposureTitle: string, exposureSource: string)

  function KeywordOr(keywords: map<string, string>, key: string, fallback: string): (v: string)
    ensures key in keywords ==> v == keywords[key]
    ensures key !in keywords ==> v == fallback
  {
    if key in keywords then keywords[key] else fallback
  }

  /** Each keyword that is missing falls back to a generic phrase. */
  function Details(keywords: map<string, string>): Attribution
  {
    Attribution(KeywordOr(keywords, "hazard_title", "Hazard layer"),
                KeywordOr(keywords, "hazard_source", "an unknown source"),
                KeywordOr(keywords, "exposure_title", "Exposure layer"),
                KeywordOr(keywords, "exposure_source", "an unknown source"))
  }

  const JoinWords := " - sourced from "
  const TableOpen := "<table class=\"table table-striped condensed bordered-table\">"

  function HeaderRow(text: string): string { "<tr><th>" + text + "</th></tr>" }

  /** '<tr><td>%s%s %s.</td></tr>': the join words already end in a space,
      so the source follows two spaces. */
  function SourceRow(title: string, source: string): string
  {
    "<tr><td>" + title + JoinWords + " " + source + ".</td></tr>"
  }

  /** The promotional note; the two sentences are joined without a space. */
  function SoftwareNote(version: string): string
  {
    "This report was created using InaSAFE version " + version +
    ". Visit http://inasafe.org to get your free copy of this software!" +
    "InaSAFE has been jointly developed by BNPB, AusAid & the World Bank"
  }

  /** The software notes section, present only when asked for. */
  function NoteRows(withNote: bool, version: string): string
  {
    if withNote then HeaderRow("Software notes") + "<tr><td>" + SoftwareNote(version) + "</td></tr>" else ""
  }

  function Report(a: Attribution, withNote: bool, version: string): string
  {
    TableOpen +
    HeaderRow("Hazard details") + SourceRow(a.hazardTitle, a.hazardSource) +
    HeaderRow("Exposure details") + SourceRow(a.exposureTitle, a.exposureSource) +
    NoteRows(withNote, version) +
    "</table>"
  }

  /** impactLayerAttribution: None without keywords, otherwise the table. */
  function ImpactLayerAttribution(keywords: Option<map<string, string>>, withNote: bool, version: string): (r: Option<string>)
    ensures r.None? <==> keywords.None?
  {
    match keywords
    case None => None
    case Some(kw) => Some(Report(Details(kw), withNote, version))
  }

  /** `t` occurs in `s` at position `i`. */
  predicate OccursAt(s: string, t: string, i: nat)
  {
    i + |t| <= |s| && s[i..i + |t|] == t
  }

  /** `t` occurs in `s`. */
  ghost predicate Contains(s: string, t: string)
  {
    exists i: nat :: OccursAt(s, t, i)
  }

  /** A text glued from pieces starts with the first, ends with the last
      and contains every piece between. */
  lemma PiecesShown(p1: string, p2: string, p3: string, p4: string, p5: string, p6: string, p7: string)
    ensures var r := p1 + p2 + p3 + p4 + p5 + p6 + p7;
      |r| >= |p1| + |p7| && r[..|p1|] == p1 && r[|r| - |p7|..] == p7 &&
      Contains(r, p3) && Contains(r, p5) && Contains(r, p6)
  {
    var r := p1 + p2 + p3 + p4 + p5 + p6 + p7;
    assert OccursAt(r, p3, |p1 + p2|);
    assert OccursAt(r, p5, |p1 + p2 + p3 + p4|);
    assert OccursAt(r, p6, |p1 + p2 + p3 + p4 + p5|);
  }

  /** The software note lies inside its row. */
  lemma NoteShown(p1: string, p2: string, p3: string, p4: string)
    ensures Contains(p1 + p2 + p3 + p4, p3)
  {
    assert OccursAt(p1 + p2 + p3 + p4, p3, |p1 + p2|);
  }

  /** The table is well formed at both ends and names each layer with its
      source, from the keywords or the fallback phrases. */
  lemma AttributionShowsSources(keywords: map<string, string>, withNote: bool, version: string)
    ensures var r := ImpactLayerAttribution(Some(keywords), withNote, version).value;
      var a := Details(keywords);
      |r| >= |TableOpen| + 8 && r[..|TableOpen|] == TableOpen && r[|r| - 8..] == "</table>" &&
      Contains(r, SourceRow(a.hazardTitle, a.hazardSource)) &&
      Contains(r, SourceRow(a.exposureTitle, a.exposureSource)) &&
      (withNote ==> Contains(r, SoftwareNote(version)))
  {
    ReportShowsSources(Details(keywords), withNote, version);
  }

  /** The same for any attribution. */
  lemma ReportShowsSources(a: Attribution, withNote: bool, version: string)
    ensures var r := Report(a, withNote, version);
      |r| >= |TableOpen| + 8 && r[..|TableOpen|] == TableOpen && r[|r| - 8..] == "</table>" &&
      Contains(r, SourceRow(a.hazardTitle, a.hazardSource)) &&
      Contains(r, SourceRow(a.exposureTitle, a.exposureSource)) &&
      (withNote ==> Contains(r, SoftwareNote(version)))
  {
    var note := NoteRows(withNote, version);
    var r := Report(a, withNote, version);
    PiecesShown(TableOpen, HeaderRow("Hazard details"), SourceRow(a.hazardTitle, a.hazardSource),
                HeaderRow("Exposure details"), SourceRow(a.exposureTitle, a.exposureSource), note, "</table>");
    if withNote {
      NoteShown(HeaderRow("Software notes"), "<tr><td>", SoftwareNote(version), "</td></tr>");
      ContainsTransitive(r, note, SoftwareNote(version));
    }
  }

  /** Text inside a piece of a text is inside the text. */
  lemma ContainsTransitive(r: string, s: string, t: string)
    requires Contains(r, s) && Contains(s, t)
    ensures Contains(r, t)
  {
    var i: nat :| OccursAt(r, s, i);
    var j: nat :| OccursAt(s, t, j);
    assert forall k :: 0 <= k < |t| ==> r[i + j + k] == r[i..i + |s|][j + k] == t[k];
    assert OccursAt(r, t, i + j);
  }

  /** Without title or source keywords the table falls back to the generic
      phrases. */
  lemma AttributionFallbacks(keywords: map<string, string>)
    requires "hazard_title" !in keywords && "hazard_source" !in keywords
    requires "exposure_title" !in keywords && "exposure_source" !in keywords
    ensures Details(keywords) == Attribution("Hazard layer", "an unknown source", "Exposure layer", "an unknown source")
  {
  }

  // ---------------------------------------------------------------------
  // mmToPoints, pointsToMM, dpiToMeters

  const InchAsMm: real := 25.4

  /** mmToPoints: (mm * dpi) / 25.4. */
  function MmToPoints(mm: real, dpi: int): (points: real)
    ensures points * InchAsMm == mm * dpi as real
    ensures mm >= 0.0 && dpi >= 0 ==> points >= 0.0
  {
    (mm * dpi as real) / InchAsMm
  }

  /** pointsToMM: (float(points) / dpi) * 25.4; a dpi of 0 raises
      ZeroDivisionError. */
  function PointsToMm(points: real, dpi: int): (r: Result<real>)
    ensures r.Err? <==> dpi == 0
    ensures r.Err? ==> r.error == ZeroDivisionError
  {
    if dpi == 0 then Err(ZeroDivisionError) else Ok((points / dpi as real) * InchAsMm)
  }

  /** dpiToMeters: dots per inch times the inches in a metre. */
  function DpiToMeters(dpi: int): (dpm: real)
    ensures dpm * InchAsMm == 1000.0 * dpi as real
    ensures dpi >= 0 ==> dpm >= dpi as real * 39.0
  {
    (1000.0 / InchAsMm) * dpi as real
  }

  /** Converting to points and back gives the millimetres again, and the
      other way round (exact arithmetic). */
  lemma PointsMmRoundTrip(mm: real, points: real, dpi: int)
    requires dpi != 0
    ensures PointsToMm(MmToPoints(mm, dpi), dpi) == Ok(mm)
    ensures MmToPoints(PointsToMm(points, dpi).value, dpi) == points
  {
    var d := dpi as real;
    var k := mm / InchAsMm;
    var x := MmToPoints(mm, dpi);
    assert x == k * d;
    var y := x / d;
    assert y == k;
    assert y * InchAsMm == mm;
    assert PointsToMm(x, dpi) == Ok(y * InchAsMm);
    var q := points / d;
    assert q * d == points;
    assert ((q * InchAsMm) * d) / InchAsMm == q * d;
  }

  /** Dots per metre are the dots per millimetre scaled by a thousand:
      1000 millimetres converted to points at that resolution. */
  lemma DotsPerMetre(dpi: int)
    ensures DpiToMeters(dpi) == MmToPoints(1000.0, dpi)
  {
    var d := dpi as real;
    assert (1000.0 / InchAsMm) * d == (1000.0 * d) / InchAsMm;
  }
}
