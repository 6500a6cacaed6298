/** Python values, NaN-aware floats, exceptions and the conversion helpers
    (float(), int(), round(), bool(), str.lower(), '%i') that every impact
    function relies on. Floats are modelled as exact reals plus NaN. */
module Common {

  /** A Python float: a real number or NaN (infinities are not modelled). */
  datatype Num = NaN | Fin(r: real)

  /** A Python value found in attribute tables, keywords and results.
      VDict is an ordered dictionary with string keys (an OrderedDict or a
      JSON object). */
  datatype Value =
    | VNone
    | VBool(b: bool)
    | VInt(i: int)
    | VFloat(f: Num)
    | VStr(s: string)
    | VList(items: seq<Value>)
    | VDict(entries: seq<(string, Value)>)

  /** The exceptions the modelled code raises or lets propagate. */
  datatype Error =
    | TypeError
    | VerificationError
    | ValueError
    | KeyError
    | AttributeError
    | IndexError
    | ZeroDivisionError
    | InaSAFEError(mmi: int)
    | ZeroImpactException(reported: int)
    | PlainException(reason: Reason)

  /** Why a plain Exception was raised. */
  datatype Reason =
    | NoFloodAttribute   // none of the flood attributes is present
    | HazardNotVector    // the hazard layer is a raster
    | HazardNotPolygon   // the hazard layer is not polygon data

  datatype Option<+T> = None | Some(value: T)

  datatype Result<+T> = Ok(value: T) | Err(error: Error) {
    predicate IsFailure() { Err? }

    function PropagateFailure<U>(): Result<U>
      requires Err?
    {
      Err(error)
    }

    function Extract(): T
      requires Ok?
    {
      value
    }
  }

  /** One feature's attribute record. */
  type Row = map<string, Value>

  /** The position of key k among a dictionary's entries, |entries| if absent. */
  function EntryIndex(entries: seq<(string, Value)>, k: string): (i: nat)
    ensures i <= |entries|
    ensures i < |entries| ==> entries[i].0 == k
    ensures forall j :: 0 <= j < i ==> entries[j].0 != k
  {
    if entries == [] then 0 else if entries[0].0 == k then 0 else 1 + EntryIndex(entries[1..], k)
  }

  /** Python d[k] on a value: KeyError for a missing key, TypeError when d
      is not a dictionary. */
  function DictGet(d: Value, k: string): (r: Result<Value>)
    ensures r.Ok? <==> d.VDict? && exists j :: 0 <= j < |d.entries| && d.entries[j].0 == k
    ensures r.Err? ==> r.error == (if d.VDict? then KeyError else TypeError)
    ensures r.Ok? ==> r.value == d.entries[EntryIndex(d.entries, k)].1
  {
    if !d.VDict? then Err(TypeError)
    else
      var i := EntryIndex(d.entries, k);
      if i < |d.entries| then Ok(d.entries[i].1) else Err(KeyError)
  }

  /** Python truth value, bool(v). Note that bool(nan) is True. */
  predicate Truthy(v: Value)
  {
    match v
    case VNone => false
    case VBool(b) => b
    case VInt(i) => i != 0
    case VFloat(f) => f != Fin(0.0)
    case VStr(s) => s != ""
    case VList(l) => l != []
    case VDict(d) => d != []
  }

  /** Python `v == 0`: true for 0, 0.0 and False. */
  predicate EqualsZero(v: Value)
  {
    v == VInt(0) || v == VBool(false) || v == VFloat(Fin(0.0))
  }

  function LowerChar(c: char): char
  {
    if 'A' <= c <= 'Z' then (c as int + 32) as char else c
  }

  /** str.lower() on ASCII text. */
  function Lower(s: string): (r: string)
    ensures |r| == |s|
    ensures forall i :: 0 <= i < |s| ==> r[i] == LowerChar(s[i])
  {
    seq(|s|, i requires 0 <= i < |s| => LowerChar(s[i]))
  }

  // ---------------------------------------------------------------------
  // Numbers

  function NumAdd(a: Num, b: Num): Num
  {
    if a.NaN? || b.NaN? then NaN else Fin(a.r + b.r)
  }

  function NumMul(a: Num, b: Num): Num
  {
    if a.NaN? || b.NaN? then NaN else Fin(a.r * b.r)
  }

  /** Python int(x) on a finite float: truncation toward zero. */
  function TruncInt(r: real): (i: int)
    ensures r >= 0.0 ==> i as real <= r < i as real + 1.0
    ensures r < 0.0 ==> i as real - 1.0 < r <= i as real
  {
    if r >= 0.0 then r.Floor else -((-r).Floor)
  }

  /** Python int(x) on a float that may be NaN. */
  function PyInt(n: Num): (r: Result<int>)
    ensures r.Err? <==> n.NaN?
    ensures r.Err? ==> r.error == ValueError
    ensures r.Ok? ==> r.value == TruncInt(n.r)
  {
    if n.NaN? then Err(ValueError) else Ok(TruncInt(n.r))
  }

  /** Python 2 round(x): to the nearest integer, halves away from zero. */
  function Round(r: real): (i: int)
    ensures r - 0.5 <= i as real <= r + 0.5
    ensures i as real - r == 0.5 ==> r > 0.0
    ensures r - i as real == 0.5 ==> r < 0.0
  {
    if r >= 0.0 then (r + 0.5).Floor else -((-r + 0.5).Floor)
  }

  /** Sum of a sequence of reals, accumulated left to right. */
  function Sum(s: seq<real>): real
  {
    if s == [] then 0.0 else Sum(s[..|s| - 1]) + s[|s| - 1]
  }

  /** Summing two sequences cell by cell sums their totals. */
  lemma {:induction false} SumPointwise(a: seq<real>, b: seq<real>, s: seq<real>)
    requires |a| == |b| == |s|
    requires forall i :: 0 <= i < |s| ==> s[i] == a[i] + b[i]
    ensures Sum(s) == Sum(a) + Sum(b)
  {
    if s != [] {
      var n := |s| - 1;
      SumPointwise(a[..n], b[..n], s[..n]);
    }
  }

  /** A sequence that is 0 everywhere except possibly at j sums to s[j]. */
  lemma {:induction false} SumOneCell(s: seq<real>, j: int)
    requires forall i :: 0 <= i < |s| && i != j ==> s[i] == 0.0
    ensures Sum(s) == if 0 <= j < |s| then s[j] else 0.0
  {
    if s != [] {
      var n := |s| - 1;
      SumOneCell(s[..n], j);
    }
  }

  /** numpy.nansum: the sum of the finite entries. */
  function NanSum(s: seq<Num>): real
  {
    if s == [] then 0.0
    else NanSum(s[..|s| - 1]) + (if s[|s| - 1].Fin? then s[|s| - 1].r else 0.0)
  }

  /** numpy get_data(nan=0.0): every NaN cell read as 0.0. */
  function NanToZero(s: seq<Num>): (r: seq<real>)
    ensures |r| == |s|
    ensures forall i :: 0 <= i < |s| ==> r[i] == (if s[i].Fin? then s[i].r else 0.0)
  {
    seq(|s|, i requires 0 <= i < |s| => if s[i].Fin? then s[i].r else 0.0)
  }

  lemma {:induction false} NanSumOfZeroFilled(s: seq<Num>)
    ensures Sum(NanToZero(s)) == NanSum(s)
  {
    if s != [] {
      NanSumOfZeroFilled(s[..|s| - 1]);
      assert NanToZero(s)[..|s| - 1] == NanToZero(s[..|s| - 1]);
    }
  }

  // ---------------------------------------------------------------------
  // Decimal text

  predicate IsDigit(c: char) { '0' <= c <= '9' }

  predicate AllDigits(s: string) { forall i :: 0 <= i < |s| ==> IsDigit(s[i]) }

  function DigitsValue(s: string): nat
    requires AllDigits(s)
  {
    if s == [] then 0 else DigitsValue(s[..|s| - 1]) * 10 + (s[|s| - 1] as int - '0' as int)
  }

  function Pow10(n: nat): (p: nat)
    ensures p >= 1
  {
    if n == 0 then 1 else 10 * Pow10(n - 1)
  }

  function IndexOf(s: string, c: char): (i: nat)
    ensures i <= |s|
    ensures i < |s| ==> s[i] == c
    ensures forall j :: 0 <= j < i ==> s[j] != c
  {
    if s == [] then 0 else if s[0] == c then 0 else 1 + IndexOf(s[1..], c)
  }

  /** Unsigned decimal text: digits with at most one '.', at least one digit. */
  function ParseUnsigned(s: string): Option<real>
  {
    var dot := IndexOf(s, '.');
    var whole := s[..dot];
    var frac := if dot < |s| then s[dot + 1..] else "";
    if AllDigits(whole) && AllDigits(frac) && |whole| + |frac| > 0 then
      Some(DigitsValue(whole) as real + DigitsValue(frac) as real / Pow10(|frac|) as real)
    else None
  }

  /** The whitespace str.strip() removes: tab, line feed, vertical tab,
      form feed, carriage return and space. */
  predicate IsSpace(c: char)
  {
    9 <= c as int <= 13 || c == ' '
  }

  /** s without its leading and trailing whitespace. */
  function Strip(s: string): (t: string)
    ensures |t| <= |s|
    ensures t != [] ==> !IsSpace(t[0]) && !IsSpace(t[|t| - 1])
  {
    if s != [] && IsSpace(s[0]) then Strip(s[1..])
    else if s != [] && IsSpace(s[|s| - 1]) then Strip(s[..|s| - 1])
    else s
  }

  /** The index of the first 'e' or 'E' of s, or |s|. */
  function ExponentAt(s: string): (i: nat)
    ensures i <= |s|
    ensures i < |s| ==> s[i] == 'e' || s[i] == 'E'
    ensures forall j :: 0 <= j < i ==> s[j] != 'e' && s[j] != 'E'
  {
    if s == [] then 0 else if s[0] == 'e' || s[0] == 'E' then 0 else 1 + ExponentAt(s[1..])
  }

  /** An exponent: an optional sign, then at least one digit. */
  function ParseExponent(s: string): Option<int>
  {
    if s != [] && (s[0] == '-' || s[0] == '+') then
      if |s| > 1 && AllDigits(s[1..]) then
        Some(if s[0] == '-' then -(DigitsValue(s[1..]) as int) else DigitsValue(s[1..]))
      else None
    else if s != [] && AllDigits(s) then Some(DigitsValue(s))
    else None
  }

  /** x * 10^e. */
  function Scaled(x: real, e: int): (r: real)
    ensures e >= 0 ==> r == x * Pow10(e) as real
    ensures e < 0 ==> r * Pow10(-e) as real == x
  {
    if e >= 0 then x * Pow10(e) as real else x / Pow10(-e) as real
  }

  /** Unsigned decimal text with an optional exponent. */
  function ParseScientific(s: string): Option<real>
  {
    var e := ExponentAt(s);
    if e == |s| then ParseUnsigned(s)
    else
      match (ParseUnsigned(s[..e]), ParseExponent(s[e + 1..]))
      case (Some(m), Some(x)) => Some(Scaled(m, x))
      case _ => None
  }

  /** 'nan' in any case. */
  predicate IsNanText(s: string)
  {
    |s| == 3 && (s[0] == 'n' || s[0] == 'N') && (s[1] == 'a' || s[1] == 'A') && (s[2] == 'n' || s[2] == 'N')
  }

  /** An unsigned number: 'nan' or decimal text. */
  function ParseMagnitude(s: string): Option<Num>
  {
    if IsNanText(s) then Some(NaN)
    else
      match ParseScientific(s)
      case Some(r) => Some(Fin(r))
      case None => None
  }

  /** A signed number: an optional sign, then 'nan' or decimal text. */
  function ParseSigned(t: string): Option<Num>
  {
    if t == [] then None
    else if t[0] == '-' then
      match ParseMagnitude(t[1..])
      case Some(Fin(r)) => Some(Fin(-r))
      case other => other
    else if t[0] == '+' then ParseMagnitude(t[1..])
    else ParseMagnitude(t)
  }

  /** The forms of Python's float(str): surrounding whitespace, an optional
      sign, then 'nan' or digits with an optional fraction and an optional
      exponent. */
  function ParseDecimal(s: string): Option<Num>
  {
    ParseSigned(Strip(s))
  }

  /** Text that is all whitespace. */
  predicate AllSpace(s: string)
  {
    forall i :: 0 <= i < |s| ==> IsSpace(s[i])
  }

  /** Stripping removes exactly the whitespace around a text that neither
      starts nor ends with whitespace. */
  lemma {:induction false} StripPadded(before: string, t: string, after: string)
    requires AllSpace(before) && AllSpace(after)
    requires t != [] ==> !IsSpace(t[0]) && !IsSpace(t[|t| - 1])
    ensures Strip(before + t + after) == t
    decreases |before| + |after|
  {
    var s := before + t + after;
    if before != [] {
      assert Strip(s) == Strip(s[1..]) by { assert s[0] == before[0]; }
      assert s[1..] == before[1..] + t + after;
      StripPadded(before[1..], t, after);
    } else if after != [] && t == [] {
      assert Strip(s) == Strip(s[1..]) by { assert s[0] == after[0]; }
      assert s[1..] == before + t + after[1..];
      StripPadded(before, t, after[1..]);
    } else if after != [] {
      assert Strip(s) == Strip(s[..|s| - 1]) by { assert s[0] == t[0] && s[|s| - 1] == after[|after| - 1]; }
      assert s[..|s| - 1] == before + t + after[..|after| - 1];
      StripPadded(before, t, after[..|after| - 1]);
    } else {
      assert s == t;
    }
  }

  /** float() ignores the whitespace around a number. */
  lemma PaddingIgnored(before: string, t: string, after: string)
    requires AllSpace(before) && AllSpace(after)
    requires t != [] ==> !IsSpace(t[0]) && !IsSpace(t[|t| - 1])
    ensures ParseDecimal(before + t + after) == ParseDecimal(t)
  {
    StripPadded(before, t, after);
    StripPadded([], t, []);
    assert [] + t + [] == t;
    assert Strip(before + t + after) == Strip(t);
  }

  /** Text without an exponent mark. */
  predicate NoExponentMark(s: string)
  {
    forall i :: 0 <= i < |s| ==> s[i] != 'e' && s[i] != 'E'
  }

  /** float() reads a mantissa, 'e' and an exponent as the mantissa times
      ten to the exponent. */
  lemma ExponentRead(m: string, x: string)
    requires NoExponentMark(m) && ParseUnsigned(m).Some? && ParseExponent(x).Some?
    ensures ParseScientific(m + "e" + x) == Some(Scaled(ParseUnsigned(m).value, ParseExponent(x).value))
  {
    var s := m + "e" + x;
    assert s[|m|] == 'e';
    assert ExponentAt(s) == |m|;
    assert s[..|m|] == m;
    assert s[|m| + 1..] == x;
  }

  /** 'nan' reads as NaN whatever its case and sign. */
  lemma NanRead(t: string)
    requires IsNanText(t)
    ensures ParseSigned(t) == Some(NaN)
    ensures ParseSigned("-" + t) == Some(NaN)
    ensures ParseSigned("+" + t) == Some(NaN)
  {
    assert ("-" + t)[1..] == t && ("+" + t)[1..] == t;
  }

  /** A second '.' is refused. */
  lemma SecondPointRefused(a: string, b: string, c: string)
    requires AllDigits(a) && AllDigits(b) && AllDigits(c)
    ensures ParseScientific(a + "." + b + "." + c) == None
  {
    var s := a + "." + b + "." + c;
    assert ExponentAt(s) == |s|;
    var dot := IndexOf(s, '.');
    assert s[|a|] == '.';
    assert dot == |a|;
    assert s[dot + 1..][|b|] == '.';
    assert !AllDigits(s[dot + 1..]);
  }

  /** Python float(v). */
  function PyFloat(v: Value): (r: Result<Num>)
    ensures r.Err? ==> r.error == TypeError || r.error == ValueError
    ensures v.VNone? ==> r == Err(TypeError)
    ensures v.VInt? ==> r == Ok(Fin(v.i as real))
    ensures v.VFloat? ==> r == Ok(v.f)
    ensures v.VStr? && ParseDecimal(v.s).Some? ==> r == Ok(ParseDecimal(v.s).value)
    ensures v.VStr? && ParseDecimal(v.s).None? ==> r == Err(ValueError)
  {
    match v
    case VNone => Err(TypeError)
    case VBool(b) => Ok(Fin(if b then 1.0 else 0.0))
    case VInt(i) => Ok(Fin(i as real))
    case VFloat(f) => Ok(f)
    case VStr(s) =>
      (match ParseDecimal(s)
       case Some(x) => Ok(x)
       case None => Err(ValueError))
    case VList(_) => Err(TypeError)
    case VDict(_) => Err(TypeError)
  }

  function DigitChar(d: nat): char
    requires d < 10
  {
    ('0' as int + d) as char
  }

  function NatToString(n: nat): (s: string)
    ensures |s| > 0 && AllDigits(s)
  {
    if n < 10 then [DigitChar(n)] else NatToString(n / 10) + [DigitChar(n % 10)]
  }

  /** '%i' % n. */
  function IntToString(n: int): string
  {
    if n < 0 then "-" + NatToString(-n) else NatToString(n)
  }

  /** Reading back a formatted integer gives the integer. */
  lemma {:induction false} NatToStringRoundTrip(n: nat)
    ensures DigitsValue(NatToString(n)) == n
  {
    if n >= 10 {
      var s := NatToString(n);
      NatToStringRoundTrip(n / 10);
      assert s[..|s| - 1] == NatToString(n / 10);
    }
  }

  // ---------------------------------------------------------------------
  // Python's ordering of strings

  /** a < b for Python strings: lexicographic by character code. */
  predicate LexLess(a: string, b: string)
  {
    if a == [] then b != []
    else if b == [] then false
    else if a[0] != b[0] then a[0] < b[0]
    else LexLess(a[1..], b[1..])
  }

  lemma {:induction false} LexLessIrreflexive(a: string)
    ensures !LexLess(a, a)
  {
    if a != [] { LexLessIrreflexive(a[1..]); }
  }

  lemma {:induction false} LexLessTransitive(a: string, b: string, c: string)
    requires LexLess(a, b) && LexLess(b, c)
    ensures LexLess(a, c)
  {
    if a != [] && b != [] && c != [] && a[0] == b[0] && b[0] == c[0] {
      LexLessTransitive(a[1..], b[1..], c[1..]);
    }
  }

  lemma {:induction false} LexLessTotal(a: string, b: string)
    requires a != b
    ensures LexLess(a, b) || LexLess(b, a)
  {
    if a != [] && b != [] && a[0] == b[0] {
      LexLessTotal(a[1..], b[1..]);
    }
  }
  // ---------------------------------------------------------------------
  // numpy reductions over grids

  /** numpy.nanmax: the largest finite cell, NaN when there is none. */
  function NanMax(g: seq<Num>): (m: Num)
    ensures m.Fin? <==> exists c :: 0 <= c < |g| && g[c].Fin?
    ensures m.Fin? ==> m in g && forall c :: 0 <= c < |g| && g[c].Fin? ==> g[c].r <= m.r
  {
    if g == [] then NaN
    else
      var n := |g| - 1;
      var m := NanMax(g[..n]);
      assert forall c :: 0 <= c < n ==> g[..n][c] == g[c];
      if g[n].NaN? then m
      else if m.NaN? || g[n].r > m.r then g[n]
      else m
  }

  /** numpy.nanmin: the smallest finite cell, NaN when there is none. */
  function NanMin(g: seq<Num>): (m: Num)
    ensures m.Fin? <==> exists c :: 0 <= c < |g| && g[c].Fin?
    ensures m.Fin? ==> m in g && forall c :: 0 <= c < |g| && g[c].Fin? ==> m.r <= g[c].r
  {
    if g == [] then NaN
    else
      var n := |g| - 1;
      var m := NanMin(g[..n]);
      assert forall c :: 0 <= c < n ==> g[..n][c] == g[c];
      if g[n].NaN? then m
      else if m.NaN? || g[n].r < m.r then g[n]
      else m
  }

  /** numpy.nanmax(R) == 0 == numpy.nanmin(R); an empty grid makes numpy
      raise ValueError. */
  function ZeroImpact(g: seq<Num>): (r: Result<bool>)
    ensures r.Err? <==> g == []
    ensures r.Err? ==> r.error == ValueError
  {
    if g == [] then Err(ValueError) else Ok(NanMax(g) == Fin(0.0) && NanMin(g) == Fin(0.0))
  }

  /** On a grid without NaN cells the zero-impact test holds exactly when
      every cell is 0. */
  lemma ZeroImpactAllZero(g: seq<Num>)
    requires g != []
    requires forall c :: 0 <= c < |g| ==> g[c].Fin?
    ensures ZeroImpact(g) == Ok(true) <==> forall c :: 0 <= c < |g| ==> g[c] == Fin(0.0)
  {
    assert g[0].Fin?;
    if forall c :: 0 <= c < |g| ==> g[c] == Fin(0.0) {
      var mx := NanMax(g);
      var mn := NanMin(g);
      assert mx in g && mn in g;
    }
  }
}
