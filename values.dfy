/** Python's dynamic values as the validators and the import see them, with the
    built-in conversions the source relies on: truth value, `int()`, `float()`,
    `Decimal(str())`, `str()` and pandas' `notna`. */
module Values {

  import opened Wrappers
  import opened Text
  import opened Dates

  /** A Python value. A float is carried as the text `repr` prints for it (the
      shortest decimal that reads back as the same double), a dict as its
      entries in insertion order, a datetime as its date and its time of day. */
  datatype Value =
    | VNone
    | VBool(b: bool)
    | VInt(i: int)
    | VFloat(repr: string)
    | VStr(s: string)
    | VDate(date: CalendarDate)
    | VDateTime(day: CalendarDate, hour: nat, minute: nat, second: nat)
    | VList(items: seq<Value>)
    | VDict(entries: seq<(string, Value)>)

  /** The values a pandas cell read from a spreadsheet can hold. */
  predicate IsScalar(v: Value) { !v.VList? && !v.VDict? }

  type Cell = v: Value | IsScalar(v) witness VNone

  // ---------------------------------------------------------------------
  // Numbers

  /** A parsed `Decimal` or `float`. */
  datatype Number = Finite(value: real) | Infinite(negative: bool) | NaN

  function Scale(e: int): (r: real)
    ensures r > 0.0
  {
    if e >= 0 then Pow10(e) as real else 1.0 / (Pow10(-e) as real)
  }

  /** `digits[.digits]` or `.digits`: the integer and the fraction digits. */
  function Mantissa(m: string): Option<(string, string)> {
    var parts := Split(m, '.');
    if |parts| == 1 then
      if parts[0] != "" && IsDigits(parts[0]) then Some((parts[0], "")) else None
    else if |parts| == 2 && IsDigits(parts[0]) && IsDigits(parts[1]) && parts[0] + parts[1] != "" then
      Some((parts[0], parts[1]))
    else None
  }

  /** An optionally signed, non-empty run of digits. */
  function SignedDigits(x: string): (r: Option<int>)
    ensures r.Some? ==> x != []
  {
    if x != [] && (x[0] == '+' || x[0] == '-') then
      if |x| > 1 && IsDigits(x[1..]) then
        Some(if x[0] == '-' then -(DigitsValue(x[1..]) as int) else DigitsValue(x[1..]))
      else None
    else if x != [] && IsDigits(x) then Some(DigitsValue(x))
    else None
  }

  /** An unsigned decimal literal with an optional exponent, already lower-cased. */
  function ParseUnsigned(low: string): Option<real> {
    var parts := Split(low, 'e');
    if |parts| > 2 then None
    else
      match Mantissa(parts[0])
      case None => None
      case Some((whole, frac)) =>
        var exp := if |parts| == 2 then SignedDigits(parts[1]) else Some(0);
        match exp
        case None => None
        case Some(e) => Some(DigitsValue(whole + frac) as real * Scale(e - |frac|))
  }

  /** The stripped text split into its sign and its lower-cased body. */
  function SignAndBody(s: string): (bool, string) {
    var t := Strip(s);
    if t != [] && (t[0] == '+' || t[0] == '-') then (t[0] == '-', LowerAscii(t[1..]))
    else (false, LowerAscii(t))
  }

  predicate IsInfinityWord(low: string) { low == "inf" || low == "infinity" }

  /** `nan` or `snan` followed by optional diagnostic digits. */
  predicate IsNaNWord(low: string) {
    (StartsWith(low, "nan") && IsDigits(low[3..])) || (StartsWith(low, "snan") && IsDigits(low[4..]))
  }

  /** The finite reading of a signed body. */
  function SignedFinite(neg: bool, low: string): Option<Number> {
    match ParseUnsigned(low)
    case None => None
    case Some(r) => Some(Finite(if neg then -r else r))
  }

  /** `Decimal(s)`; `None` is `InvalidOperation`. */
  function ParseDecimal(s: string): Option<Number> {
    var (neg, low) := SignAndBody(s);
    if IsInfinityWord(low) then Some(Infinite(neg))
    else if IsNaNWord(low) then Some(NaN)
    else SignedFinite(neg, low)
  }

  /** `float(s)` for a string; `None` is `ValueError`. */
  function ParseFloat(s: string): Option<Number> {
    var (neg, low) := SignAndBody(s);
    if IsInfinityWord(low) then Some(Infinite(neg))
    else if low == "nan" then Some(NaN)
    else SignedFinite(neg, low)
  }

  /** `int(s)` for a string; `None` is `ValueError`. */
  function ParseInt(s: string): Option<int> {
    SignedDigits(Strip(s))
  }

  /** The value of a float from its `repr`. */
  function FloatOf(repr: string): Number {
    ParseFloat(repr).GetOr(NaN)
  }

  /** Truncation toward zero, as `int()` of a float. */
  function Truncate(r: real): (i: int)
    ensures r >= 0.0 ==> 0.0 <= i as real <= r < i as real + 1.0
    ensures r < 0.0 ==> i as real - 1.0 < r <= i as real <= 0.0
  {
    if r >= 0.0 then r.Floor else -((-r).Floor)
  }

  // ---------------------------------------------------------------------
  // Conversions

  /** Python's truth value. */
  predicate Truthy(v: Value) {
    match v
    case VNone => false
    case VBool(b) => b
    case VInt(i) => i != 0
    case VFloat(t) => FloatOf(t) != Finite(0.0)
    case VStr(s) => s != ""
    case VDate(_) => true
    case VDateTime(_, _, _, _) => true
    case VList(l) => l != []
    case VDict(e) => e != []
  }

  /** The exceptions the conversions raise. */
  datatype PyError = ValueError | TypeError | OverflowError

  /** `int(v)`. */
  function PyInt(v: Value): Result<int, PyError> {
    match v
    case VBool(b) => Ok(if b then 1 else 0)
    case VInt(i) => Ok(i)
    case VFloat(t) =>
      (match FloatOf(t)
       case Finite(r) => Ok(Truncate(r))
       case Infinite(_) => Err(OverflowError)
       case NaN => Err(ValueError))
    case VStr(s) => if ParseInt(s).Some? then Ok(ParseInt(s).value) else Err(ValueError)
    case _ => Err(TypeError)
  }

  /** `float(v)`. */
  function PyFloat(v: Value): Result<Number, PyError> {
    match v
    case VBool(b) => Ok(Finite(if b then 1.0 else 0.0))
    case VInt(i) => Ok(Finite(i as real))
    case VFloat(t) => Ok(FloatOf(t))
    case VStr(s) => if ParseFloat(s).Some? then Ok(ParseFloat(s).value) else Err(ValueError)
    case _ => Err(TypeError)
  }

  /** `Decimal(str(v))`; `None` is `InvalidOperation`. `str` of `None`, of a
      bool, of a date and of a container is never a decimal literal. */
  function DecimalOfStr(v: Value): Option<Number> {
    match v
    case VInt(i) => Some(Finite(i as real))
    case VFloat(t) => ParseDecimal(t)
    case VStr(s) => ParseDecimal(s)
    case _ => None
  }

  /** `x < 0` for a `Decimal`; `None` when the comparison raises `InvalidOperation` (a NaN). */
  function DecimalNegative(x: Number): Option<bool> {
    match x
    case Finite(r) => Some(r < 0.0)
    case Infinite(neg) => Some(neg)
    case NaN => None
  }

  /** `pd.notna(v)` for a cell: neither `None` nor a NaN float. */
  predicate NotNa(v: Value) {
    !v.VNone? && !(v.VFloat? && FloatOf(v.repr) == NaN)
  }

  function TwoDigits(n: nat): string { Padded(n, 2) }

  /** `str(v)` for a cell. */
  function PyStr(v: Cell): string {
    match v
    case VNone => "None"
    case VBool(b) => if b then "True" else "False"
    case VInt(i) => IntToString(i)
    case VFloat(t) => t
    case VStr(s) => s
    case VDate(d) => IsoFormat(d)
    case VDateTime(d, h, m, sec) => IsoFormat(d) + " " + TwoDigits(h) + ":" + TwoDigits(m) + ":" + TwoDigits(sec)
  }

  /** `key in v` followed by `v[key]`, for a string key. */
  datatype Lookup = Absent | Present(value: Value) | Raises

  function FirstEntry(entries: seq<(string, Value)>, key: string): Option<Value> {
    if entries == [] then None
    else if entries[0].0 == key then Some(entries[0].1)
    else FirstEntry(entries[1..], key)
  }

  /** `if key in v: v[key]`. On a string `in` is a substring test and indexing
      by a string raises; on a list indexing by a string raises; on a scalar
      that is not a string `in` raises. */
  function Get(v: Value, key: string): Lookup {
    match v
    case VDict(entries) => if FirstEntry(entries, key).Some? then Present(FirstEntry(entries, key).value) else Absent
    case VStr(s) => if Contains(s, key) then Raises else Absent
    case VList(l) => if VStr(key) in l then Raises else Absent
    case _ => Raises
  }

  /** `len(v)`; `None` is `TypeError`. */
  function PyLen(v: Value): Option<nat> {
    match v
    case VStr(s) => Some(|s|)
    case VList(l) => Some(|l|)
    case VDict(e) => Some(|e|)
    case _ => None
  }

  /** `for x in v`: a list's items, a string's characters, a dict's keys; `None` is `TypeError`. */
  function Iterate(v: Value): (r: Option<seq<Value>>)
    ensures r.Some? && v.VList? ==> r.value == v.items
  {
    match v
    case VList(l) => Some(l)
    case VStr(s) => Some(seq(|s|, i requires 0 <= i < |s| => VStr([s[i]])))
    case VDict(e) => Some(seq(|e|, i requires 0 <= i < |e| => VStr(e[i].0)))
    case _ => None
  }

  // ---------------------------------------------------------------------
  // Round trips through text

  lemma DigitsLowered(s: string)
    requires IsDigits(s)
    ensures LowerAscii(s) == s
  {
  }

  lemma NatToStringUnpadded(n: nat)
    ensures Strip(NatToString(n)) == NatToString(n)
  {
    var s := NatToString(n);
    StripUnpadded(s);
  }

  lemma IntToStringUnpadded(i: int)
    ensures Strip(IntToString(i)) == IntToString(i)
  {
    var s := IntToString(i);
    StripUnpadded(s);
  }

  /** `int(str(i)) == i`. */
  lemma IntRoundTrip(i: int)
    ensures ParseInt(IntToString(i)) == Some(i)
  {
    var n: nat := if i < 0 then -i else i;
    IntToStringUnpadded(i);
    NatToStringValue(n);
    if i < 0 {
      assert IntToString(i)[1..] == NatToString(n);
    }
  }

  /** A run of digits reads as the same number through the decimal grammar. */
  lemma DigitsAsDecimal(digits: string)
    requires digits != [] && IsDigits(digits)
    ensures ParseUnsigned(digits) == Some(DigitsValue(digits) as real)
  {
    SplitNone(digits, 'e');
    SplitNone(digits, '.');
    assert digits + "" == digits;
  }

  /** What `int()` accepts is a sign and a non-empty run of digits. */
  lemma IntBody(s: string)
    requires ParseInt(s).Some?
    ensures SignAndBody(s).1 != [] && IsDigits(SignAndBody(s).1)
    ensures ParseInt(s).value == if SignAndBody(s).0 then -(DigitsValue(SignAndBody(s).1) as int) else DigitsValue(SignAndBody(s).1)
  {
    var t := Strip(s);
    var body := if t[0] == '+' || t[0] == '-' then t[1..] else t;
    DigitsLowered(body);
  }

  /** A signed run of digits is a decimal literal of the same value. */
  lemma DigitsBodyDecimal(s: string, neg: bool, low: string)
    requires SignAndBody(s) == (neg, low)
    requires low != [] && IsDigits(low)
    ensures ParseDecimal(s) == Some(Finite(if neg then -(DigitsValue(low) as real) else DigitsValue(low) as real))
  {
    NotAWord(low);
    DigitsAsDecimal(low);
    SignedFiniteOf(neg, low, DigitsValue(low) as real);
  }

  lemma SignedFiniteOf(neg: bool, low: string, r: real)
    requires ParseUnsigned(low) == Some(r)
    ensures SignedFinite(neg, low) == Some(Finite(if neg then -r else r))
  {
  }

  /** Text that starts with a digit is neither an infinity nor a NaN. */
  lemma NotAWord(low: string)
    requires low != [] && IsDigit(low[0])
    ensures !IsInfinityWord(low) && !IsNaNWord(low)
  {
    assert low[0] != 'i' && low[0] != 'n' && low[0] != 's';
  }

  /** Whatever `int()` accepts, `Decimal()` accepts with the same value. */
  lemma IntIsDecimal(s: string)
    requires ParseInt(s).Some?
    ensures ParseDecimal(s) == Some(Finite(ParseInt(s).value as real))
  {
    IntBody(s);
    DigitsBodyDecimal(s, SignAndBody(s).0, SignAndBody(s).1);
  }

  /** `Decimal(str(i))` is `i`. */
  lemma IntStrDecimal(i: int)
    ensures DecimalOfStr(VStr(IntToString(i))) == Some(Finite(i as real))
  {
    IntRoundTrip(i);
    IntTextDecimal(IntToString(i), i);
  }

  lemma IntTextDecimal(s: string, i: int)
    requires ParseInt(s) == Some(i)
    ensures DecimalOfStr(VStr(s)) == Some(Finite(i as real))
  {
    IntIsDecimal(s);
  }
}
