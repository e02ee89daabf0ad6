/**
 * The Python values and exceptions that the constraint stores of autode/constraints.py
 * receive and raise: fragment ids, fragment entry dictionaries, and the built-in
 * conversions `int(...)` and `isinstance(..., int)` that the stores apply to them.
 */
module PyValues {
  import opened Wrappers

  /** A Python value as it can appear as a fragment id or inside a fragment entry.
      Dictionaries are keyed by strings, as fragment entries are. */
  datatype PyValue =
    | PNone
    | PBool(b: bool)
    | PInt(i: int)
    | PFloat(x: real)
    | PStr(s: string)
    | PList(items: seq<PyValue>)
    | PDict(fields: map<string, PyValue>)

  /** The exception raised by an operation, one constructor per cause. */
  datatype PyError =
    | KeyNotIterable        // ValueError: the distance/angle key cannot be iterated
    | NonPositiveDistance   // ValueError: a distance value <= 0
    | NegativeIndex         // ValueError: an atom index < 0
    | NotADict              // ValueError: a fragment entry that is not a dict
    | BoundsNotIntegers     // ValueError: block entry whose start or end is not an int
    | AtomIdxsNotIntegers   // ValueError: atom_idxs holding something that is not an int
    | MissingFragmentKeys   // ValueError: neither {start, end, strategy} nor {atom_idxs, strategy}
    | StrategyNotString     // ValueError: strategy that is not a str
    | NotAnIntegerLiteral   // ValueError: int() of a string that is not an integer literal
    | NoIntConversion       // TypeError: int() of None, a list or a dict
    | NoLength              // TypeError: len() of an atom_idxs value that has none
    | KeyNotSortable        // TypeError: sorted() of a distance key that cannot be iterated
    | MissingKey            // KeyError: lookup of a key that is not present
    | Incomparable          // TypeError: max() or `<=` over values that are not numbers
    | EmptyMaximum          // ValueError: max() of an empty list
    | AtomIndexTooLarge     // ValueError: a fragment refers to atoms beyond the molecule
    | NoFragments           // AttributeError: `.kind` looked up on None
    | KindUnset             // AttributeError: `.kind` read before any entry assigned it

  /** The exceptions that are instances of ValueError. */
  predicate IsValueError(e: PyError) {
    e in {KeyNotIterable, NonPositiveDistance, NegativeIndex, NotADict, BoundsNotIntegers,
          AtomIdxsNotIntegers, MissingFragmentKeys, StrategyNotString, NotAnIntegerLiteral,
          EmptyMaximum, AtomIndexTooLarge}
  }

  /** `isinstance(v, int)`: bool is a subclass of int. */
  predicate IsInt(v: PyValue) {
    v.PInt? || v.PBool?
  }

  /** The values that compare with an int under `<=` and `max`. */
  predicate IsNumber(v: PyValue) {
    IsInt(v) || v.PFloat?
  }

  /** The numeric value of a number; 0 for anything else. */
  function NumberValue(v: PyValue): real {
    match v
    case PInt(i) => i as real
    case PBool(b) => if b then 1.0 else 0.0
    case PFloat(x) => x
    case _ => 0.0
  }

  /** `int(x)` of a float: truncation toward zero. */
  function Trunc(x: real): (r: int)
    ensures 0.0 <= x ==> 0 <= r && r as real <= x < r as real + 1.0
    ensures x < 0.0 ==> r <= 0 && r as real - 1.0 < x <= r as real
  {
    if x >= 0.0 then x.Floor else -((-x).Floor)
  }

  predicate IsDigit(c: char) {
    '0' <= c <= '9'
  }

  predicate AllDigits(s: string) {
    forall i | 0 <= i < |s| :: IsDigit(s[i])
  }

  /** The value of a string of decimal digits, most significant first. */
  function DigitsValue(s: string): nat
    requires AllDigits(s)
  {
    if s == [] then 0
    else DigitsValue(s[..|s| - 1]) * 10 + (s[|s| - 1] as int - '0' as int)
  }

  /** `int(s)` for a string: an optional sign followed by one or more decimal digits. */
  function ParseInt(s: string): Result<int, PyError> {
    var signed := |s| > 0 && (s[0] == '-' || s[0] == '+');
    var digits := if signed then s[1..] else s;
    if digits == [] || !AllDigits(digits) then Err(NotAnIntegerLiteral)
    else if signed && s[0] == '-' then Ok(-(DigitsValue(digits) as int))
    else Ok(DigitsValue(digits))
  }

  /** `int(v)`, the normalisation applied to fragment ids. */
  function IntOf(v: PyValue): Result<int, PyError> {
    match v
    case PInt(i) => Ok(i)
    case PBool(b) => Ok(if b then 1 else 0)
    case PFloat(x) => Ok(Trunc(x))
    case PStr(s) => ParseInt(s)
    case _ => Err(NoIntConversion)
  }

  function DigitChar(d: nat): (c: char)
    requires d < 10
    ensures IsDigit(c) && c as int - '0' as int == d
  {
    ('0' as int + d) as char
  }

  /** The decimal digits of n, as `str(n)` writes them for n >= 0. */
  function DigitsOf(n: nat): (s: string)
    ensures |s| > 0 && AllDigits(s)
  {
    if n < 10 then [DigitChar(n)] else DigitsOf(n / 10) + [DigitChar(n % 10)]
  }

  /** `str(n)`. */
  function Show(n: int): string {
    if n < 0 then "-" + DigitsOf(-n) else DigitsOf(n)
  }

  lemma {:induction false} DigitsRoundTrip(n: nat)
    ensures DigitsValue(DigitsOf(n)) == n
  {
    if n >= 10 {
      var s := DigitsOf(n);
      assert s[..|s| - 1] == DigitsOf(n / 10);
      DigitsRoundTrip(n / 10);
    }
  }

  /** A string of digits without a sign parses to its value. */
  lemma ParseUnsigned(d: string)
    requires |d| > 0 && AllDigits(d)
    ensures ParseInt(d) == Ok(DigitsValue(d))
  {
    assert IsDigit(d[0]);
  }

  /** A minus sign followed by digits parses to the negated value. */
  lemma ParseNegative(d: string)
    requires |d| > 0 && AllDigits(d)
    ensures ParseInt("-" + d) == Ok(-(DigitsValue(d) as int))
  {
    var s := "-" + d;
    assert s[0] == '-';
    assert s[1..] == d;
  }

  /** Digits, with a minus sign in front or not, are read as their value, negated
      or not. */
  lemma SignedDigitsParse(d: string, negative: bool)
    requires |d| > 0 && AllDigits(d)
    ensures IntOf(PStr(if negative then "-" + d else d)) ==
              Ok(if negative then -(DigitsValue(d) as int) else DigitsValue(d))
  {
    if negative {
      ParseNegative(d);
    } else {
      ParseUnsigned(d);
    }
  }

  /** `int(str(n)) == n`: a fragment id given as the text of an integer addresses that integer. */
  lemma ParseShowRoundTrip(n: int)
    ensures IntOf(PStr(Show(n))) == Ok(n)
  {
    var m: nat := if n < 0 then -n else n;
    var d := DigitsOf(m);
    DigitsRoundTrip(m);
    SignedDigitsParse(d, n < 0);
    assert Show(n) == if n < 0 then "-" + d else d;
  }

  /** The spellings 1, True, 1.9, "1" and "+1" all normalise to the id 1; -0.5 truncates toward zero. */
  lemma IntOfNormalises()
    ensures IntOf(PInt(1)) == IntOf(PBool(true)) == IntOf(PFloat(1.9)) == Ok(1)
    ensures IntOf(PStr("1")) == IntOf(PStr("+1")) == Ok(1)
    ensures IntOf(PFloat(-0.5)) == Ok(0) && IntOf(PStr("-7")) == Ok(-7)
    ensures IntOf(PStr("1.5")) == Err(NotAnIntegerLiteral) && IntOf(PStr("")) == Err(NotAnIntegerLiteral)
    ensures IntOf(PNone) == Err(NoIntConversion)
  {
    assert "+1"[1..] == "1";
    assert "-7"[1..] == "7";
    assert !IsDigit("1.5"[1]);
  }
}
