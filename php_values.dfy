/**
 * The PHP scalar values that occur in decoded submission data and in the
 * records sent to the CRM, and the handful of PHP conversions the exporters
 * apply to them: empty(), isset(), `??`, string conversion, the (int) cast,
 * str_replace of one character, and the loose `==` that `switch` uses.
 */
module PhpValues {

  datatype Option<+T> = None | Some(value: T)

  /** A scalar as json_decode() produces it (floats are not modelled). */
  datatype Value = Str(s: string) | Int(i: int) | Bool(b: bool) | Null

  /** A decoded JSON object: submission_data, an order's data blob. */
  type Data = map<string, Value>

  const MinInt64: int := -0x8000_0000_0000_0000
  const MaxInt64: int := 0x7FFF_FFFF_FFFF_FFFF

  /** PHP's empty() on a scalar: NULL, FALSE, 0, "" and "0". */
  predicate Empty(v: Value) {
    match v
    case Null => true
    case Bool(b) => !b
    case Int(i) => i == 0
    case Str(s) => s == "" || s == "0"
  }

  /** isset($data[$key]): present and not NULL. */
  predicate IsSet(data: Data, key: string) {
    key in data && data[key] != Null
  }

  /** $data[$key]: an absent key reads as NULL. */
  function Get(data: Data, key: string): Value {
    if key in data then data[key] else Null
  }

  /** $data[$key] ?? $default */
  function Coalesce(data: Data, key: string, default: Value): Value {
    if IsSet(data, key) then data[key] else default
  }

  predicate IsDigit(c: char) {
    '0' <= c <= '9'
  }

  function DigitChar(d: nat): (c: char)
    requires d < 10
    ensures IsDigit(c)
  {
    (d + '0' as int) as char
  }

  function DigitValue(c: char): (d: nat)
    requires IsDigit(c)
    ensures d < 10
  {
    c as int - '0' as int
  }

  predicate AllDigits(s: string) {
    forall k :: 0 <= k < |s| ==> IsDigit(s[k])
  }

  /** The decimal digits of n, most significant first, as PHP prints an integer. */
  function Decimal(n: nat): (r: string)
    ensures |r| > 0 && AllDigits(r)
  {
    if n < 10 then [DigitChar(n)] else Decimal(n / 10) + [DigitChar(n % 10)]
  }

  /** The number a string of decimal digits denotes. */
  function DigitsValue(ds: string): nat
    requires AllDigits(ds)
  {
    if ds == [] then 0 else DigitsValue(ds[..|ds| - 1]) * 10 + DigitValue(ds[|ds| - 1])
  }

  /** String conversion of a scalar: (string) $v, as str_replace() and `.` apply it. */
  function StrOf(v: Value): string {
    match v
    case Str(s) => s
    case Int(i) => if i < 0 then "-" + Decimal(-i) else Decimal(i)
    case Bool(b) => if b then "1" else ""
    case Null => ""
  }

  predicate IsSpace(c: char) {
    c == ' ' || c == '\t' || c == '\n' || c == '\r' || c == '\U{B}' || c == '\U{C}'
  }

  function SkipSpace(s: string): (r: string)
    ensures |r| <= |s|
    ensures r == [] || !IsSpace(r[0])
  {
    if s != [] && IsSpace(s[0]) then SkipSpace(s[1..]) else s
  }

  /** The longest prefix of s made of decimal digits. */
  function LeadingDigits(s: string): (r: string)
    ensures r <= s && AllDigits(r)
    ensures |r| < |s| ==> !IsDigit(s[|r|])
  {
    if s == [] || !IsDigit(s[0]) then [] else [s[0]] + LeadingDigits(s[1..])
  }

  /** A 64-bit PHP integer saturates when a numeric string is out of range. */
  function Clamp64(x: int): (r: int)
    ensures MinInt64 <= r <= MaxInt64
    ensures MinInt64 <= x <= MaxInt64 ==> r == x
  {
    if x < MinInt64 then MinInt64 else if x > MaxInt64 then MaxInt64 else x
  }

  /** (int) $s: leading white space, an optional sign, then the leading digits. */
  function ParseIntPrefix(s: string): (r: int)
    ensures MinInt64 <= r <= MaxInt64
    ensures LeadingDigits(SkipSpace(s)) == [] && !(SkipSpace(s) != [] && SkipSpace(s)[0] in "+-") ==> r == 0
  {
    var t := SkipSpace(s);
    if t != [] && (t[0] == '-' || t[0] == '+') then
      var n: int := DigitsValue(LeadingDigits(t[1..]));
      Clamp64(if t[0] == '-' then -n else n)
    else
      Clamp64(DigitsValue(LeadingDigits(t)))
  }

  /** (int) $v: a JSON integer as it is, a string by its numeric prefix, every empty() value 0. */
  function IntCast(v: Value): (r: int)
    ensures v.Int? ==> r == v.i
    ensures !v.Int? ==> MinInt64 <= r <= MaxInt64
    ensures Empty(v) ==> r == 0
  {
    match v
    case Int(i) => i
    case Bool(b) => if b then 1 else 0
    case Null => 0
    case Str(s) => ZeroStringsCast(); ParseIntPrefix(s)
  }

  /** str_replace($c, '', $s) for a single character c. */
  function RemoveChar(s: string, c: char): (r: string)
    ensures c !in r
    ensures forall x :: x in r <==> x in s && x != c
    ensures multiset(r) == multiset(s)[c := 0]
    ensures |r| <= |s|
  {
    if s == [] then []
    else if s[0] == c then assert s == [s[0]] + s[1..]; RemoveChar(s[1..], c)
    else assert s == [s[0]] + s[1..]; [s[0]] + RemoveChar(s[1..], c)
  }

  /** substr($s, $start) for a non-negative start, as PHP 8 has it: '' past the end. */
  function Substr(s: string, start: nat): (r: string)
    ensures start <= |s| ==> s == s[..start] + r
    ensures start >= |s| ==> r == ""
  {
    if start <= |s| then s[start..] else ""
  }

  /**
   * `$v == $lit` as PHP 8 compares a scalar with a non-numeric string
   * literal; it is how `switch` picks a case. Every case label the exporters
   * switch on is a non-numeric string.
   */
  predicate LooseEquals(v: Value, lit: string)
    ensures !v.Bool? ==> (LooseEquals(v, lit) <==> StrOf(v) == lit)
  {
    match v
    case Str(s) => s == lit
    case Bool(b) => b == !Empty(Str(lit))
    case Null => lit == ""
    case Int(_) => StrOf(v) == lit
  }

  // ---------------------------------------------------------------------
  // Properties of the conversions.
  // ---------------------------------------------------------------------

  /** Reading back the digits PHP prints for n gives n. */
  lemma {:induction false} DecimalValue(n: nat)
    ensures DigitsValue(Decimal(n)) == n
  {
    if n >= 10 {
      DecimalValue(n / 10);
      var d := Decimal(n);
      assert d[..|d| - 1] == Decimal(n / 10);
    }
  }

  lemma {:induction false} LeadingDigitsOfDigits(s: string)
    requires AllDigits(s)
    ensures LeadingDigits(s) == s
  {
    if s != [] {
      LeadingDigitsOfDigits(s[1..]);
    }
  }

  /**
   * The (int) cast of the decimal string of an in-range integer is that
   * integer: an amount or a postal code that arrives as a JSON number and one
   * that arrives as its decimal string are sent as the same integer.
   */
  lemma IntCastOfDecimalString(i: int)
    requires MinInt64 <= i <= MaxInt64
    ensures IntCast(Str(StrOf(Int(i)))) == IntCast(Int(i)) == i
  {
    if i < 0 {
      NegativeDecimalCast(-i);
    } else {
      DecimalValue(i);
      LeadingDigitsOfDigits(Decimal(i));
      assert SkipSpace(Decimal(i)) == Decimal(i);
    }
  }

  lemma NegativeDecimalCast(n: nat)
    requires 0 < n <= -MinInt64
    ensures ParseIntPrefix("-" + Decimal(n)) == -(n as int)
  {
    var s := "-" + Decimal(n);
    DecimalValue(n);
    LeadingDigitsOfDigits(Decimal(n));
    assert SkipSpace(s) == s;
    assert s[1..] == Decimal(n);
  }

  /** str_replace() of one character works piecewise: it keeps the order of what it keeps. */
  lemma {:induction false} RemoveCharAppend(a: string, b: string, c: char)
    ensures RemoveChar(a + b, c) == RemoveChar(a, c) + RemoveChar(b, c)
  {
    if a != [] {
      assert (a + b)[0] == a[0] && (a + b)[1..] == a[1..] + b;
      RemoveCharAppend(a[1..], b, c);
    } else {
      assert a + b == b;
    }
  }

  /** A single character is dropped exactly when it is the one removed. */
  lemma RemoveCharSingle(x: char, c: char)
    ensures RemoveChar([x], c) == if x == c then [] else [x]
  {
  }

  /**
   * empty() holds exactly of the scalars whose string form is '' or "0"
   * (so " ", "00" and "0.0" are not empty).
   */
  lemma EmptyByString(v: Value)
    ensures Empty(v) <==> StrOf(v) == "" || StrOf(v) == "0"
  {
    if v.Int? && v.i != 0 {
      if v.i > 0 {
        DecimalOfPositive(v.i);
      } else {
        assert StrOf(v)[0] == '-';
      }
    }
  }

  /** The decimal form of a positive number is never "0". */
  lemma {:induction false} DecimalOfPositive(n: nat)
    requires n > 0
    ensures Decimal(n) != "0"
  {
    if n >= 10 {
      assert |Decimal(n)| >= 2 by { assert |Decimal(n / 10)| >= 1; }
    }
  }

  /** The empty strings cast to 0. */
  lemma ZeroStringsCast()
    ensures ParseIntPrefix("") == 0 && ParseIntPrefix("0") == 0
  {
    assert SkipSpace("0") == "0";
    assert LeadingDigits("0") == "0";
    assert DigitsValue("0") == 0;
  }

  /** `TRUE == 'label'` holds for every non-empty label, so TRUE takes the first case of a switch. */
  lemma TrueMatchesEveryLabel(lit: string)
    ensures LooseEquals(Bool(true), lit) <==> lit != "" && lit != "0"
  {
  }

  /** Removing a character that does not occur changes nothing. */
  lemma {:induction false} RemoveCharAbsent(s: string, c: char)
    requires c !in s
    ensures RemoveChar(s, c) == s
  {
    if s != [] {
      assert s[1..] <= s[1..];
      assert c !in s[1..] by { assert forall x :: x in s[1..] ==> x in s; }
      RemoveCharAbsent(s[1..], c);
    }
  }

  /** str_replace of one character is idempotent. */
  lemma RemoveCharIdempotent(s: string, c: char)
    ensures RemoveChar(RemoveChar(s, c), c) == RemoveChar(s, c)
  {
    RemoveCharAbsent(RemoveChar(s, c), c);
  }

  /** `switch` on a state value that is a string or NULL matches exactly the equal string. */
  lemma LooseEqualsOnState(state: Option<string>, lit: string)
    requires lit != ""
    ensures LooseEquals(if state.Some? then Str(state.value) else Null, lit) <==> state == Some(lit)
  {
  }
}
