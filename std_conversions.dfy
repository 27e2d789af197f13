// The two C++ library conversions the program relies on: std::stoi (used by
// main/cliconfig_parser.cpp and, through safeStoi, by main/data_loader.cpp) and
// std::stod (through safeStod). Both become total functions returning an
// Option: None stands for the std::invalid_argument or std::out_of_range
// exception the library would throw.
module StdConversions {
  import opened Wrappers

  /** Bounds of a 32-bit C++ `int`. */
  const IntMin: int := -0x8000_0000
  const IntMax: int := 0x7FFF_FFFF

  /** The characters `isspace` accepts in the C locale. */
  predicate IsSpace(c: char) {
    c == ' ' || c == '\t' || c == '\n' || c == '\U{B}' || c == '\U{C}' || c == '\r'
  }

  predicate IsDigit(c: char) {
    '0' <= c <= '9'
  }

  predicate AllDigits(s: string) {
    forall i :: 0 <= i < |s| ==> IsDigit(s[i])
  }

  /** The position of the first character at or after `i` that is not white space. */
  function SkipSpace(s: string, i: nat): (k: nat)
    requires i <= |s|
    ensures i <= k <= |s|
    ensures forall j :: i <= j < k ==> IsSpace(s[j])
    ensures k == |s| || !IsSpace(s[k])
    decreases |s| - i
  {
    if i < |s| && IsSpace(s[i]) then SkipSpace(s, i + 1) else i
  }

  /** The end of the longest run of decimal digits that starts at `i`. */
  function DigitsEnd(s: string, i: nat): (k: nat)
    requires i <= |s|
    ensures i <= k <= |s| && AllDigits(s[i..k])
    ensures k == |s| || !IsDigit(s[k])
    decreases |s| - i
  {
    if i < |s| && IsDigit(s[i]) then
      var k := DigitsEnd(s, i + 1);
      k
    else i
  }

  function DigitValue(c: char): nat
    requires IsDigit(c)
  {
    (c as int) - ('0' as int)
  }

  /** The value of a string of decimal digits, most significant first. */
  function DigitsValue(ds: string): nat
    requires AllDigits(ds)
  {
    if ds == [] then 0 else DigitsValue(ds[..|ds| - 1]) * 10 + DigitValue(ds[|ds| - 1])
  }

  /** Decimal text of a natural number, without leading zeros (as std::to_string writes it). */
  function NatDigits(n: nat): (r: string)
    ensures |r| > 0 && AllDigits(r)
    ensures r[0] != '0' || n == 0
    ensures DigitsValue(r) == n
  {
    var last := ('0' as int + n % 10) as char;
    if n < 10 then [last]
    else
      var r := NatDigits(n / 10) + [last];
      assert r[..|r| - 1] == NatDigits(n / 10);
      r
  }

  /** Decimal text of an integer, with a `-` sign when negative. */
  function IntToString(n: int): (r: string)
  {
    if n < 0 then "-" + NatDigits(-n) else NatDigits(n)
  }

  /** Where the digits start once white space and an optional sign are skipped. */
  datatype Numeral = Numeral(negative: bool, start: nat)

  function SplitSign(s: string): (r: Numeral)
    ensures r.start <= |s|
  {
    var k := SkipSpace(s, 0);
    if k < |s| && (s[k] == '+' || s[k] == '-') then Numeral(s[k] == '-', k + 1) else Numeral(false, k)
  }

  /**
    * std::stoi in base 10: skip white space, read an optional sign and the
    * longest run of digits after it, and ignore whatever follows. With no
    * digit the library throws std::invalid_argument; with a value outside the
    * range of `int` it throws std::out_of_range. Both are None here.
    */
  function Stoi(s: string): (r: Option<int>)
    ensures r.Some? ==> IntMin <= r.value <= IntMax
    ensures (forall i :: 0 <= i < |s| ==> !IsDigit(s[i])) ==> r == None
  {
    var num := SplitSign(s);
    var end := DigitsEnd(s, num.start);
    if end == num.start then None
    else
      assert IsDigit(s[num.start..end][0]);
      var magnitude: int := DigitsValue(s[num.start..end]);
      var v: int := if num.negative then -magnitude else magnitude;
      if IntMin <= v <= IntMax then Some(v) else None
  }

  /** The value of the digits after a decimal point: 0.d1d2d3... == (d1 + 0.d2d3...) / 10. */
  function FractionValue(ds: string): (r: real)
    requires AllDigits(ds)
    ensures 0.0 <= r < 1.0
  {
    if ds == [] then 0.0
    else (DigitValue(ds[0]) as real + FractionValue(ds[1..])) / 10.0
  }

  /**
    * std::stod restricted to plain decimal notation: white space, an optional
    * sign, digits, and an optional `.` followed by digits, with at least one
    * digit in all. The value is the exact rational the text denotes.
    */
  function Stod(s: string): (r: Option<real>)
    ensures (forall i :: 0 <= i < |s| ==> !IsDigit(s[i])) ==> r == None
  {
    var num := SplitSign(s);
    var point := DigitsEnd(s, num.start);
    var fractionStart := if point < |s| && s[point] == '.' then point + 1 else point;
    var end := DigitsEnd(s, fractionStart);
    if point == num.start && end == fractionStart then None
    else
      assert point > num.start ==> IsDigit(s[num.start..point][0]);
      assert end > fractionStart ==> IsDigit(s[fractionStart..end][0]);
      var whole := DigitsValue(s[num.start..point]) as real;
      var fraction := FractionValue(s[fractionStart..end]);
      Some(if num.negative then -(whole + fraction) else whole + fraction)
  }

  /** A run of digits followed by a non-digit (or the end) is read whole. */
  lemma {:induction false} DigitsEndOfDigits(s: string, i: nat, ds: string)
    requires i + |ds| <= |s| && s[i..i + |ds|] == ds && AllDigits(ds)
    requires i + |ds| == |s| || !IsDigit(s[i + |ds|])
    ensures DigitsEnd(s, i) == i + |ds|
    decreases |ds|
  {
    if ds != [] {
      assert s[i] == ds[0];
      assert s[i + 1..i + |ds|] == ds[1..];
      DigitsEndOfDigits(s, i + 1, ds[1..]);
    }
  }

  /** IntToString text, followed by anything, splits into its sign and its digits. */
  lemma SplitSignOfIntToString(n: int, rest: string)
    ensures var s := IntToString(n) + rest;
      var digits := NatDigits(if n < 0 then -n else n);
      var start := if n < 0 then 1 else 0;
      && SplitSign(s) == Numeral(n < 0, start)
      && start + |digits| <= |s| && s[start..start + |digits|] == digits
      && s[start + |digits|..] == rest
  {
    var s := IntToString(n) + rest;
    var digits := NatDigits(if n < 0 then -n else n);
    if n < 0 {
      assert s == "-" + digits + rest;
      assert s[0] == '-';
    } else {
      assert s == digits + rest;
      assert s[0] == digits[0];
    }
  }

  /** Reading back what IntToString writes gives the number, whatever non-digit text follows. */
  lemma StoiReadsIntToString(n: int, rest: string)
    requires IntMin <= n <= IntMax
    requires rest == [] || !IsDigit(rest[0])
    ensures Stoi(IntToString(n) + rest) == Some(n)
  {
    var s := IntToString(n) + rest;
    var digits := NatDigits(if n < 0 then -n else n);
    SplitSignOfIntToString(n, rest);
    var start := if n < 0 then 1 else 0;
    assert rest != [] ==> s[start + |digits|] == rest[0];
    StoiOfSignedDigits(s, n < 0, start, digits);
    assert DigitsValue(s[start..start + |digits|]) == DigitsValue(digits);
  }

  /** std::stoi on a sign followed by a run of digits that ends the number. */
  lemma StoiOfSignedDigits(s: string, negative: bool, start: nat, digits: string)
    requires SplitSign(s) == Numeral(negative, start)
    requires start + |digits| <= |s| && s[start..start + |digits|] == digits && AllDigits(digits) && digits != []
    requires start + |digits| == |s| || !IsDigit(s[start + |digits|])
    ensures var magnitude: int := DigitsValue(s[start..start + |digits|]);
      var v: int := if negative then -magnitude else magnitude;
      Stoi(s) == if IntMin <= v <= IntMax then Some(v) else None
  {
    DigitsEndOfDigits(s, start, digits);
  }

  /** A decimal number outside the range of `int` makes std::stoi throw. */
  lemma StoiRejectsOutOfRange(n: int)
    requires n < IntMin || IntMax < n
    ensures Stoi(IntToString(n)) == None
  {
    var s := IntToString(n);
    assert s + [] == s;
    var digits := NatDigits(if n < 0 then -n else n);
    SplitSignOfIntToString(n, []);
    var start := if n < 0 then 1 else 0;
    DigitsEndOfDigits(s, start, digits);
  }

  /**
    * A character that ends a plain decimal number for std::stod: not a digit,
    * not a decimal point, and not the start of an exponent (`e`, `E`) or of a
    * hexadecimal prefix (`x`, `X`), which the library would read on.
    */
  predicate EndsDecimal(c: char) {
    !IsDigit(c) && c !in ".eExX"
  }

  /** Reading back what IntToString writes with std::stod gives the same number as a real. */
  lemma StodReadsIntToString(n: int, rest: string)
    requires rest == [] || EndsDecimal(rest[0])
    ensures Stod(IntToString(n) + rest) == Some(n as real)
  {
    var s := IntToString(n) + rest;
    var digits := NatDigits(if n < 0 then -n else n);
    SplitSignOfIntToString(n, rest);
    var start := if n < 0 then 1 else 0;
    assert rest != [] ==> s[start + |digits|] == rest[0];
    StodOfSignedDigits(s, n < 0, start, digits);
    assert DigitsValue(s[start..start + |digits|]) == DigitsValue(digits);
  }

  /** std::stod on a sign followed by a run of digits with no fraction part. */
  lemma StodOfSignedDigits(s: string, negative: bool, start: nat, digits: string)
    requires SplitSign(s) == Numeral(negative, start)
    requires start + |digits| <= |s| && s[start..start + |digits|] == digits && AllDigits(digits) && digits != []
    requires start + |digits| == |s| || EndsDecimal(s[start + |digits|])
    ensures var whole := DigitsValue(s[start..start + |digits|]) as real;
      Stod(s) == Some(if negative then -whole else whole)
  {
    DigitsEndOfDigits(s, start, digits);
    var point := start + |digits|;
    assert s[point..point] == [];
    DigitsEndOfDigits(s, point, []);
  }
}
