// Python integer semantics that the forwarder relies on: the text-to-int
// conversion `int(s)` used by the numeric setters, and the floor modulo `%`
// used by the pause check of the forward loop.

module PyInt {

  datatype Option<T> = None | Some(value: T)

  predicate IsDigit(c: char) {
    '0' <= c <= '9'
  }

  function DigitValue(c: char): (d: nat)
    requires IsDigit(c)
    ensures d < 10
  {
    (c as int) - ('0' as int)
  }

  function DigitChar(d: nat): (c: char)
    requires d < 10
    ensures IsDigit(c) && DigitValue(c) == d
  {
    (('0' as int) + d) as char
  }

  /** Every character of `s` is an ASCII decimal digit. */
  predicate AllDigits(s: string) {
    forall i :: 0 <= i < |s| ==> IsDigit(s[i])
  }

  /**
   * A digit run as `int()` accepts it: digits, where a single underscore may
   * separate two digits ("1_000"), but no leading, trailing or doubled one.
   */
  predicate IsDigitRun(s: string) {
    && |s| > 0
    && IsDigit(s[0])
    && IsDigit(s[|s| - 1])
    && (forall i :: 0 <= i < |s| ==> IsDigit(s[i]) || s[i] == '_')
    && (forall i :: 0 <= i < |s| - 1 && s[i] == '_' ==> s[i + 1] != '_')
  }

  /** `s` with its underscores removed. */
  function DropUnderscores(s: string): (r: string)
    requires forall i :: 0 <= i < |s| ==> IsDigit(s[i]) || s[i] == '_'
    ensures AllDigits(r) && |r| <= |s|
    ensures AllDigits(s) ==> r == s
  {
    if s == [] then []
    else if s[0] == '_' then DropUnderscores(s[1..])
    else [s[0]] + DropUnderscores(s[1..])
  }

  /** The number a string of decimal digits denotes, most significant first. */
  function DigitsValue(s: string): nat
    requires AllDigits(s)
  {
    if s == [] then 0 else DigitsValue(s[..|s| - 1]) * 10 + DigitValue(s[|s| - 1])
  }

  /**
   * `int(s)` for a string argument: an optional sign followed by a digit run.
   * `None` stands for the ValueError Python raises on anything else.
   */
  function ParseInt(s: string): (r: Option<int>)
    ensures r.Some? ==> |s| > 0 && (IsDigit(s[0]) || s[0] == '-' || s[0] == '+')
    ensures r.Some? && s[0] == '-' ==> r.value <= 0
    ensures r.Some? && s[0] != '-' ==> r.value >= 0
  {
    if |s| > 0 && (s[0] == '-' || s[0] == '+') then
      var body := s[1..];
      if IsDigitRun(body) then
        var magnitude: int := DigitsValue(DropUnderscores(body));
        Some(if s[0] == '-' then -magnitude else magnitude)
      else None
    else if IsDigitRun(s) then Some(DigitsValue(DropUnderscores(s)))
    else None
  }

  /** Decimal rendering of a natural number, as `str(n)` writes it. */
  function ShowNat(n: nat): (s: string)
    ensures |s| > 0 && AllDigits(s)
  {
    if n < 10 then [DigitChar(n)] else ShowNat(n / 10) + [DigitChar(n % 10)]
  }

  /** Decimal rendering of an integer, as `str(n)` writes it. */
  function ShowInt(n: int): string {
    if n < 0 then "-" + ShowNat(-n) else ShowNat(n)
  }

  lemma {:induction false} DigitsValueOfShowNat(n: nat)
    ensures DigitsValue(ShowNat(n)) == n
  {
    var s := ShowNat(n);
    if n >= 10 {
      DigitsValueOfShowNat(n / 10);
      assert s[..|s| - 1] == ShowNat(n / 10);
    }
  }

  lemma AllDigitsIsDigitRun(s: string)
    requires |s| > 0 && AllDigits(s)
    ensures IsDigitRun(s)
  {
  }

  /** `int(str(n)) == n`: the conversion reads back every integer it renders. */
  lemma ParseShowInt(n: int)
    ensures ParseInt(ShowInt(n)) == Some(n)
  {
    var m: nat := if n < 0 then -n else n;
    var digits := ShowNat(m);
    AllDigitsIsDigitRun(digits);
    DigitsValueOfShowNat(m);
    assert DropUnderscores(digits) == digits;
    if n < 0 {
      var s := ShowInt(n);
      assert s[0] == '-' && s[1..] == digits;
    } else {
      assert ShowInt(n) == digits && !(digits[0] == '-' || digits[0] == '+');
    }
  }

  /** A plain run of digits (no sign, no underscores) parses to the number it denotes. */
  lemma ParseDigits(s: string)
    requires |s| > 0 && AllDigits(s)
    ensures ParseInt(s) == Some(DigitsValue(s))
  {
    AllDigitsIsDigitRun(s);
    assert IsDigit(s[0]);
  }

  /** A sign followed by a plain run of digits parses to that number, negated for `-`. */
  lemma ParseSignedDigits(s: string)
    requires |s| > 1 && (s[0] == '-' || s[0] == '+') && AllDigits(s[1..])
    ensures ParseInt(s) == Some(if s[0] == '-' then -(DigitsValue(s[1..]) as int) else DigitsValue(s[1..]))
  {
    AllDigitsIsDigitRun(s[1..]);
  }

  /** The value of a two-digit string. */
  lemma DigitsValuePair(s: string)
    requires |s| == 2 && AllDigits(s)
    ensures DigitsValue(s) == 10 * DigitValue(s[0]) + DigitValue(s[1])
  {
    var p := s[..1];
    assert p[..0] == [] && p[0] == s[0];
    assert DigitsValue(p) == DigitValue(s[0]);
  }

  /** `"-07"`: a minus sign may precede the digits, which may have leading zeros. */
  lemma ParseIntAcceptsNegative()
    ensures ParseInt("-07") == Some(-7)
  {
    assert "-07"[1..] == "07";
    ParseSignedDigits("-07");
    DigitsValuePair("07");
  }

  /** `"+25"`: so may a plus sign. */
  lemma ParseIntAcceptsPlus()
    ensures ParseInt("+25") == Some(25)
  {
    assert "+25"[1..] == "25";
    ParseSignedDigits("+25");
    DigitsValuePair("25");
  }

  /** `"1_000"`: a single underscore may separate digits. */
  lemma ParseIntAcceptsGrouped()
    ensures ParseInt("1_000") == Some(1000)
  {
    var s := "1_000";
    assert IsDigitRun(s) && !(s[0] == '-' || s[0] == '+');
    assert DropUnderscores(s) == "1000" by {
      assert s[1..] == "_000" && s[1..][1..] == "000";
    }
    var d := "1000";
    assert d[..3] == "100" && d[..3][..2] == "10";
    DigitsValuePair("10");
    assert DigitsValue("100") == 100;
  }

  /** Arguments `int()` rejects with a ValueError. */
  lemma ParseIntRejects()
    ensures ParseInt("") == None && ParseInt("-") == None
    ensures ParseInt("ten") == None && ParseInt("2.5") == None
    ensures ParseInt("1__0") == None && ParseInt("_1") == None && ParseInt("1_") == None
  {
    assert "-"[1..] == "";
    assert !IsDigit("2.5"[1]);
    assert "1__0"[1] == '_' && "1__0"[2] == '_';
  }

  /** Python's `a // b` for `b != 0`: division rounded toward minus infinity. */
  function PyFloorDiv(a: int, b: int): int
    requires b != 0
  {
    if b > 0 || a % b == 0 then a / b else a / b - 1
  }

  /**
   * Python's `a % b` for `b != 0`: the remainder of floor division, which
   * takes the sign of the divisor. Dafny's `%` is Euclidean instead, but the
   * two agree on whether the remainder is zero.
   */
  function PyMod(a: int, b: int): (r: int)
    requires b != 0
    ensures b > 0 ==> 0 <= r < b
    ensures b < 0 ==> b < r <= 0
    ensures r == 0 <==> a % b == 0
  {
    var e := a % b;
    if b > 0 || e == 0 then e else e + b
  }

  /**
   * `a == b * (a // b) + a % b`: together with the bounds `PyMod` guarantees,
   * `%` is the remainder of floor division.
   */
  lemma PyModIsFloorRemainder(a: int, b: int)
    requires b != 0
    ensures a == b * PyFloorDiv(a, b) + PyMod(a, b)
  {
  }
}
