/**
 * Python's `int(s.strip())` on a string, base 10: after `strip()`, an
 * optional sign, then decimal digits with single underscores allowed between
 * digits. Anything else is a `ValueError`, here `None`.
 */
module IntParse {
  import opened Wrappers
  import opened Text

  predicate IsDigit(c: char) {
    '0' <= c <= '9'
  }

  /** A digit run as `int()` accepts it: digits, single `_` separators only between digits. */
  predicate IsDigitString(s: string) {
    && |s| > 0
    && IsDigit(s[0]) && IsDigit(s[|s| - 1])
    && (forall i :: 0 <= i < |s| ==> IsDigit(s[i]) || s[i] == '_')
    && (forall i :: 0 <= i < |s| - 1 ==> IsDigit(s[i]) || IsDigit(s[i + 1]))
  }

  /** The value of a digit run, separators ignored. */
  function DigitsValue(s: string): nat
    decreases |s|
  {
    if s == [] then 0
    else if IsDigit(s[|s| - 1]) then 10 * DigitsValue(s[..|s| - 1]) + (s[|s| - 1] as int - '0' as int)
    else DigitsValue(s[..|s| - 1])
  }

  /** `int(s.strip())`: `Some(value)`, or `None` where Python raises `ValueError`. */
  function ParseInt(s: string): (r: Option<int>)
    ensures r.Some? ==> Strip(s) != [] && IsDigit(Strip(s)[|Strip(s)| - 1])
    ensures r.Some? && r.value < 0 ==> Strip(s)[0] == '-'
  {
    var t := Strip(s);
    if t == [] then None
    else if (t[0] == '-' || t[0] == '+') && IsDigitString(t[1..]) then
      var magnitude: int := DigitsValue(t[1..]);
      Some(if t[0] == '-' then -magnitude else magnitude)
    else if IsDigitString(t) then Some(DigitsValue(t))
    else None
  }

  /** Stripping twice is stripping once: `int(s.strip().strip()) == int(s.strip())`. */
  lemma ParseIntOfStripped(s: string)
    ensures ParseInt(Strip(s)) == ParseInt(s)
  {
    var t := Strip(s);
    assert t == [] || (!IsSpace(t[0]) && !IsSpace(t[|t| - 1]));
    assert Strip(t) == t;
  }

  /** The decimal digits of `n`, most significant first, as `str(n)` writes them. */
  function DecimalDigits(n: nat): (s: string)
    ensures IsDigitString(s)
    ensures forall i :: 0 <= i < |s| ==> IsDigit(s[i])
    decreases n
  {
    var d := [('0' as int + n % 10) as char];
    if n < 10 then d else DecimalDigits(n / 10) + d
  }

  /** `str(n)`. */
  function Show(n: int): string {
    if n < 0 then "-" + DecimalDigits(-n) else DecimalDigits(n)
  }

  lemma {:induction false} DigitsValueOfDecimal(n: nat)
    ensures DigitsValue(DecimalDigits(n)) == n
    decreases n
  {
    var s := DecimalDigits(n);
    if n >= 10 {
      DigitsValueOfDecimal(n / 10);
      assert s[..|s| - 1] == DecimalDigits(n / 10);
    }
  }

  /** `int(str(n).strip()) == n`: whatever a user types as Python prints an integer reads back as that integer. */
  lemma ParseShowRoundTrip(n: int)
    ensures ParseInt(Show(n)) == Some(n)
  {
    var s := Show(n);
    var m := if n < 0 then -n else n;
    DigitsValueOfDecimal(m);
    assert !IsSpace(s[0]) && !IsSpace(s[|s| - 1]);
    assert Strip(s) == s;
    if n < 0 {
      assert s[1..] == DecimalDigits(m);
    }
  }

  /** Text with no digit at all never parses. */
  lemma NoDigitNoInt(s: string)
    requires forall i :: 0 <= i < |s| ==> !IsDigit(s[i])
    ensures ParseInt(s) == None
  {
    var t := Strip(s);
    if t != [] {
      assert t[|t| - 1] == s[LeadingSpaces(s) + |t| - 1];
    }
  }
}
