/**
 * The two pieces of text handling the endpoint format needs: the decimal
 * rendering that `std::ostream << uint16_t` produces, and the split of
 * `host:port` at its last colon that undoes it.
 */
module Text {

  import opened Wrappers

  predicate IsDigit(c: char) {
    '0' <= c <= '9'
  }

  predicate AllDigits(s: string) {
    forall i :: 0 <= i < |s| ==> IsDigit(s[i])
  }

  function DigitChar(d: nat): (c: char)
    requires d < 10
    ensures IsDigit(c) && c as int - '0' as int == d
  {
    ('0' as int + d) as char
  }

  function DigitValue(c: char): (d: nat)
    requires IsDigit(c)
    ensures d < 10
  {
    c as int - '0' as int
  }

  /** Decimal text of `n`, most significant digit first, no leading zeros. */
  function DecimalText(n: nat): (s: string)
    ensures s != [] && AllDigits(s)
    ensures |s| > 1 ==> s[0] != '0'
    decreases n
  {
    if n < 10 then [DigitChar(n)] else DecimalText(n / 10) + [DigitChar(n % 10)]
  }

  /** The number a string of decimal digits denotes (the reference reading of `DecimalText`). */
  function DigitsValue(s: string): nat
    requires AllDigits(s)
  {
    if s == [] then 0 else DigitsValue(s[..|s| - 1]) * 10 + DigitValue(s[|s| - 1])
  }

  /** Reading back the rendered port gives the port. */
  lemma {:induction false} DecimalRoundTrip(n: nat)
    ensures DigitsValue(DecimalText(n)) == n
    decreases n
  {
    var s := DecimalText(n);
    if n < 10 {
      assert s[..|s| - 1] == [];
    } else {
      assert s[..|s| - 1] == DecimalText(n / 10);
      DecimalRoundTrip(n / 10);
    }
  }

  /** Index of the last occurrence of `c` in `s`, or -1 when `c` does not occur. */
  function LastIndexOf(s: string, c: char): (i: int)
    ensures -1 <= i < |s|
    ensures i >= 0 ==> s[i] == c
    ensures forall j :: i < j < |s| ==> s[j] != c
  {
    if s == [] then -1
    else if s[|s| - 1] == c then |s| - 1
    else LastIndexOf(s[..|s| - 1], c)
  }

  /** A separator followed only by text free of it is the last occurrence. */
  lemma LastIndexOfSeparator(prefix: string, c: char, suffix: string)
    requires c !in suffix
    ensures LastIndexOf(prefix + [c] + suffix, c) == |prefix|
  {
    var s := prefix + [c] + suffix;
    assert s[|prefix|] == c;
    assert s[|prefix| + 1..] == suffix;
  }

  /**
   * Splits `host:port` at its last colon into the host part and the value
   * of the decimal port; `None` when there is no colon or the part after
   * it is not a non-empty run of digits.
   */
  function SplitHostPort(s: string): (r: Option<(string, nat)>)
    ensures r.Some? ==> |r.value.0| < |s| && s[|r.value.0|] == ':'
    ensures r.Some? ==> ':' !in s[|r.value.0| + 1..]
  {
    var i := LastIndexOf(s, ':');
    if i < 0 then None
    else
      var digits := s[i + 1..];
      if digits != [] && AllDigits(digits) then Some((s[..i], DigitsValue(digits))) else None
  }

  /** `SplitHostPort` undoes `host + ":" + DecimalText(port)` whatever the host text is. */
  lemma {:induction false} SplitRendered(host: string, port: nat)
    ensures SplitHostPort(host + ":" + DecimalText(port)) == Some((host, port))
  {
    var digits := DecimalText(port);
    var s := host + ":" + digits;
    assert ':' !in digits;
    assert s == host + [':'] + digits;
    LastIndexOfSeparator(host, ':', digits);
    assert s[|host| + 1..] == digits;
    assert s[..|host|] == host;
    DecimalRoundTrip(port);
  }
}
