/** JavaScript's reading of integers from query-string text: `parseInt` (decimal only) and the
    integer syntax the request validator accepts. */
module JsNumbers {
  import opened Wrappers
  import opened Strings

  predicate IsDigit(c: char) {
    '0' <= c <= '9'
  }

  predicate AllDigits(s: string) {
    forall i :: 0 <= i < |s| ==> IsDigit(s[i])
  }

  /** The longest prefix of `s` made of decimal digits. */
  function LeadingDigits(s: string): (r: string)
    ensures |r| <= |s| && r == s[..|r|]
    ensures AllDigits(r)
    ensures |r| < |s| ==> !IsDigit(s[|r|])
  {
    if s == [] || !IsDigit(s[0]) then [] else [s[0]] + LeadingDigits(s[1..])
  }

  predicate IsSign(c: char) {
    c == '-' || c == '+'
  }

  /** `s` without its leading sign, if it has one. */
  function Unsigned(s: string): (r: string)
    ensures |s| > 0 && IsSign(s[0]) ==> r == s[1..]
    ensures !(|s| > 0 && IsSign(s[0])) ==> r == s
  {
    if |s| > 0 && IsSign(s[0]) then s[1..] else s
  }

  function Signed(s: string, magnitude: int): int {
    if |s| > 0 && s[0] == '-' then -magnitude else magnitude
  }

  /** `parseInt(s)`: leading white space is skipped, a sign is read, then as many decimal digits
      as follow; `None` is `NaN`, when no digit follows. */
  function ParseInt(s: string): (r: Option<int>)
    ensures r.None? <==> LeadingDigits(Unsigned(TrimStart(s))) == []
  {
    var t := TrimStart(s);
    var digits := LeadingDigits(Unsigned(t));
    if digits == [] then None else Some(Signed(t, DecimalValue(digits)))
  }

  /** The integer syntax of the request validator's `isInt`: an optional sign and one or more
      decimal digits, nothing else. */
  predicate IsIntText(s: string) {
    var body := Unsigned(s);
    |body| >= 1 && AllDigits(body)
  }

  /** The integer an integer text denotes. */
  function IntTextValue(s: string): int
    requires IsIntText(s)
  {
    Signed(s, DecimalValue(Unsigned(s)))
  }

  lemma LeadingDigitsOfDigits(s: string)
    requires AllDigits(s)
    ensures LeadingDigits(s) == s
  {
  }

  /** On the text the validator accepts, `parseInt` reads exactly the value the validator
      checked. */
  lemma ParseIntOfIntText(s: string)
    requires IsIntText(s)
    ensures ParseInt(s) == Some(IntTextValue(s))
  {
    assert !IsSpace(s[0]);
    assert TrimStart(s) == s;
    LeadingDigitsOfDigits(Unsigned(s));
  }

  /** A rendered count is integer text, and `parseInt` reads the count back. */
  lemma ParseIntOfNatToString(n: nat)
    ensures IsIntText(NatToString(n)) && IntTextValue(NatToString(n)) == n
    ensures ParseInt(NatToString(n)) == Some(n)
  {
    var s := NatToString(n);
    assert Unsigned(s) == s;
    DecimalValueOfNatToString(n);
    ParseIntOfIntText(s);
  }
}
