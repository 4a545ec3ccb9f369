/** The toppings line of the order confirmation: "with no toppings",
    "with 1 topping" or "with n toppings", the count written in decimal as a
    template literal renders a whole number. */
module Confirmation {
  import opened Wrappers

  predicate IsDigit(c: char) {
    '0' <= c <= '9'
  }

  predicate AllDigits(s: string) {
    forall i :: 0 <= i < |s| ==> IsDigit(s[i])
  }

  function DigitChar(d: nat): (c: char)
    requires d < 10
    ensures IsDigit(c) && c as int - '0' as int == d
  {
    ('0' as int + d) as char
  }

  /** The decimal numeral of `n`, most significant digit first, no leading zero. */
  function DecimalString(n: nat): (r: string)
    ensures |r| > 0 && AllDigits(r)
    ensures r[0] == '0' ==> n == 0
    decreases n
  {
    if n < 10 then [DigitChar(n)] else DecimalString(n / 10) + [DigitChar(n % 10)]
  }

  /** The number a string of decimal digits denotes. */
  function DecimalValue(s: string): nat
    requires AllDigits(s)
    decreases |s|
  {
    if s == [] then 0 else DecimalValue(s[..|s| - 1]) * 10 + (s[|s| - 1] as int - '0' as int)
  }

  /** Reading the numeral back gives the number. */
  lemma {:induction false} DecimalRoundTrip(n: nat)
    ensures DecimalValue(DecimalString(n)) == n
    decreases n
  {
    var s := DecimalString(n);
    if n < 10 {
      assert s[..|s| - 1] == [];
    } else {
      assert s[..|s| - 1] == DecimalString(n / 10);
      DecimalRoundTrip(n / 10);
    }
  }

  /** The longest prefix of `s` made of digits. */
  function LeadingDigits(s: string): (r: string)
    ensures AllDigits(r) && |r| <= |s| && r == s[..|r|]
    decreases |s|
  {
    if s == [] || !IsDigit(s[0]) then [] else [s[0]] + LeadingDigits(s[1..])
  }

  lemma {:induction false} LeadingDigitsOf(digits: string, rest: string)
    requires AllDigits(digits)
    requires rest != [] && !IsDigit(rest[0])
    ensures LeadingDigits(digits + rest) == digits
    decreases |digits|
  {
    if digits == [] {
      assert digits + rest == rest;
    } else {
      assert (digits + rest)[1..] == digits[1..] + rest;
      LeadingDigitsOf(digits[1..], rest);
    }
  }

  /** The toppings line for an order with `count` toppings. */
  function ToppingsPhrase(count: nat): (r: string)
    ensures |r| > 5 && r[..5] == "with "
    ensures r[|r| - 1] == 's' <==> count != 1
  {
    if count == 0 then "with no toppings"
    else "with " + DecimalString(count) + " topping" + (if count > 1 then "s" else "")
  }

  /** The three shapes of the line: none, the singular, the plural. */
  lemma PhraseExamples()
    ensures ToppingsPhrase(0) == "with no toppings"
    ensures ToppingsPhrase(1) == "with 1 topping"
    ensures ToppingsPhrase(3) == "with 3 toppings"
  {
  }

  /** Reads the count back out of a toppings line. */
  function CountFromPhrase(s: string): Option<nat> {
    if s == "with no toppings" then Some(0)
    else if |s| > 5 && s[..5] == "with " then
      var digits := LeadingDigits(s[5..]);
      if digits == [] then None else Some(DecimalValue(digits))
    else None
  }

  /** The line states the exact count: it can be read back without loss. */
  lemma PhraseRoundTrip(count: nat)
    ensures CountFromPhrase(ToppingsPhrase(count)) == Some(count)
  {
    if count > 0 {
      var s := ToppingsPhrase(count);
      var d := DecimalString(count);
      var tail := " topping" + (if count > 1 then "s" else "");
      assert s == "with " + d + tail;
      assert s[5] == d[0];
      assert s != "with no toppings" by { assert "with no toppings"[5] == 'n'; }
      assert s[5..] == d + tail;
      LeadingDigitsOf(d, tail);
      DecimalRoundTrip(count);
    }
  }

  /** Different counts give different lines. */
  lemma PhraseInjective(m: nat, n: nat)
    requires ToppingsPhrase(m) == ToppingsPhrase(n)
    ensures m == n
  {
    PhraseRoundTrip(m);
    PhraseRoundTrip(n);
  }
}
