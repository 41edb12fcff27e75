/**
 * The three regular expressions of the validator, anchored at both ends as
 * `^…$` makes them in Go (where `$` matches only at the end of the text):
 * `^[\w\s\-&]+$` for a retailer, `^[\w\s\-]+$` for an item description and
 * `^\d+\.\d{2}$` for a money amount; and the amount of money such a string
 * denotes, in integer cents.
 */
module Formats {
  import opened Wrappers
  import opened GoText

  predicate IsRetailerChar(c: char) {
    IsWordChar(c) || IsPerlSpace(c) || c == '-' || c == '&'
  }

  predicate IsDescriptionChar(c: char) {
    IsWordChar(c) || IsPerlSpace(c) || c == '-'
  }

  /** `^[\w\s\-&]+$`: the classes are ASCII-only, so only ASCII text matches. */
  predicate RetailerPattern(s: string)
    ensures RetailerPattern(s) ==> AllAscii(s)
  {
    |s| > 0 && forall i :: 0 <= i < |s| ==> IsRetailerChar(s[i])
  }

  /** `^[\w\s\-]+$`: the classes are ASCII-only, so only ASCII text matches. */
  predicate DescriptionPattern(s: string)
    ensures DescriptionPattern(s) ==> AllAscii(s)
  {
    |s| > 0 && forall i :: 0 <= i < |s| ==> IsDescriptionChar(s[i])
  }

  /** `^\d+\.\d{2}$`: at least one digit, a point, exactly two digits. */
  predicate MoneyPattern(s: string)
    ensures MoneyPattern(s) ==> AllAscii(s) && forall i :: 0 <= i < |s| && i != |s| - 3 ==> IsDigit(s[i])
  {
    |s| >= 4 && AllDigits(s[..|s| - 3]) && s[|s| - 3] == '.' && AllDigits(s[|s| - 2..])
  }

  /** The amount a money string denotes, in cents: the digits before the point are whole units. */
  function Cents(s: string): (c: nat)
    requires MoneyPattern(s)
    ensures c / 100 == DigitsValue(s[..|s| - 3])
    ensures c % 100 == DigitValue(s[|s| - 2]) * 10 + DigitValue(s[|s| - 1])
  {
    var frac := s[|s| - 2..];
    var first := frac[..|frac| - 1];
    assert first[..|first| - 1] == [];
    assert DigitsValue(first) == DigitValue(s[|s| - 2]);
    DigitsValue(s[..|s| - 3]) * 100 + DigitsValue(frac)
  }

  /** Money parsing as the scoring rules use it; a string outside the money pattern does not parse. */
  function ParseCents(s: string): (r: Option<nat>)
    ensures r.Some? <==> MoneyPattern(s)
    ensures r.Some? ==> r.value == Cents(s)
  {
    if MoneyPattern(s) then Some(Cents(s)) else None
  }

  /** The canonical rendering of an amount: shortest whole part, two fractional digits. */
  function FormatCents(c: nat): (s: string)
    ensures MoneyPattern(s)
  {
    var whole := DecimalString(c / 100);
    whole + "." + [Digit(c / 10 % 10), Digit(c % 10)]
  }

  /** Rendering an amount and parsing it back gives the amount. */
  lemma CentsRoundTrip(c: nat)
    ensures ParseCents(FormatCents(c)) == Some(c)
  {
    var s := FormatCents(c);
    assert s[..|s| - 3] == DecimalString(c / 100);
  }

  /** Every description the item pattern accepts is also a retailer the retailer pattern accepts. */
  lemma DescriptionIsRetailer(s: string)
    requires DescriptionPattern(s)
    ensures RetailerPattern(s)
  {
    forall i | 0 <= i < |s| ensures IsRetailerChar(s[i]) {
      assert IsDescriptionChar(s[i]);
    }
  }

  /** On a string the retailer pattern accepts, the description pattern differs only in refusing `&`. */
  lemma AmpersandOnlyInRetailer(s: string)
    requires RetailerPattern(s)
    ensures DescriptionPattern(s) <==> '&' !in s
  {
    if '&' !in s {
      forall i | 0 <= i < |s| ensures IsDescriptionChar(s[i]) {
        assert s[i] != '&';
      }
    }
  }

  /** Exactly two fractional digits and at least one whole digit: "18.7", "18.745" and ".74" are refused, "0.74" is accepted. */
  lemma TwoFractionDigitsRequired()
    ensures !MoneyPattern("18.7") && !MoneyPattern("18.745") && !MoneyPattern(".74") && MoneyPattern("0.74")
  {
    var s := "18.745";
    assert s[|s| - 3] != '.';
  }
}
