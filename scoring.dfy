/**
 * `calculatePoints` and its helpers: seven independent rules whose points
 * are added up.
 *   1. one point per ASCII letter or digit of the retailer name;
 *   2. 50 points when the total ends in ".00";
 *   3. 25 points when the total is a multiple of 0.25;
 *   4. 5 points per two items;
 *   5. for each item whose trimmed description has a length divisible by 3,
 *      the item's price times 0.2, rounded up;
 *   6. 6 points when the day of the purchase date is odd;
 *   7. 10 points when the purchase hour is 14 or 15.
 * Money is counted in exact integer cents, so rule 3 tests `cents % 25` and
 * rule 5 rounds `cents / 500` up.
 */
module Scoring {
  import opened Wrappers
  import opened GoText
  import opened Formats
  import opened Layouts
  import opened Models
  import opened Validation

  // Rule 1

  /** The number of ASCII letters and digits in `s`. */
  function AlnumCount(s: string): (n: nat)
    ensures n <= |s|
    ensures n == |s| <==> forall i :: 0 <= i < |s| ==> IsAsciiAlnum(s[i])
  {
    if s == [] then 0
    else AlnumCount(s[..|s| - 1]) + (if IsAsciiAlnum(s[|s| - 1]) then 1 else 0)
  }

  lemma {:induction false} AlnumCountAppend(a: string, b: string)
    ensures AlnumCount(a + b) == AlnumCount(a) + AlnumCount(b)
  {
    if b == [] {
      assert a + b == a;
    } else {
      assert (a + b)[..|a + b| - 1] == a + b[..|b| - 1];
      AlnumCountAppend(a, b[..|b| - 1]);
    }
  }

  /** Underscores, spaces, `&`, `-` and every other non-alphanumeric rune add nothing to rule 1, wherever they stand. */
  lemma SeparatorsAddNothing(a: string, c: char, b: string)
    requires !IsAsciiAlnum(c)
    ensures AlnumCount(a + [c] + b) == AlnumCount(a + b)
  {
    AlnumCountAppend(a + [c], b);
    AlnumCountAppend(a, [c]);
    AlnumCountAppend(a, b);
    assert AlnumCount([c]) == 0 by {
      assert [c][..0] == [];
    }
  }

  /** `countAlphanumeric`: a counter incremented over the runes of `s`. */
  method CountAlphanumeric(s: string) returns (count: int)
    ensures count == AlnumCount(s)
  {
    count := 0;
    var i := 0;
    while i < |s|
      invariant 0 <= i <= |s|
      invariant count == AlnumCount(s[..i])
    {
      var c := s[i];
      if ('a' <= c <= 'z') || ('A' <= c <= 'Z') || ('0' <= c <= '9') {
        count := count + 1;
      }
      assert s[..i + 1][..i] == s[..i];
      i := i + 1;
    }
    assert s[..i] == s;
  }

  // Rules 2 and 3

  function RoundDollarPoints(total: string): nat {
    if HasSuffix(total, ".00") then 50 else 0
  }

  /** Rule 2 gives 50 or nothing, and on a money string it gives 50 exactly when the cents part is zero. */
  lemma RoundDollarRule(total: string)
    ensures RoundDollarPoints(total) == 0 || RoundDollarPoints(total) == 50
    ensures MoneyPattern(total) ==> (RoundDollarPoints(total) == 50 <==> Cents(total) % 100 == 0)
  {
    if MoneyPattern(total) {
      var n := |total|;
      assert HasSuffix(total, ".00") <==> total[n - 2] == '0' && total[n - 1] == '0' by {
        assert total[n - 3..] == [total[n - 3], total[n - 2], total[n - 1]];
      }
    }
  }

  /** `isTotalMultipleOf25Cents`: a total that does not parse is not a multiple. */
  predicate IsTotalMultipleOf25Cents(total: string) {
    match ParseCents(total)
    case None => false
    case Some(cents) => cents % 25 == 0
  }

  /** A total that does not parse is never a multiple; one that does is a multiple exactly when its cents part is 00, 25, 50 or 75. */
  lemma QuarterRule(total: string)
    ensures IsTotalMultipleOf25Cents(total) ==> MoneyPattern(total)
    ensures MoneyPattern(total) ==> (IsTotalMultipleOf25Cents(total) <==>
      var part := Cents(total) % 100; part == 0 || part == 25 || part == 50 || part == 75)
  {
    if MoneyPattern(total) {
      QuarterOfHundred(Cents(total));
    }
  }

  function QuarterPoints(total: string): nat {
    if IsTotalMultipleOf25Cents(total) then 25 else 0
  }

  /**
   * On a total of the form `\d+\.\d{2}` rules 2 and 3 depend only on the cents
   * part: ".00" earns both, ".25", ".50" and ".75" earn only rule 3, any other
   * cents part earns neither.
   */
  lemma CentsPartRules(total: string)
    requires MoneyPattern(total)
    ensures var part := Cents(total) % 100;
      && RoundDollarPoints(total) == (if part == 0 then 50 else 0)
      && QuarterPoints(total) == (if part == 0 || part == 25 || part == 50 || part == 75 then 25 else 0)
  {
    RoundDollarRule(total);
    QuarterRule(total);
  }

  /** 25 divides 100, so divisibility by 25 depends only on the last two decimal digits. */
  lemma QuarterOfHundred(c: nat)
    ensures var part := c % 100;
      c % 25 == 0 <==> part == 0 || part == 25 || part == 50 || part == 75
  {
    var q, part := c / 100, c % 100;
    assert c == 25 * (4 * q) + part;
    ShiftByQuarters(4 * q, part);
  }

  lemma {:induction false} ShiftByQuarters(k: nat, p: nat)
    ensures (25 * k + p) % 25 == p % 25
  {
    if k > 0 {
      ShiftByQuarters(k - 1, p);
      assert 25 * k + p == (25 * (k - 1) + p) + 25;
    }
  }

  // Rule 4

  /** Rule 4: 5 points for every two items; an odd item out earns nothing. */
  function ItemPairPoints(items: seq<Item>): (p: nat)
    ensures p % 5 == 0 && 2 * p <= 5 * |items| < 2 * p + 10
  {
    (|items| / 2) * 5
  }

  // Rule 5

  /** The price times 0.2 rounded up, on integer cents: the least `n` with `n * 500 >= cents`. */
  function FifthRoundedUp(cents: nat): (n: nat)
    ensures n * 500 >= cents && n * 500 < cents + 500
  {
    (cents + 499) / 500
  }

  /** Rule 5 for one item; a price that does not parse counts as zero, as the ignored `ParseFloat` error leaves it. */
  function DescriptionPoints(item: Item): nat {
    if Utf8Length(TrimSpace(item.shortDescription)) % 3 == 0 then
      match ParseCents(item.price)
      case None => 0
      case Some(cents) => FifthRoundedUp(cents)
    else 0
  }

  /**
   * An item earns under rule 5 only when its trimmed description's length is
   * a multiple of 3 and its price parses, and then it earns a fifth of the
   * price rounded up to whole points; such an item with a non-zero price
   * always earns something.
   */
  lemma DescriptionPointsMeaning(item: Item)
    ensures var p := DescriptionPoints(item);
      p > 0 ==>
        && Utf8Length(TrimSpace(item.shortDescription)) % 3 == 0
        && MoneyPattern(item.price)
        && (p - 1) * 500 < Cents(item.price) <= p * 500
    ensures Utf8Length(TrimSpace(item.shortDescription)) % 3 == 0 && MoneyPattern(item.price) && Cents(item.price) > 0
      ==> DescriptionPoints(item) > 0
  {
  }

  /** Rule 5 summed over the items. */
  function AllDescriptionPoints(items: seq<Item>): nat {
    if items == [] then 0
    else AllDescriptionPoints(items[..|items| - 1]) + DescriptionPoints(items[|items| - 1])
  }

  /** Rule 5 gives nothing in total when no item earns anything. */
  lemma {:induction false} NothingEarnedNoSum(items: seq<Item>)
    requires forall k :: 0 <= k < |items| ==> DescriptionPoints(items[k]) == 0
    ensures AllDescriptionPoints(items) == 0
  {
    if items != [] {
      var init := items[..|items| - 1];
      forall k | 0 <= k < |init| ensures DescriptionPoints(init[k]) == 0 {
        assert init[k] == items[k];
      }
      NothingEarnedNoSum(init);
    }
  }

  lemma SingleItemDescriptionPoints(a: Item)
    ensures AllDescriptionPoints([a]) == DescriptionPoints(a)
  {
    assert [a][..0] == [];
  }

  lemma PairDescriptionPoints(a: Item, b: Item)
    ensures AllDescriptionPoints([a, b]) == DescriptionPoints(a) + DescriptionPoints(b)
  {
    var pair := [a, b];
    assert pair[..1] == [a];
    SingleItemDescriptionPoints(a);
  }

  lemma AllDescriptionPointsStep(items: seq<Item>, i: nat)
    requires i < |items|
    ensures AllDescriptionPoints(items[..i + 1]) == AllDescriptionPoints(items[..i]) + DescriptionPoints(items[i])
  {
    assert items[..i + 1][..i] == items[..i];
  }

  /** Each item earns its rule-5 points independently of the others. */
  lemma {:induction false} AllDescriptionPointsAppend(a: seq<Item>, b: seq<Item>)
    ensures AllDescriptionPoints(a + b) == AllDescriptionPoints(a) + AllDescriptionPoints(b)
  {
    if b == [] {
      assert a + b == a;
    } else {
      assert (a + b)[..|a + b| - 1] == a + b[..|b| - 1];
      AllDescriptionPointsAppend(a, b[..|b| - 1]);
    }
  }

  /**
   * On an item that passed validation the length Go measures in bytes is the
   * number of characters of the trimmed description, and the price parses.
   */
  lemma DescriptionPointsOfValidItem(item: Item)
    requires ValidateItem(item).Pass?
    ensures var trimmed := TrimSpace(item.shortDescription);
      DescriptionPoints(item) ==
        if |trimmed| % 3 == 0 then FifthRoundedUp(Cents(item.price)) else 0
  {
    TrimmedDescriptionIsAscii(item.shortDescription);
  }

  lemma TrimmedDescriptionIsAscii(d: string)
    requires DescriptionPattern(d)
    ensures Utf8Length(TrimSpace(d)) == |TrimSpace(d)|
  {
    TrimSpaceKeepsAscii(d);
  }

  // Rules 6 and 7

  /** `isPurchaseDateOdd`: a date that does not parse is not odd. */
  predicate IsPurchaseDateOdd(date: string)
    ensures IsPurchaseDateOdd(date) ==> ParseDate(date).Some?
  {
    match ParseDate(date)
    case None => false
    case Some(d) => d.day % 2 != 0
  }

  function OddDayPoints(date: string): nat {
    if IsPurchaseDateOdd(date) then 6 else 0
  }

  /** `isPurchaseTimeBetween2And4PM`: a time that does not parse is not in the window. */
  predicate IsPurchaseTimeBetween2And4PM(time: string)
    ensures IsPurchaseTimeBetween2And4PM(time) ==> ParseClock(time).Some?
  {
    match ParseClock(time)
    case None => false
    case Some(c) => c.hour >= 14 && c.hour < 16
  }

  function AfternoonPoints(time: string): nat {
    if IsPurchaseTimeBetween2And4PM(time) then 10 else 0
  }

  /** Rule 6 reads the last digit of an accepted "YYYY-MM-DD" string: an odd digit earns 6. */
  lemma OddDayRule(date: string)
    ensures OddDayPoints(date) == 6 <==>
      ParseDate(date).Some? && (date[9] == '1' || date[9] == '3' || date[9] == '5' || date[9] == '7' || date[9] == '9')
  {
    if ParseDate(date).Some? {
      var d := ParseDate(date).value;
      DateStringIsCanonical(date);
      assert date[9] == Digit(d.day % 10);
    }
  }

  /** An accepted time is in the window exactly when it starts with "14" or "15": a one-digit hour never is. */
  lemma AfternoonByPrefix(time: string)
    ensures IsPurchaseTimeBetween2And4PM(time) <==>
      ParseClock(time).Some? && time[0] == '1' && (time[1] == '4' || time[1] == '5')
  {
  }

  /** Rule 7 holds exactly for the accepted times in the half-open window [14:00, 16:00). */
  lemma AfternoonWindow(time: string)
    ensures AfternoonPoints(time) == 10 <==>
      ParseClock(time).Some? && 14 * 60 <= ParseClock(time).value.hour * 60 + ParseClock(time).value.minute < 16 * 60
  {
  }

  /** Inside the window of rule 7: its first and its last minute. */
  lemma AfternoonInside()
    ensures AfternoonPoints("14:00") == 10 && AfternoonPoints("15:59") == 10
  {
  }

  /** Outside the window of rule 7: the minute before it and the minute after it. */
  lemma AfternoonOutside()
    ensures AfternoonPoints("13:59") == 0 && AfternoonPoints("16:00") == 0
  {
  }

  /** The boundaries of rules 2 and 3. */
  lemma TotalBoundaries()
    ensures RoundDollarPoints("100.00") == 50 && QuarterPoints("100.00") == 25
    ensures RoundDollarPoints("100.25") == 0 && QuarterPoints("100.25") == 25
    ensures RoundDollarPoints("100.10") == 0 && QuarterPoints("100.10") == 0
  {
    CentsPartRules("100.00");
    CentsPartRules("100.25");
    CentsPartRules("100.10");
  }

  // The sum

  /** `calculatePoints` as a function of the receipt: the seven contributions, each of them non-negative. */
  function Points(r: Receipt): (p: int)
    ensures p >= 0
  {
    AlnumCount(r.retailer)
    + RoundDollarPoints(r.total)
    + QuarterPoints(r.total)
    + ItemPairPoints(r.items)
    + AllDescriptionPoints(r.items)
    + OddDayPoints(r.purchaseDate)
    + AfternoonPoints(r.purchaseTime)
  }

  /** Two more items add 5 points for the pair plus what each of them earns under rule 5, and nothing else changes. */
  lemma TwoMoreItems(r: Receipt, a: Item, b: Item)
    ensures Points(r.(items := r.items + [a, b])) == Points(r) + 5 + DescriptionPoints(a) + DescriptionPoints(b)
  {
    var more := r.items + [a, b];
    AllDescriptionPointsAppend(r.items, [a, b]);
    PairDescriptionPoints(a, b);
    assert ItemPairPoints(more) == ItemPairPoints(r.items) + 5 by {
      assert |more| / 2 == |r.items| / 2 + 1;
    }
  }

  /** The body of the rule-5 loop of `calculatePoints` for one item: the `ParseFloat` error is ignored, leaving a zero price. */
  method ItemPoints(item: Item) returns (earned: int)
    ensures earned == DescriptionPoints(item)
  {
    earned := 0;
    if Utf8Length(TrimSpace(item.shortDescription)) % 3 == 0 {
      var price := ParseCents(item.price);
      var cents := if price.Some? then price.value else 0;
      earned := FifthRoundedUp(cents);
    }
  }

  /** `calculatePoints` as the handler runs it: a `points` accumulator and a loop over the items for rule 5. */
  method CalculatePoints(r: Receipt) returns (points: int)
    ensures points == Points(r)
  {
    points := 0;
    var alnum := CountAlphanumeric(r.retailer);
    points := points + alnum;
    if HasSuffix(r.total, ".00") {
      points := points + 50;
    }
    assert points == alnum + RoundDollarPoints(r.total) by {
      if HasSuffix(r.total, ".00") {} else {}
    }
    ghost var afterRound := points;
    if IsTotalMultipleOf25Cents(r.total) {
      points := points + 25;
    }
    assert points == afterRound + QuarterPoints(r.total) by {
      if IsTotalMultipleOf25Cents(r.total) {} else {}
    }
    points := points + (|r.items| / 2) * 5;
    ghost var beforeItems := points;
    var i := 0;
    while i < |r.items|
      invariant 0 <= i <= |r.items|
      invariant points == beforeItems + AllDescriptionPoints(r.items[..i])
    {
      var earned := ItemPoints(r.items[i]);
      AllDescriptionPointsStep(r.items, i);
      points := points + earned;
      i := i + 1;
    }
    assert r.items[..i] == r.items;
    assert points == beforeItems + AllDescriptionPoints(r.items);
    ghost var afterItems := points;
    if IsPurchaseDateOdd(r.purchaseDate) {
      points := points + 6;
    }
    assert points == afterItems + OddDayPoints(r.purchaseDate) by {
      if IsPurchaseDateOdd(r.purchaseDate) {} else {}
    }
    ghost var afterDate := points;
    if IsPurchaseTimeBetween2And4PM(r.purchaseTime) {
      points := points + 10;
    }
    assert points == afterDate + AfternoonPoints(r.purchaseTime) by {
      if IsPurchaseTimeBetween2And4PM(r.purchaseTime) {} else {}
    }
  }
}
