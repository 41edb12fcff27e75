/**
 * The worked example of the scoring rules: retailer "Target", items
 * "Mountain Dew 12PK" at 6.49 and "Emils Cheese Pizza" at 12.25, total
 * 18.74, bought on 2022-01-01 at 13:01. It passes validation and scores
 * 6 (six letters) + 5 (one pair of items) + 3 (18 characters, 12.25 * 0.2
 * rounded up) + 6 (the 1st is odd) = 20. Each fact about a literal is proved
 * on its own, which keeps every proof small.
 */
module WorkedExample {
  import opened Wrappers
  import opened GoText
  import opened Formats
  import opened Layouts
  import opened Models
  import opened Validation
  import opened Scoring

  lemma DewDescription(d: string)
    requires d == "Mountain Dew 12PK"
    ensures TrimSpace(d) == d
  {
    assert !IsUnicodeSpace(d[0]) && !IsUnicodeSpace(d[|d| - 1]);
  }

  lemma DewPattern(d: string)
    requires d == "Mountain Dew 12PK"
    ensures DescriptionPattern(d) && MoneyPattern("6.49")
  {
  }

  lemma PizzaDescription(d: string)
    requires d == "Emils Cheese Pizza"
    ensures TrimSpace(d) == d
  {
    assert !IsUnicodeSpace(d[0]) && !IsUnicodeSpace(d[|d| - 1]);
  }

  lemma PizzaPattern(d: string)
    requires d == "Emils Cheese Pizza"
    ensures DescriptionPattern(d) && MoneyPattern("12.25")
  {
  }

  lemma PizzaPrice()
    ensures ParseCents("12.25") == Some(1225)
  {
    var s := "12.25";
    assert s[..2] == "12";
    assert DigitsValue("12") == 12;
  }

  /** 17 characters: not a multiple of 3, so nothing. */
  lemma DewEarnsNothing(d: string, item: Item)
    requires d == "Mountain Dew 12PK" && item == Item(d, "6.49")
    ensures ValidateItem(item) == Pass && DescriptionPoints(item) == 0
  {
    DewDescription(d);
    DewPattern(d);
    TrimmedDescriptionIsAscii(d);
    assert Utf8Length(TrimSpace(d)) == 17;
  }

  /** 18 characters: a multiple of 3, so 1225 cents / 500 rounded up = 3. */
  lemma PizzaEarnsThree(d: string, item: Item)
    requires d == "Emils Cheese Pizza" && item == Item(d, "12.25")
    ensures ValidateItem(item) == Pass && DescriptionPoints(item) == 3
  {
    PizzaDescription(d);
    PizzaPattern(d);
    TrimmedDescriptionIsAscii(d);
    assert Utf8Length(TrimSpace(d)) == 18;
    PizzaPrice();
  }

  lemma PurchaseDate()
    ensures ParseDate("2022-01-01") == Some(Date(2022, 1, 1)) && OddDayPoints("2022-01-01") == 6
  {
    assert FormatDate(Date(2022, 1, 1)) == "2022-01-01";
    DateRoundTrip(Date(2022, 1, 1));
  }

  lemma PurchaseTime()
    ensures ParseClock("13:01") == Some(Clock(13, 1)) && AfternoonPoints("13:01") == 0
  {
  }

  lemma RetailerAndTotal()
    ensures RetailerPattern("Target") && AlnumCount("Target") == 6
    ensures MoneyPattern("18.74") && RoundDollarPoints("18.74") == 0 && QuarterPoints("18.74") == 0
  {
    CentsPartRules("18.74");
  }

  lemma BothItemsValid(dew: Item, pizza: Item)
    requires dew == Item("Mountain Dew 12PK", "6.49") && pizza == Item("Emils Cheese Pizza", "12.25")
    ensures ValidateItems([dew, pizza]) == Pass
  {
    DewEarnsNothing(dew.shortDescription, dew);
    PizzaEarnsThree(pizza.shortDescription, pizza);
  }

  lemma BothItemsPoints(dew: Item, pizza: Item)
    requires DescriptionPoints(dew) == 0 && DescriptionPoints(pizza) == 3
    ensures AllDescriptionPoints([dew, pizza]) == 3
  {
    PairDescriptionPoints(dew, pizza);
  }

  lemma TargetReceiptIsValid(r: Receipt)
    requires r == Receipt("Target", "2022-01-01", "13:01",
                          [Item("Mountain Dew 12PK", "6.49"), Item("Emils Cheese Pizza", "12.25")], "18.74")
    ensures Validate(r) == Pass
  {
    var dew, pizza := r.items[0], r.items[1];
    BothItemsValid(dew, pizza);
    assert r.items == [dew, pizza];
    PurchaseDate();
    PurchaseTime();
    RetailerAndTotal();
  }

  /** 6 + 0 + 0 + 5 + 3 + 6 + 0, for any receipt whose rules give these amounts. */
  lemma TwentyFromRules(r: Receipt)
    requires AlnumCount(r.retailer) == 6 && RoundDollarPoints(r.total) == 0 && QuarterPoints(r.total) == 0
    requires ItemPairPoints(r.items) == 5 && AllDescriptionPoints(r.items) == 3
    requires OddDayPoints(r.purchaseDate) == 6 && AfternoonPoints(r.purchaseTime) == 0
    ensures Points(r) == 20
  {
  }

  lemma TargetReceiptPoints(r: Receipt)
    requires r == Receipt("Target", "2022-01-01", "13:01",
                          [Item("Mountain Dew 12PK", "6.49"), Item("Emils Cheese Pizza", "12.25")], "18.74")
    ensures Points(r) == 20
  {
    assert AllDescriptionPoints(r.items) == 3 by {
      var dew, pizza := r.items[0], r.items[1];
      DewEarnsNothing(dew.shortDescription, dew);
      PizzaEarnsThree(pizza.shortDescription, pizza);
      BothItemsPoints(dew, pizza);
      assert r.items == [dew, pizza];
    }
    assert ItemPairPoints(r.items) == 5 by {
      assert |r.items| == 2;
    }
    assert OddDayPoints(r.purchaseDate) == 6 && AfternoonPoints(r.purchaseTime) == 0 by {
      PurchaseDate();
      PurchaseTime();
    }
    assert AlnumCount(r.retailer) == 6 && RoundDollarPoints(r.total) == 0 && QuarterPoints(r.total) == 0 by {
      RetailerAndTotal();
    }
    TwentyFromRules(r);
  }

  /** The receipt passes validation and scores 20 points. */
  lemma TargetReceiptScoresTwenty(r: Receipt)
    requires r == Receipt("Target", "2022-01-01", "13:01",
                          [Item("Mountain Dew 12PK", "6.49"), Item("Emils Cheese Pizza", "12.25")], "18.74")
    ensures Validate(r) == Pass && Points(r) == 20
  {
    TargetReceiptIsValid(r);
    TargetReceiptPoints(r);
  }
}
