/**
 * `validateReceipt` and `validateItem`: a chain of checks that stops at the
 * first failure. For a receipt, five missing-field checks come first
 * (retailer, date, time, at least one item, total), then the retailer, date,
 * time and total formats, then the items in order.
 */
module Validation {
  import opened GoText
  import opened Formats
  import opened Layouts
  import opened Models

  /** One constructor per error the handlers can return, in the order they are checked. */
  datatype ValidationError =
    | RetailerRequired
    | PurchaseDateRequired
    | PurchaseTimeRequired
    | ItemsRequired
    | TotalRequired
    | InvalidRetailer
    | InvalidPurchaseDate
    | InvalidPurchaseTime
    | InvalidTotal
    | ItemDescriptionRequired
    | ItemPriceRequired
    | InvalidItemDescription
    | InvalidItemPrice
  {
    predicate IsItemError() {
      ItemDescriptionRequired? || ItemPriceRequired? || InvalidItemDescription? || InvalidItemPrice?
    }

    /** The checks for an empty field, as opposed to a field in the wrong format. */
    predicate IsMissingField() {
      || RetailerRequired? || PurchaseDateRequired? || PurchaseTimeRequired? || ItemsRequired? || TotalRequired?
      || ItemDescriptionRequired? || ItemPriceRequired?
    }
  }

  /** What the message of each error is about. */
  function Subject(e: ValidationError): string {
    match e
    case RetailerRequired => "retailer"
    case PurchaseDateRequired => "purchaseDate"
    case PurchaseTimeRequired => "purchaseTime"
    case ItemsRequired => "at least one item"
    case TotalRequired => "total"
    case InvalidRetailer => "retailer name"
    case InvalidPurchaseDate => "purchase date"
    case InvalidPurchaseTime => "purchase time"
    case InvalidTotal => "total"
    case ItemDescriptionRequired => "item short description"
    case ItemPriceRequired => "item price"
    case InvalidItemDescription => "item short description"
    case InvalidItemPrice => "item price"
  }

  /**
   * The text of the error each check reports: "<field> is required" for an
   * empty field and "invalid <field> format" for a field in the wrong format
   * ("retailer is required", "invalid total format", ...).
   */
  function Message(e: ValidationError): (m: string)
    ensures e.IsMissingField() ==> HasSuffix(m, " is required") && !HasSuffix(m, " format")
    ensures !e.IsMissingField() ==> HasPrefix(m, "invalid ") && HasSuffix(m, " format") && !HasSuffix(m, " is required")
  {
    if e.IsMissingField() then
      var m := Subject(e) + " is required";
      SuffixOfConcat(Subject(e), " is required");
      assert m[|m| - 1] == 'd';
      m
    else
      var m := "invalid " + Subject(e) + " format";
      SuffixOfConcat("invalid " + Subject(e), " format");
      assert m[..8] == "invalid ";
      assert m[|m| - 1] == 't';
      m
  }

  /** A `nil` error or the first error found. */
  datatype Outcome = Pass | Fail(error: ValidationError)

  /** `validateItem`: an item passes exactly when both of its fields match their patterns. */
  function ValidateItem(i: Item): (o: Outcome)
    ensures o.Pass? <==> DescriptionPattern(i.shortDescription) && MoneyPattern(i.price)
    ensures o.Fail? ==> o.error.IsItemError()
  {
    if i.shortDescription == "" then Fail(ItemDescriptionRequired)
    else if i.price == "" then Fail(ItemPriceRequired)
    else if !DescriptionPattern(i.shortDescription) then Fail(InvalidItemDescription)
    else if !MoneyPattern(i.price) then Fail(InvalidItemPrice)
    else Pass
  }

  /** The loop over the items: the first item that fails decides the outcome. */
  function ValidateItems(items: seq<Item>): (o: Outcome)
    ensures o.Pass? <==> forall k :: 0 <= k < |items| ==> ValidateItem(items[k]).Pass?
    ensures o.Fail? ==> o.error.IsItemError()
  {
    if items == [] then Pass
    else if ValidateItem(items[0]).Fail? then ValidateItem(items[0])
    else ValidateItems(items[1..])
  }

  /** `validateReceipt`. */
  function Validate(r: Receipt): (o: Outcome)
    ensures o.Pass? <==> WellFormed(r)
  {
    if r.retailer == "" then Fail(RetailerRequired)
    else if r.purchaseDate == "" then Fail(PurchaseDateRequired)
    else if r.purchaseTime == "" then Fail(PurchaseTimeRequired)
    else if |r.items| == 0 then Fail(ItemsRequired)
    else if r.total == "" then Fail(TotalRequired)
    else if !RetailerPattern(r.retailer) then Fail(InvalidRetailer)
    else if ParseDate(r.purchaseDate).None? then Fail(InvalidPurchaseDate)
    else if ParseClock(r.purchaseTime).None? then Fail(InvalidPurchaseTime)
    else if !MoneyPattern(r.total) then Fail(InvalidTotal)
    else ValidateItems(r.items)
  }

  /** What an accepted receipt looks like, field by field, with no reference to the order of the checks. */
  predicate WellFormed(r: Receipt) {
    && RetailerPattern(r.retailer)
    && ParseDate(r.purchaseDate).Some?
    && ParseClock(r.purchaseTime).Some?
    && |r.items| > 0
    && MoneyPattern(r.total)
    && forall k :: 0 <= k < |r.items| ==>
         DescriptionPattern(r.items[k].shortDescription) && MoneyPattern(r.items[k].price)
  }

  /** The first item that fails is the one whose error the item loop reports. */
  lemma {:induction false} FirstFailingItem(items: seq<Item>, k: nat)
    requires k < |items|
    requires forall j :: 0 <= j < k ==> ValidateItem(items[j]).Pass?
    requires ValidateItem(items[k]).Fail?
    ensures ValidateItems(items) == ValidateItem(items[k])
  {
    if k > 0 {
      assert ValidateItem(items[0]).Pass?;
      FirstFailingItem(items[1..], k - 1);
    }
  }

  /** A check in the chain: passes when `ok`, otherwise fails with `e`. */
  function Check(ok: bool, e: ValidationError): Outcome {
    if ok then Pass else Fail(e)
  }

  /** Every check `validateReceipt` makes, in the order it makes them. */
  function Checks(r: Receipt): seq<Outcome> {
    FieldChecks(r) + ItemChecks(r.items)
  }

  /** The checks on the receipt's own fields, made before any item is looked at. */
  function FieldChecks(r: Receipt): seq<Outcome> {
    [ Check(r.retailer != "", RetailerRequired),
      Check(r.purchaseDate != "", PurchaseDateRequired),
      Check(r.purchaseTime != "", PurchaseTimeRequired),
      Check(|r.items| != 0, ItemsRequired),
      Check(r.total != "", TotalRequired),
      Check(RetailerPattern(r.retailer), InvalidRetailer),
      Check(ParseDate(r.purchaseDate).Some?, InvalidPurchaseDate),
      Check(ParseClock(r.purchaseTime).Some?, InvalidPurchaseTime),
      Check(MoneyPattern(r.total), InvalidTotal) ]
  }

  function ItemChecks(items: seq<Item>): (cs: seq<Outcome>)
    ensures |cs| == |items| && forall k :: 0 <= k < |items| ==> cs[k] == ValidateItem(items[k])
  {
    if items == [] then [] else [ValidateItem(items[0])] + ItemChecks(items[1..])
  }

  /** The first failing outcome of a sequence of checks, or `Pass` when none fails. */
  function FirstFailure(cs: seq<Outcome>): (o: Outcome)
    ensures o.Pass? <==> forall k :: 0 <= k < |cs| ==> cs[k].Pass?
    ensures o.Fail? ==> exists k :: 0 <= k < |cs| && cs[k] == o && forall j :: 0 <= j < k ==> cs[j].Pass?
  {
    if cs == [] then Pass
    else if cs[0].Fail? then cs[0]
    else
      var o := FirstFailure(cs[1..]);
      assert o.Fail? ==> exists k :: 0 < k < |cs| && cs[k] == o && forall j :: 0 <= j < k ==> cs[j].Pass? by {
        if o.Fail? {
          var k :| 0 <= k < |cs| - 1 && cs[1..][k] == o && forall j :: 0 <= j < k ==> cs[1..][j].Pass?;
          assert cs[k + 1] == o;
          assert forall j :: 0 <= j < k + 1 ==> cs[j].Pass? by {
            forall j | 0 < j < k + 1 ensures cs[j].Pass? {
              assert cs[j] == cs[1..][j - 1];
            }
          }
        }
      }
      o
  }

  lemma {:induction false} FirstFailureOfItems(items: seq<Item>)
    ensures FirstFailure(ItemChecks(items)) == ValidateItems(items)
  {
    if items != [] {
      FirstFailureOfItems(items[1..]);
      assert ItemChecks(items)[1..] == ItemChecks(items[1..]);
    }
  }

  lemma {:induction false} FirstFailureSkipsPasses(pre: seq<Outcome>, rest: seq<Outcome>)
    requires forall k :: 0 <= k < |pre| ==> pre[k].Pass?
    ensures FirstFailure(pre + rest) == FirstFailure(rest)
  {
    if pre == [] {
      assert pre + rest == rest;
    } else {
      assert (pre + rest)[1..] == pre[1..] + rest;
      FirstFailureSkipsPasses(pre[1..], rest);
    }
  }

  lemma {:induction false} FirstFailureAt(cs: seq<Outcome>, k: nat)
    requires k < |cs| && cs[k].Fail?
    requires forall j :: 0 <= j < k ==> cs[j].Pass?
    ensures FirstFailure(cs) == cs[k]
  {
    if k > 0 {
      FirstFailureAt(cs[1..], k - 1);
    }
  }

  /** `validateReceipt` reports the first of its checks that fails, in the fixed order of `Checks`. */
  lemma ValidateReportsFirstFailure(r: Receipt)
    ensures Validate(r) == FirstFailure(Checks(r))
  {
    if Validate(r).Fail? && !Validate(r).error.IsItemError() {
      TopLevelFailureIsFirst(r);
    } else {
      FirstFailureSkipsPasses(FieldChecks(r), ItemChecks(r.items));
      FirstFailureOfItems(r.items);
    }
  }

  lemma TopLevelFailureIsFirst(r: Receipt)
    requires Validate(r).Fail? && !Validate(r).error.IsItemError()
    ensures Validate(r) == FirstFailure(Checks(r))
  {
    var k :=
      if r.retailer == "" then 0
      else if r.purchaseDate == "" then 1
      else if r.purchaseTime == "" then 2
      else if |r.items| == 0 then 3
      else if r.total == "" then 4
      else if !RetailerPattern(r.retailer) then 5
      else if ParseDate(r.purchaseDate).None? then 6
      else if ParseClock(r.purchaseTime).None? then 7
      else 8;
    var cs := Checks(r);
    assert cs[k] == FieldChecks(r)[k] == Validate(r);
    FirstFailureAt(cs, k);
  }

  /** `validateReceipt` as the handler runs it: the checks in order, then a loop over the items with an early return. */
  method ValidateReceipt(r: Receipt) returns (o: Outcome)
    ensures o == Validate(r)
  {
    if r.retailer == "" { return Fail(RetailerRequired); }
    if r.purchaseDate == "" { return Fail(PurchaseDateRequired); }
    if r.purchaseTime == "" { return Fail(PurchaseTimeRequired); }
    if |r.items| == 0 { return Fail(ItemsRequired); }
    if r.total == "" { return Fail(TotalRequired); }
    if !RetailerPattern(r.retailer) { return Fail(InvalidRetailer); }
    if ParseDate(r.purchaseDate).None? { return Fail(InvalidPurchaseDate); }
    if ParseClock(r.purchaseTime).None? { return Fail(InvalidPurchaseTime); }
    if !MoneyPattern(r.total) { return Fail(InvalidTotal); }
    var i := 0;
    while i < |r.items|
      invariant 0 <= i <= |r.items|
      invariant forall j :: 0 <= j < i ==> ValidateItem(r.items[j]).Pass?
    {
      var e := ValidateItem(r.items[i]);
      if e.Fail? {
        FirstFailingItem(r.items, i);
        return e;
      }
      i := i + 1;
    }
    return Pass;
  }
}
