/**
 * The in-memory store behind `ProcessReceipt` and `GetPoints`: a map from
 * receipt identifier to the processed receipt kept under it. A submission
 * that passes validation is scored and inserted under a fresh identifier;
 * one that fails leaves the map alone. A lookup reads the map and changes
 * nothing. Entries are never updated or removed.
 */
module Store {
  import opened Models
  import opened Validation
  import opened Scoring

  /** What a submission returns: the new identifier, or the first validation error. */
  datatype Submission = Accepted(id: string) | Rejected(error: ValidationError)

  /** What a lookup returns. */
  datatype Lookup = Found(points: int) | NotFound

  class ReceiptStore {
    var receipts: map<string, ProcessedReceipt>

    /** Every entry is filed under its own identifier and holds a non-negative score. */
    ghost predicate Valid()
      reads this
    {
      forall id :: id in receipts ==> receipts[id].id == id && receipts[id].points >= 0
    }

    constructor ()
      ensures Valid() && receipts == map[]
    {
      receipts := map[];
    }

    /**
     * `ProcessReceipt`: validate, score, and insert under `freshId`, which the
     * handler draws from `uuid.New()` and which is not yet in use.
     */
    method ProcessReceipt(r: Receipt, freshId: string) returns (result: Submission)
      requires Valid()
      requires freshId !in receipts
      modifies this
      ensures Valid()
      ensures Validate(r).Fail? ==> result == Rejected(Validate(r).error) && receipts == old(receipts)
      ensures Validate(r).Pass? ==>
        && result == Accepted(freshId)
        && receipts == old(receipts)[freshId := ProcessedReceipt(freshId, Points(r))]
    {
      var outcome := ValidateReceipt(r);
      if outcome.Fail? {
        return Rejected(outcome.error);
      }
      var points := CalculatePoints(r);
      receipts := receipts[freshId := ProcessedReceipt(freshId, points)];
      return Accepted(freshId);
    }

    /** `GetPoints`: the points stored under `id`, or not-found. */
    method GetPoints(id: string) returns (result: Lookup)
      requires Valid()
      ensures id in receipts ==> result == Found(receipts[id].points) && result.points >= 0
      ensures id !in receipts ==> result == NotFound
    {
      if id !in receipts {
        return NotFound;
      }
      var receipt := receipts[id];
      return Found(receipt.points);
    }
  }

  /**
   * A client of the store: after a successful submission, looking up the
   * returned identifier twice gives the receipt's points both times, and an
   * identifier that was never issued is not found.
   */
  method SubmitThenLookUp(store: ReceiptStore, r: Receipt, freshId: string, unknown: string)
    returns (first: Lookup, second: Lookup, missing: Lookup)
    requires store.Valid() && freshId !in store.receipts
    requires unknown !in store.receipts && unknown != freshId
    requires Validate(r).Pass?
    modifies store
    ensures first == second == Found(Points(r))
    ensures missing == NotFound
  {
    var submitted := store.ProcessReceipt(r, freshId);
    first := store.GetPoints(submitted.id);
    second := store.GetPoints(submitted.id);
    missing := store.GetPoints(unknown);
  }
}
