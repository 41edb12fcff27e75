# Receipt processor: validation, scoring and the result store

A Dafny model of the core of the receipt-processor service. A client submits
a purchase receipt: a retailer, a purchase date and time, a list of items and
a total. The service validates it and scores it with seven fixed rules. It
stores the points under a fresh identifier and returns that identifier. A
second request looks the points up by identifier.

The model follows `internal/handlers/handlers.go`:

- `go_text.dfy` (module `GoText`) writes out the parts of Go's standard
  library the handlers use. These are the ASCII classes `\d`, `\w` and `\s`
  of Go's RE2 syntax, `unicode.IsSpace`, `strings.TrimSpace`,
  `strings.HasSuffix`, and the byte count `len` gives for a UTF-8 string.
- `formats.dfy` (module `Formats`) holds the three anchored regular
  expressions. `^[\w\s\-&]+$` is for the retailer, `^[\w\s\-]+$` is for an
  item description and `^\d+\.\d{2}$` is for money. A money string's value
  is kept in exact integer cents.
- `layouts.dfy` (module `Layouts`) is `time.Parse` for the layouts
  `2006-01-02` and `15:04`. A year has exactly four digits. Month and day
  have exactly two digits. The day is checked against its month, leap years
  included. The hour has one or two digits, as Go's `getnum` reads it for
  the `15` element, and must be below 24. The minute has two digits and must
  be below 60. Trailing text is refused.
- `models.dfy` (module `Models`) holds `Receipt`, `Item` and
  `ProcessedReceipt`, from `internal/models/receipt.go`.
- `validation.dfy` (module `Validation`) has `validateReceipt` and
  `validateItem`. Each is a pure function, and `validateReceipt` is also an
  imperative method with the item loop and its early return. Every error
  message of the source is one constructor of `ValidationError`. `Message`
  gives the text the handler reports for it.
- `scoring.dfy` (module `Scoring`) has `calculatePoints`: one function per
  rule, the sum `Points`, and the imperative `CalculatePoints` and
  `CountAlphanumeric` methods proved equal to them.
- `worked_example.dfy` (module `WorkedExample`) holds the receipt from
  "Target" that scores 20.
- `store.dfy` (module `Store`) has the class `ReceiptStore`. Its map field is
  updated by `ProcessReceipt` and read by `GetPoints`.

## Model

| member | source | states |
|---|---|---|
| `GoText.Utf8Length` | internal/handlers/handlers.go:195 | `len` of a string is at least its rune count and at most four times it; it equals the rune count exactly when every rune is ASCII |
| `GoText.IsUnicodeSpace` | internal/handlers/handlers.go:195 | every `\s` character is a `unicode.IsSpace` rune, and no space rune is a word character, `-` or `&`, so trimming never removes a character the patterns count |
| `GoText.HasSuffix` | internal/handlers/handlers.go:181 | `strings.HasSuffix`: the suffix fits in the string and is its tail |
| `GoText.SuffixOfConcat` | internal/handlers/handlers.go:181 | any string followed by a suffix has that suffix |
| `GoText.TrimSpace` | internal/handlers/handlers.go:195 | the result neither starts nor ends with a `unicode.IsSpace` rune, and a string that already did not is returned unchanged |
| `GoText.TrimLeft` | internal/handlers/handlers.go:195 | what `TrimSpace` removes at the front is a run of spaces, and the rest is an unchanged suffix |
| `GoText.TrimRight` | internal/handlers/handlers.go:195 | what `TrimSpace` removes at the back is a run of spaces, and the rest is an unchanged prefix |
| `GoText.TrimSpaceKeepsAscii` | internal/handlers/handlers.go:195 | trimming an ASCII string leaves an ASCII string |
| `Formats.Cents` | internal/handlers/handlers.go:228-233 | the digits before the point are whole units (`c / 100`) and the two digits after it are the cents part (`c % 100`) |
| `Formats.RetailerPattern` | internal/handlers/handlers.go:116 | a retailer name the pattern `^[\w\s\-&]+$` accepts is ASCII, because the classes are ASCII-only |
| `Formats.DescriptionPattern` | internal/handlers/handlers.go:159 | an item description the pattern `^[\w\s\-]+$` accepts is ASCII |
| `Formats.MoneyPattern` | internal/handlers/handlers.go:132 | a string `^\d+\.\d{2}$` accepts is ASCII and every character except the point third from the end is a digit |
| `Formats.ParseCents` | internal/handlers/handlers.go:196 | a price or total parses exactly when it matches `^\d+\.\d{2}$`, and then its value is the amount of cents the digits denote |
| `Formats.CentsRoundTrip` | internal/handlers/handlers.go:132-135 | every amount of cents, written canonically, matches the money pattern and parses back to itself |
| `Formats.DescriptionIsRetailer` | internal/handlers/handlers.go:116-118 | every description the item pattern accepts is accepted by the retailer pattern too |
| `Formats.AmpersandOnlyInRetailer` | internal/handlers/handlers.go:159-162 | on a string the retailer pattern accepts, the description pattern accepts it exactly when it has no `&` |
| `Formats.TwoFractionDigitsRequired` | internal/handlers/handlers.go:165-168 | `18.7`, `18.745` and `.74` are refused and `0.74` is accepted |
| `Layouts.DaysIn` | internal/handlers/handlers.go:122 | a month has 28 to 31 days, and 29 exactly for February of a leap year |
| `Layouts.Skip` | internal/handlers/handlers.go:122-127 | a literal of the layout (`-` or `:`) is consumed exactly when the text starts with it, and the rest is what follows it |
| `Layouts.GetNum` | internal/handlers/handlers.go:122-129 | a number is read exactly when the text starts with a digit and, for a fixed two-digit element, with two digits; it is below 100; two leading digits give their two-digit value, a single digit gives its own value, and the rest of the text follows the digits read |
| `Layouts.ParseDate` | internal/handlers/handlers.go:122-124 | an accepted date is a valid calendar date written `\d{4}-\d{2}-\d{2}`, and its year, month and day are the values of those digit groups |
| `Layouts.ParseClock` | internal/handlers/handlers.go:127-129 | an accepted time has hour < 24 and minute < 60, and the string has four or five characters |
| `Layouts.DateRoundTrip` | internal/handlers/handlers.go:122 | every valid date is accepted in its `YYYY-MM-DD` form and parses back to itself |
| `Layouts.DateStringIsCanonical` | internal/handlers/handlers.go:122 | every accepted date string is the `YYYY-MM-DD` form of the date it parses to |
| `Layouts.ClockRoundTrip` | internal/handlers/handlers.go:127 | every valid time of day is accepted in its `HH:MM` form and parses back to itself |
| `Layouts.ShortClockAccepted` | internal/handlers/handlers.go:127 | a one-digit hour (`9:30`) is accepted too |
| `Layouts.ClockStringForms` | internal/handlers/handlers.go:127 | the accepted time strings are exactly the `HH:MM` form and the one-digit-hour form |
| `Validation.ValidateItem` | internal/handlers/handlers.go:149-171 | an item passes exactly when its description matches `^[\w\s\-]+$` and its price matches `^\d+\.\d{2}$`; a failure is an item error |
| `Validation.ValidateItems` | internal/handlers/handlers.go:138-142 | the items pass exactly when every item passes |
| `Validation.Validate` | internal/handlers/handlers.go:97-145 | a receipt passes exactly when it is well formed field by field: retailer pattern, parseable date and time, at least one item, money-pattern total, every item valid |
| `Validation.FirstFailingItem` | internal/handlers/handlers.go:138-142 | when the items before index k pass and item k fails, the error reported is item k's |
| `Validation.FirstFailure` | internal/handlers/handlers.go:97-144 | the first failing outcome in a list of checks: it passes iff all pass, and a failure is the earliest one |
| `Validation.ValidateReportsFirstFailure` | internal/handlers/handlers.go:97-144 | `validateReceipt` returns the first failing check. The order is the five missing-field checks, then the retailer, date, time and total formats, then the items in order |
| `Validation.TopLevelFailureIsFirst` | internal/handlers/handlers.go:99-135 | a failure of a field check is the first failing check of that list |
| `Validation.Message` | internal/handlers/handlers.go:100-167 | a missing-field error reads `… is required` and no other error does; every format error reads `invalid … format` |
| `Validation.ValidateReceipt` | internal/handlers/handlers.go:97-145 | the handler's check sequence and item loop with early return compute `Validate` |
| `Scoring.AlnumCount` | internal/handlers/handlers.go:217-225 | rule 1 counts at most the retailer's length, and exactly its length iff every rune is an ASCII letter or digit |
| `Scoring.AlnumCountAppend` | internal/handlers/handlers.go:217-225 | the count of a concatenation is the sum of the counts |
| `Scoring.SeparatorsAddNothing` | internal/handlers/handlers.go:178 | inserting `_`, a space, `&`, `-` or any other non-alphanumeric rune anywhere leaves rule 1 unchanged |
| `Scoring.CountAlphanumeric` | internal/handlers/handlers.go:217-225 | the counting loop computes `AlnumCount` |
| `Scoring.RoundDollarRule` | internal/handlers/handlers.go:181-183 | rule 2 gives 50 or nothing, and on a valid total it gives 50 exactly when the cents part is `00` |
| `Scoring.QuarterRule` | internal/handlers/handlers.go:228-235 | a total that does not parse is never a multiple of 25 cents; one that parses is a multiple exactly when its cents part is `00`, `25`, `50` or `75` |
| `Scoring.CentsPartRules` | internal/handlers/handlers.go:181-188 | on a valid total, cents part `00` earns 50 and 25, `25`/`50`/`75` earn only 25, any other earns neither |
| `Scoring.QuarterOfHundred` | internal/handlers/handlers.go:233-234 | a cent amount is a multiple of 25 exactly when its last two digits are 00, 25, 50 or 75 |
| `Scoring.TotalBoundaries` | internal/handlers/handlers.go:228-235 | `100.00` earns 50 and 25, `100.25` earns only 25, `100.10` earns neither |
| `Scoring.FifthRoundedUp` | internal/handlers/handlers.go:196-197 | price × 0.2 rounded up, on cents: the least n with `500 * n >= cents` |
| `Scoring.ItemPairPoints` | internal/handlers/handlers.go:191 | rule 4 gives a multiple of 5 and, for n items, 5 per complete pair: `2p <= 5n < 2p + 10` |
| `Scoring.DescriptionPointsMeaning` | internal/handlers/handlers.go:194-199 | an item earns rule-5 points only if its trimmed description has a byte length divisible by 3 and its price is valid, and then it earns ceil(cents / 500); such an item with a nonzero price always earns something |
| `Scoring.NothingEarnedNoSum` | internal/handlers/handlers.go:194-199 | when no item earns rule-5 points, the rule adds nothing to the score |
| `Scoring.AllDescriptionPointsAppend` | internal/handlers/handlers.go:194-199 | each item earns its rule-5 points independently: the sum over a concatenation is the sum of the sums |
| `Scoring.PairDescriptionPoints` | internal/handlers/handlers.go:194-199 | two items earn under rule 5 exactly what each earns alone |
| `Scoring.DescriptionPointsOfValidItem` | internal/handlers/handlers.go:194-199 | on a validated item, rule 5 gives ceil(cents / 500) when the trimmed description's character count is divisible by 3, else 0 |
| `Scoring.TrimmedDescriptionIsAscii` | internal/handlers/handlers.go:195 | on a description the pattern accepts, the byte length of the trimmed text is its character count |
| `Scoring.IsPurchaseDateOdd` | internal/handlers/handlers.go:238-244 | a date that does not parse is never odd |
| `Scoring.OddDayRule` | internal/handlers/handlers.go:238-244 | rule 6 earns 6 exactly for an accepted date whose last digit is odd |
| `Scoring.IsPurchaseTimeBetween2And4PM` | internal/handlers/handlers.go:247-253 | a time that does not parse is never in the afternoon window |
| `Scoring.AfternoonByPrefix` | internal/handlers/handlers.go:247-253 | rule 7 holds exactly for an accepted time written with hour `14` or `15` |
| `Scoring.AfternoonWindow` | internal/handlers/handlers.go:247-253 | rule 7 earns 10 exactly for an accepted time in the half-open window [14:00, 16:00) |
| `Scoring.AfternoonInside` | internal/handlers/handlers.go:252 | `14:00` and `15:59` earn rule 7 |
| `Scoring.AfternoonOutside` | internal/handlers/handlers.go:252 | `13:59` and `16:00` do not earn rule 7 |
| `Scoring.Points` | internal/handlers/handlers.go:174-212 | the score is the sum of the seven rules and is never negative |
| `Scoring.TwoMoreItems` | internal/handlers/handlers.go:190-199 | two more items add exactly 5 for the pair plus their own rule-5 points, and nothing else changes |
| `Scoring.CalculatePoints` | internal/handlers/handlers.go:174-212 | the accumulating loop of the handler computes `Points` |
| `WorkedExample.TargetReceiptScoresTwenty` | internal/handlers/handlers.go:174-212 | the receipt "Target", with "Mountain Dew 12PK"/6.49 and "Emils Cheese Pizza"/12.25, total 18.74, 2022-01-01, 13:01, is valid and scores 20 |
| `Store.ReceiptStore.constructor` | internal/handlers/handlers.go:21-24 | the store starts empty |
| `Store.ReceiptStore.ProcessReceipt` | internal/handlers/handlers.go:44-59 | a rejected receipt returns its first validation error and leaves the map untouched. An accepted one inserts exactly `freshId ↦ (freshId, Points(r))` and returns `freshId`. Every entry stays filed under its own id with points ≥ 0 |
| `Store.ReceiptStore.GetPoints` | internal/handlers/handlers.go:80-88 | it returns the stored points (≥ 0) for a present id and not-found for an absent one, and it modifies nothing |
| `Store.SubmitThenLookUp` | internal/handlers/handlers.go:44-88 | after a successful submit, two lookups of the returned id both give the receipt's points, and an id never issued is not found |

## Left out

- JWT checking (`utils.ValidateJWT`, `internal/utils/utils.go`, `generate_jwt.go`) is not part of this model. It depends on a foreign crypto library and the clock. An unauthorized request never reaches the code modelled here.
- HTTP handling, JSON decoding and encoding, the mux path variable, status codes and server start-up (`main.go`, handlers.go:29-41, 62-63, 76-77, 91-92) are I/O. A field absent from the JSON is modelled as the empty string, and absent or `null` items as the empty sequence, as Go's decoder leaves them.
- The `sync.RWMutex` around the map (handlers.go:23, 57-59, 80-82) is concurrency. The store is a single-threaded class whose methods are atomic.
- `uuid.New()` (handlers.go:53) is random. The identifier is a parameter instead.
- `Store.ReceiptStore.ProcessReceipt` requires that the identifier is not in use yet. The source would overwrite an existing entry, but a fresh UUID makes that collision unreachable.
- Rule 3 (`Scoring.IsTotalMultipleOf25Cents`) is computed on exact integer cents. The source computes `int(f*100)` on a `float64` and truncates. Floating-point rounding can make the two disagree. In `float64`, `2.01*100` is `200.99999999999997`, so the source's `int(f*100)` gives 200 and awards the 25 points to a total of `2.01`; exact cents give 201 and do not.
- `Scoring.Points`, `Scoring.FifthRoundedUp` and `Scoring.IsTotalMultipleOf25Cents` compute on unbounded integers. The source sums into Go's `int`, which is 64 bits wide on 64-bit platforms (32 bits on 32-bit ones), and converts `float64` to `int` at handlers.go:197 and :233, where an out-of-range value gives an implementation-defined result. A price of `100000000000000000000.00` gives `price*0.2` = 2e19, above 2^63-1, and a total of `92233720368547758.08` or more (any total with 18 or more whole digits) overflows `int(f*100)`. From about 1.8e308 upward (310 or more whole digits), `strconv.ParseFloat` gives +Inf with a range error instead. Then `isTotalMultipleOf25Cents` returns false at handlers.go:229-231, where exact cents can earn the 25 points, and rule 5's ignored error leaves the price at +Inf. On such receipts the source can report a score that is not the sum of the rules, even a negative one. `ensures p >= 0` holds only for the unbounded model.
- Rule 5 (`Scoring.FifthRoundedUp`) is computed as ceil(cents / 500) on exact integers. The source computes `math.Ceil(price*0.2)` on a `float64`, and floating-point rounding can make the two disagree.
- Money parsing (`Formats.ParseCents`) treats every string outside `^\d+\.\d{2}$` as unparseable. Go's `strconv.ParseFloat` also accepts forms such as `1.5` or `1e3`. Scoring only runs after validation, where every total and price matches the pattern, so the difference is never reached.
- The byte-versus-rune distinction is modelled only where it changes a result. That is rule 5's `len`, which counts bytes. Regular expressions and `countAlphanumeric` look at whole runes, as Go's do.
- The body of the rule-5 loop (`Scoring.ItemPoints`) is a separate method. The loop in `CalculatePoints` calls it once per item, in the same order.
- `Validation.Message`: the contract states the shape of each text (`… is required` or `invalid … format`), not the thirteen literal strings. The body spells out each text as the handler does, and the error kinds themselves are the constructors of `ValidationError`.
