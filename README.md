# Receipt processor: validation, points and the id store

A Dafny model of the receipt processor service in `server.js`. A client posts a
receipt as JSON. The service checks the receipt's shape, scores it with seven
points rules, and stores the score under a fresh id. A second request reads the
score back by id.

The model has five modules:

- `Strings` holds the string machinery the rules rely on. It has the `\w`, `\s`
  and digit character classes, `String.prototype.trim`, `split` on one character
  with its inverse `join`, decimal digit strings (what `parseInt` reads), and `<`
  on strings as character-by-character order.
- `Receipts` holds the parsed request body and the three validators,
  `test_field`, `verify_body` and `verify_list_items`. A JSON property is absent,
  a string, or a value of another type. The expression `(!field) in body`
  evaluates `false in body`. It is modelled as it behaves: a flag recording an
  own key named `"false"`. It is not a presence check.
- `Points` holds the points engine. Amounts are integer cents: an accepted
  amount is digits, a point and exactly two digits, so the cents are exact.
  Each rule is a function. `Score` is their sum. `GetPointsFromReceipt` is the
  `+=` accumulator with its loop over the items, proved equal to `Score`.
- `Store` holds the module-level `memory` object as the class `ReceiptStore`.
  Its field `memory: map<string, int>` is updated by `Process`, the submission
  handler, and read by `Lookup`, the retrieval handler. A ghost map keeps the
  receipt behind each entry, so that every stored number is provably the score
  of an accepted receipt.
- `Scenarios` holds the two published example receipts as constants. It proves that the validators accept each one, and it scores each one rule by rule.

The retailer rule adds the raw length of the name. Spaces, `&`, `-` and `_`
all count. The comment above the rules speaks of alphanumeric characters, but
the code counts every character, and the model follows the code. For the
well-known "M&M Corner Market" receipt the code gives 112 points: 17 for the
name, 75 for the total 9.00, 10 for four items, 0 for "Gatorade", 0 for day 20
and 10 for 14:33. A letters-and-digits count would give 14 for the name and
109 in all. `Scenarios.CornerMarketScores112` and `Scenarios.CornerMarketName`
state this.

The time rule compares strings. `Points.AfternoonWindowIsClockWindow` shows
that for an accepted time this is the numeric window `1400 < HHMM < 1600`. The
bounds are strict, and `"15:99"` (which the pattern lets through) is inside.

## Model

| member | source | states |
|---|---|---|
| Strings.IsDigit | server.js:25-27 | `\d`: the ASCII digits `0`-`9` (definition) |
| Strings.IsWordChar | server.js:24 | `\w` without the `u` flag: ASCII letters, digits and `_` (definition) |
| Strings.IsSpace | server.js:24 | `\s`, and what `trim` strips at server.js:72: the ECMAScript WhiteSpace and LineTerminator code points (definition) |
| Strings.DigitsValue | server.js:77 | what `parseInt` gives for a string of decimal digits, read left to right in base 10 (definition) |
| Strings.Join | server.js:77 | `parts.join(sep)`, used to state the inverse of `split` (definition) |
| Strings.LexLess | server.js:79 | `a < b` on strings: the first differing character decides, and a proper prefix comes first (definition) |
| Strings.DigitsText | server.js:77 | the decimal text of a number is a non-empty digit string that reads back as that number (the inverse of the digit-string value `parseInt` computes) |
| Strings.DigitsValueInjective | server.js:77 | two digit strings of one length have equal values exactly when they are equal |
| Strings.TrimStart | server.js:72 | the result is a suffix of the input; everything dropped is whitespace; the result is empty or starts with a non-space |
| Strings.TrimEnd | server.js:72 | the result is a prefix of the input; everything dropped is whitespace; the result is empty or ends with a non-space |
| Strings.Trim | server.js:72 | `trim` never lengthens; it gives "" exactly when the input is all whitespace; otherwise both ends are non-space |
| Strings.TrimExactly | server.js:72 | `trim` keeps exactly the run from the first to the last non-space character |
| Strings.Split | server.js:77 | `split` on one character gives at least one part, and no part contains the separator |
| Strings.JoinSplit | server.js:77 | joining the parts of a split with the separator gives back the input |
| Strings.SplitWithoutSeparator | server.js:77 | a string without the separator splits into itself alone |
| Strings.SplitAfterFirst | server.js:77 | a separator-free head followed by the separator splits off as the first part |
| Strings.SplitJoin | server.js:77 | splitting a join of separator-free parts gives back the parts |
| Strings.LexLessAppend | server.js:79 | `<` on two concatenations whose heads have one length compares the heads first, then the tails |
| Strings.DigitsLexLess | server.js:79 | on digit strings of one length, string `<` is numeric `<` |
| Receipts.IsRetailerChar | server.js:24 | the character class `[\w\s\-&]` (definition) |
| Receipts.IsDescriptionChar | server.js:43 | the character class `[\w\s\-]` (definition) |
| Receipts.IsDate | server.js:25 | `^\d{4}-\d{2}-\d{2}$`: ten characters, digits with `-` at positions 4 and 7 (definition) |
| Receipts.IsTime | server.js:26 | `^\d{2}:\d{2}$`: five characters, digits with `:` at position 2 (definition) |
| Receipts.IsAmount | server.js:27 | `^\d+\.\d{2}$`: one or more digits, a point, exactly two digits (definition) |
| Receipts.Matches | server.js:24-27 | full match of each of the five anchored patterns, including `+` meaning at least one character (definition) |
| Receipts.VerifyBody | server.js:22-38 | `verify_body`: the four top-level field tests in order, then the `"false"`-key test and `typeof items == "object"`, modelled as `items` being an array (definition) |
| Receipts.ItemPasses | server.js:42-45 | the test one loop iteration applies: description and price both pass `test_field` (definition) |
| Receipts.AllItemsPass | server.js:40-50 | every item passes; `VerifyListItems` is proved to compute it (definition) |
| Receipts.Accepted | server.js:85-89 | `verify_body` and then `verify_list_items` both pass (definition) |
| Receipts.RequestAccepted | server.js:85-89 | the handler's condition: the JSON content type and an accepted body (definition) |
| Receipts.TestField | server.js:11-20 | a field passes only when the container has no `"false"` key and the field is a non-empty string (absent and non-string values fail) |
| Receipts.VerifyListItems | server.js:40-50 | the loop with early return answers true exactly when every item's description and price pass their patterns |
| Receipts.AcceptedExactly | server.js:22-50 | a body is accepted exactly when the four top-level fields match, `items` is an array and every item's two fields match; any single failure rejects |
| Receipts.EmptyItemListAccepted | server.js:40-50 | an empty item list passes the item loop, so acceptance rests on the top-level fields |
| Receipts.EmptyNeverMatches | server.js:24-27 | none of the five anchored patterns matches the empty string |
| Receipts.RejectedExamples | server.js:84-95 | a missing retailer, a one-digit fraction, a slash-separated date, an item without a price or a non-JSON request is rejected |
| Points.Cents | server.js:64 | `parseFloat` of an accepted amount, in cents: the whole part times 100 plus the two fraction digits (definition; also used for prices at server.js:73) |
| Points.RoundDollarPoints | server.js:65 | `total % 1 == 0 ? 50 : 0` on cents: 50 exactly when the cents are a multiple of 100 (definition) |
| Points.QuarterPoints | server.js:66 | `total % 0.25 == 0 ? 25 : 0` on cents: 25 exactly when the cents are a multiple of 25 (definition) |
| Points.PairPoints | server.js:68 | `Math.floor(n / 2) * 5` with integer division (definition) |
| Points.DescriptionPoints | server.js:71-74 | one item's contribution: the price bonus when the trimmed description's length is a multiple of 3, else 0 (definition) |
| Points.ItemsPoints | server.js:70-75 | the `forEach` total: the sum of the items' contributions, first to last (definition) |
| Points.OddDayPoints | server.js:77 | 6 exactly when `parseInt` of the third `-` segment of the date is odd (definition) |
| Points.InAfternoonWindow | server.js:79 | `time > "14:00" && time < "16:00"` as string comparisons (definition) |
| Points.AfternoonPoints | server.js:78-79 | 10 inside the window, 0 outside (definition) |
| Points.AmountText | server.js:64 | every number of cents has an accepted amount text that reads back as that number |
| Points.PriceBonus | server.js:73 | the bonus is the least whole number of points worth at least a fifth of the price, i.e. `ceil(cents / 500)` |
| Points.DaySegment | server.js:77 | the third `-` segment of an accepted date is its last two characters, all digits |
| Points.Score | server.js:60-81 | the sum of the seven rules for an accepted receipt is at least 1 |
| Points.GetPointsFromReceipt | server.js:52-82 | the accumulator with its loop over the items returns exactly `Score` |
| Points.ItemsPointsPrefix | server.js:70-75 | each step of the item loop adds that item's description points |
| Points.ItemsPointsAppend | server.js:70-75 | the item points of a concatenation are the sum of the parts' item points |
| Points.ItemsPointsRemove | server.js:70-75 | removing one item removes exactly its points from the sum |
| Points.AllItemsPassPermutation | server.js:40-50 | item validation does not depend on the order of the items |
| Points.ItemsPointsPermutation | server.js:70-75 | the items' points do not depend on their order |
| Points.RoundDollarEarnsBoth | server.js:64-66 | a round-dollar total earns both the 50 and the 25 bonus (75); any other total earns no round-dollar bonus |
| Points.BlankDescriptionEarnsPriceBonus | server.js:72-73 | a description that trims to nothing has length 0, a multiple of 3, and earns the price bonus |
| Points.OddDayIsOddLastDigit | server.js:77 | the day rule gives 6 exactly when the last digit of the date is odd |
| Points.AfterTwoIsClockAfter | server.js:79 | `time > "14:00"` holds exactly when `HHMM > 1400` |
| Points.BeforeFourIsClockBefore | server.js:79 | `time < "16:00"` holds exactly when `HHMM < 1600` |
| Points.AfternoonWindowIsClockWindow | server.js:78-79 | the time bonus applies exactly when `1400 < HHMM < 1600`, both bounds strict |
| Points.AfternoonWindowInMinutes | server.js:59 | with minutes below 60 the window is "after 2:00pm and before 4:00pm" in minutes of the day |
| Points.RetailerPointsCountEveryCharacter | server.js:53-62 | the raw length equals the letters-and-digits count exactly when the name has nothing but letters and digits |
| Store.HasProperty | server.js:101 | `id in memory` on a plain object: an own key or a name inherited from `Object.prototype` (definition) |
| Store.ReceiptStore.Valid | server.js:92 | every entry of `memory` is the score of the accepted receipt it was computed from (definition) |
| Store.ReceiptStore.constructor | server.js:9 | the store starts empty |
| Store.ReceiptStore.Process | server.js:84-96 | an accepted JSON body adds its score under the issued id and leaves all other entries unchanged; a rejected one changes nothing; every entry stays the score of an accepted receipt |
| Store.ReceiptStore.Lookup | server.js:98-105 | a score is returned exactly for the ids stored, and it is the score of the receipt stored under that id (at least 1); other ids are not found |
| Store.ReceiptStore.LookupAsWritten | server.js:101 | the `in` test as written also answers "found" for names inherited from `Object.prototype` |
| Store.InheritedIdFoundAsWritten | server.js:101 | on an empty store, the id "constructor" is answered as found with no stored score |
| Store.InheritedIdNotFound | server.js:98-105 | with an own-key test, "constructor" is not found on an empty store |
| Store.ProcessThenLookup | server.js:84-105 | submitting a receipt and looking up its id returns that receipt's score; after a rejection the lookup answers as before |
| Scenarios.TargetReceiptScores28 | server.js:52-82 | any accepted receipt with the "Target" example's fields (five items, total 35.35, on 2022-01-01 at 13:01) scores 28 |
| Scenarios.CornerMarketScores112 | server.js:52-82 | any accepted receipt with the "M&M Corner Market" example's fields (four "Gatorade" items, total 9.00, on 2022-03-20 at 14:33) scores 112 |
| Scenarios.ItemPassesWhen | server.js:40-50 | an item without a `"false"` key passes when its description and price strings match their patterns |
| Scenarios.BodyPassesWhen | server.js:22-38 | a body without a `"false"` key and with an item array passes `verify_body` when its four strings match |
| Scenarios.TargetAccepted | server.js:22-50 | the validators accept the "Target" receipt, including `-` in "12-PK" and the padded description |
| Scenarios.TargetScores28 | server.js:52-82 | the "Target" receipt is accepted and scores 28 |
| Scenarios.CornerMarketAccepted | server.js:22-50 | the validators accept the "M&M Corner Market" receipt, including `&` in the name |
| Scenarios.CornerMarketScores | server.js:52-82 | the "M&M Corner Market" receipt is accepted and scores 112 |
| Scenarios.CornerMarketName | server.js:62 | "M&M Corner Market" earns 17 retailer points though it has fewer letters and digits than that |
| Scenarios.AfternoonWindowIsStrict | server.js:78-79 | "14:00" and "16:00" get no time bonus |
| Scenarios.AfternoonWindowIsTextual | server.js:78-79 | "15:99" gets the time bonus |

## Left out

- The HTTP layer is not modelled: Express, body-parser, routing, status codes, JSON parsing and serialisation, and `app.listen` with `PORT` (server.js:1-7, 94-95, 102-109). The content-type test enters as the boolean `isJson`. A successful submission is `Some(id)`, a rejection is `None`, and a lookup miss is `None`.
- Store.ReceiptStore.Process: the id from `uuidv4()` is a parameter, because the generator is a foreign random call. The method requires the id to differ from `"__proto__"`, which a UUID never is.
- IEEE double arithmetic in `parseFloat`, `% 1`, `% 0.25` and `* 0.2` is not modelled. Amounts are exact integer cents. For two-decimal amounts of practical size the floating-point results agree with the cents reading. That is an argued assumption, not a proof.
- Runtime exceptions outside the validators' boolean results are not modelled. `items` equal to `null`, or an object that is not iterable, passes the `typeof` test and then throws in `for...of`. A primitive item makes `in` throw. The model's `items` is absent, a non-object value, or an array of item records.
- Extra keys in a JSON object are not modelled, except for a key literally named `"false"`. The `(!field) in body` test reacts only to that key.
- Unicode is handled only through fixed character classes: ASCII `\w` and digits, and the ECMAScript whitespace set for `\s` and `trim`. Every accepted character is in the Basic Multilingual Plane, so `length` in UTF-16 units equals the sequence length.
- `parseInt` is modelled only on the digit strings an accepted date can contain.

## Findings

| source | as written | input that shows it | evidently intended | confidence | as-written member | corrected member |
|---|---|---|---|---|---|---|
| server.js:101 | `id in memory` tests the plain object `memory`, which inherits `constructor`, `toString`, `__proto__` and other names from `Object.prototype` | GET `/receipts/constructor/points` on an empty store answers 200 with a body that carries no score, instead of 404 | only ids issued by a submission are found (an own-key test) | high, not executed | Store.ReceiptStore.LookupAsWritten, Store.InheritedIdFoundAsWritten | Store.ReceiptStore.Lookup, Store.InheritedIdNotFound |
