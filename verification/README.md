# Buyer leads: validation, store, CSV and rate limiting in Dafny

This project models the core of a small real-estate lead tracker. An agent records
buyer leads and edits them. Each change is logged in a history table. Leads can be
listed with filters, search, sorting and pages, and exported to and imported from CSV.
A per-caller counter throttles requests.

The model has four parts, and each follows one source file.

- **Validation** (`src/lib/validations/buyer.ts`):
  - `enums.dfy` holds the value sets.
  - `buyer_schema.dfy` holds the buyer schema, the create, update and filter schemas, and the CSV row schema's shared rules.
  - `csv_row.dfy` holds the CSV row schema, where every cell is text.

  Validation returns the first issue zod would report, as a `(path, message)` pair whose path is the field's key. The field rules run in the schema's key order, then the bhk refinement, then the budget refinement.
- **Store** (`src/lib/db/operations/buyers.ts`, in `buyer_store.dfy`). The database is an immutable value `Db`: a map from id to `Buyer` plus the history rows in insertion order. Every operation is a function from a store to a `Result`. Listing is a method that walks the key set and then sorts.
- **CSV** (`src/lib/csv.ts`, in `csv.dfy`). Import works on records already split into named cells. Export produces the header row and one row of cell text per buyer.
- **Rate limiter** (`src/lib/rate-limit.ts`, in `rate_limit.dfy`). A transition over the table of windows, one per caller.

Each `*_props.dfy` file holds the lemmas that relate an operation to its partner:
- validation to encoding, and CSV export to import;
- create, update and delete to get;
- one update to the next;
- one request to the next.

Helper modules:
- `wrappers.dfy` has `Option` and `Result`.
- `text.dfy` has digits, UTF-16 length, trim, split/join, ASCII case folding, substring search and decimal numerals.
- `sorting.dfy` has an insertion sort on integer or string keys.

Fresh ids, clock readings, the email and uuid format checks and the Date parser are parameters:
- ids and times are arguments;
- `isEmail` and `isUuid` are predicates supplied by the caller;
- `parseDate` turns a timestamp string into an instant, or fails.

## Model

| member | source | states |
|---|---|---|
| Enums.ParseCity | src/lib/validations/buyer.ts:3 | parsing accepts exactly the five city literals, and the result names the input |
| Enums.ParseBhk | src/lib/validations/buyer.ts:5 | parsing accepts exactly '1'..'4' and 'Studio'; the empty literal is never parsed as an enum value |
| Enums.ParseStatus | src/lib/validations/buyer.ts:9 | parsing accepts exactly the seven status literals and yields the value that prints as the input |
| Text.Utf16Length | src/lib/validations/buyer.ts:12 | the length zod's min/max compare lies between the code-point count and twice it, and equals the code-point count for BMP text |
| Text.DigitRunMeaning | src/lib/validations/buyer.ts:14 | the phone pattern `^\d{lo,hi}$` matches exactly the strings of lo to hi decimal digits |
| BuyerSchema.FullNameRule | src/lib/validations/buyer.ts:12 | accepted iff a string of 2 to 80 UTF-16 units, returned unchanged |
| BuyerSchema.PhoneRule | src/lib/validations/buyer.ts:14 | accepted iff a string of 10 to 15 digits |
| BuyerSchema.EmailRule | src/lib/validations/buyer.ts:13 | absent stays absent; a string is accepted iff it is empty or passes the email check |
| BuyerSchema.EnumRule | src/lib/validations/buyer.ts:15-16 | accepted iff a string that parses to a member of the enum, and the value is that member |
| BuyerSchema.OptionalEnumRule | src/lib/validations/buyer.ts:17 | absent stays absent; present values must parse to an enum member |
| BuyerSchema.StatusRule | src/lib/validations/buyer.ts:23 | absent status becomes New; a present one must be a status literal and is kept |
| BuyerSchema.BudgetRule | src/lib/validations/buyer.ts:19-20 | absent stays absent; present values are accepted iff they are positive integer numbers, kept exactly |
| BuyerSchema.NotesRule | src/lib/validations/buyer.ts:24 | absent stays absent; a string is accepted iff it has at most 1000 UTF-16 units |
| BuyerSchema.TagsRule | src/lib/validations/buyer.ts:25 | absent stays absent; accepted iff an array of strings, whose elements are kept in order |
| BuyerSchema.CrossFieldIssue | src/lib/validations/buyer.ts:26-44 | no issue iff neither refinement fires; a missing bhk is reported on path bhk with its message even when the budgets are also inverted; otherwise inverted budgets are reported on budgetMax with the budget message |
| BuyerSchema.Refine | src/lib/validations/buyer.ts:26-44 | a missing bhk for Apartment/Villa fails on path bhk; otherwise inverted truthy budgets fail on path budgetMax; otherwise the record passes unchanged |
| BuyerSchema.ValidateBuyer | src/lib/validations/buyer.ts:11-44 | every accepted record is Valid; an absent status becomes New; a failing field rule is reported before any refinement |
| BuyerSchema.ValidateCreate | src/lib/validations/buyer.ts:51-53 | the create schema accepts only Valid records, whose status is always New |
| BuyerSchema.CheckPatch | src/lib/validations/buyer.ts:11-46 | the fields of `buyerSchema.partial()`: an accepted patch carries exactly the keys sent, absent keys as None, and every supplied field meets its rule |
| BuyerSchema.IdRule | src/lib/validations/buyer.ts:47 | accepted iff a uuid string, which is returned |
| BuyerSchema.DateRule | src/lib/validations/buyer.ts:48 | `z.date()` fails on every value a JSON body can hold: Required when the key is missing, otherwise not a date |
| BuyerSchema.DateStringRule | src/lib/validations/buyer.ts:48 | the corrected updatedAt rule accepts a string exactly when the Date parser reads it, and yields that instant |
| BuyerSchema.CheckUpdate | src/lib/validations/buyer.ts:46-49 | an accepted update carries its patch, with every supplied field valid and both refinements holding on the supplied values, the uuid id sent, and the instant of the updatedAt rule; when fields and id pass, a failing updatedAt rule is the issue |
| BuyerSchema.ValidateUpdateAsWritten | src/lib/validations/buyer.ts:46-49 | no decoded JSON body is accepted; one whose other keys pass fails on updatedAt |
| BuyerSchema.ValidateUpdate | src/lib/validations/buyer.ts:46-49 | the corrected update schema: an accepted request carries exactly the fields sent, each valid, with both refinements, the uuid id, and updatedAt the instant its timestamp string denotes |
| BuyerSchema.ValidateFilters | src/lib/validations/buyer.ts:55-65 | page is at least 1 and limit is between 1 and 100; absent keys take the defaults 1, 10, updatedAt, desc; present values are kept, never clamped; the filters, search and sort returned are the ones the payload names |
| BuyerSchema.ValidateExportQuery | src/lib/validations/buyer.ts:55-65 | without page and limit: the filters, search and sort returned are the ones the payload names, and an absent sortBy or sortOrder takes its default |
| BuyerSchemaProps.BhkRequiredForResidential | src/lib/validations/buyer.ts:26-34 | an Apartment or Villa payload without bhk whose fields pass fails with the bhk issue |
| BuyerSchemaProps.BhkOptionalOtherwise | src/lib/validations/buyer.ts:26-34 | for Plot, Office and Retail the only possible refinement failure is the budget one |
| BuyerSchemaProps.BudgetOrder | src/lib/validations/buyer.ts:35-44 | the budget refinement fires iff both budgets are present and max < min |
| BuyerSchemaProps.CreateIsBuyerWithNewStatus | src/lib/validations/buyer.ts:51-53 | create validation is buyer validation with status forced to New |
| BuyerSchemaProps.EncodedValues | src/lib/validations/buyer.ts:11-25 | the JSON object sent for a record holds each field's value under its key, and omits absent optional fields |
| BuyerSchemaProps.EncodeThenValidate | src/lib/validations/buyer.ts:11-44 | a record encoded as JSON validates iff it is Valid, and then comes back unchanged |
| BuyerSchemaProps.FirstFailingField | src/lib/validations/buyer.ts:11-25 | when every field before position i of the declaration order passes and field i fails, validation reports field i's issue, whatever the later fields hold |
| BuyerSchemaProps.ShortPhoneReported | src/lib/validations/buyer.test.ts:80-97 | with the name "John Doe", no email and phone "123", validation fails on path phone with the schema's phone message |
| BuyerSchemaProps.CheckPatchCarried | src/lib/validations/buyer.ts:11-46 | the update's field rules accept a payload carrying a patch iff every supplied field is valid, and then return that patch |
| BuyerSchemaProps.ValidateCarried | src/lib/validations/buyer.ts:46-49 | a payload carrying a patch, an id and a timestamp string is accepted iff the patch is valid and the id a uuid, and then yields exactly that request |
| BuyerSchemaProps.CarriedRejectedAsWritten | src/lib/validations/buyer.ts:48 | under the schema as written the same well-formed body is refused on updatedAt |
| BuyerSchemaProps.ExportQueryAccepts | src/lib/validations/buyer.ts:55-65 | every payload that encodes a query passes the export query schema and reads back as that query |
| BuyerSchemaProps.FiltersAccept | src/lib/validations/buyer.ts:55-65 | an encoded query with a page of at least 1 and a limit from 1 to 100, each sent or left at its default, passes and reads back as itself |
| CsvRowSchema.AsJson | src/lib/validations/buyer.ts:67-81 | a missing column is undefined to zod and a present one is a string |
| CsvRowSchema.BhkCell | src/lib/validations/buyer.ts:73 | a missing cell is absent; an empty cell is kept as the empty literal; any other cell must be a bhk literal |
| CsvRowSchema.BudgetCell | src/lib/validations/buyer.ts:75-76 | a missing or empty cell is absent; a decimal numeral becomes its exact value (JavaScript rounding above 2^53 is left out) |
| CsvRowSchema.TagsCell | src/lib/validations/buyer.ts:80 | an empty cell gives no tags; otherwise one trimmed tag per comma-separated piece, in order, so count = commas + 1 |
| CsvRowSchema.ValidateRow | src/lib/validations/buyer.ts:67-98 | every accepted row satisfies RowValid; a missing status becomes New, and a present one is kept |
| Csv.ErrorMessage | src/lib/csv.ts:41 | the first issue's message is reported, with 'Validation error' in place of an empty one |
| Csv.Passed | src/lib/csv.ts:37 | reference definition: the passing outcomes' values, in input order, never more rows than outcomes |
| Csv.Failed | src/lib/csv.ts:38-43 | one error per failing record, with its 1-based row, its message and the record; rows strictly increase; passed plus failed is the input count |
| Csv.EveryFailureReported | src/lib/csv.ts:34-45 | every failing record has an error carrying its 1-based row |
| Csv.ImportedRowsValid | src/lib/csv.ts:36-37 | every imported buyer satisfies the CSV row rules |
| Csv.Collect | src/lib/csv.ts:34-45 | the loop puts valid rows in data and failures in errors, exactly as Passed and Failed describe |
| Csv.ParseCsvFile | src/lib/csv.ts:15-51 | over 200 records gives one row-0 error and no data; otherwise every record is in data or errors, and success iff there are no errors |
| Csv.ExportRow | src/lib/csv.ts:61-94 | one cell per header, in the fixed header order, each the value the record maps that column to |
| Csv.GenerateCsvData | src/lib/csv.ts:61-100 | the header row, then one row per buyer in the given order |
| CsvProps.TagsRoundTrip | src/lib/csv.ts:92 | tags joined with ', ' and parsed back by the row schema come back unchanged, when no tag has a comma or surrounding space |
| CsvProps.BudgetRoundTrip | src/lib/csv.ts:87-88 | an exported budget cell parses back to the same budget, an absent one to absent (for budgets written as plain digits, below 2^53 in the source) |
| CsvProps.BhkRoundTrip | src/lib/csv.ts:85 | an exported bhk cell parses back to the bhk, with absent becoming the empty literal |
| CsvProps.ExportedCells | src/lib/csv.ts:79-94 | each column of an exported record: fields as text, absent values as '' and tags joined with ', ' |
| CsvProps.ExportThenImport | src/lib/csv.ts:79-94 | an exported record passes the CSV row schema iff the buyer is RowValid, and then yields the buyer with absent text fields as '' |
| CsvProps.ExportThenImportAll | src/lib/csv.ts:34-46 | re-importing the export of valid buyers gives no errors and every buyer back, in order |
| BuyerStore.CreateBuyer | src/lib/db/operations/buyers.ts:7-23 | one new record under the fresh id, owned by the caller; exactly one history entry, the 'created' diff |
| BuyerStore.Diff | src/lib/db/operations/buyers.ts:43-51 | keys are exactly the supplied keys, other than id and updatedAt, whose value differs; each entry is (stored, supplied) |
| BuyerStore.UpdateBuyer | src/lib/db/operations/buyers.ts:25-72 | not found, then a version conflict, then the ownership error; on success the supplied fields are written, updatedAt becomes now, and history grows iff the diff is non-empty |
| BuyerStore.GetBuyer | src/lib/db/operations/buyers.ts:74-81 | a record is returned iff it exists and the caller owns it |
| BuyerStore.DeleteBuyer | src/lib/db/operations/buyers.ts:167-180 | not found, then the ownership error; otherwise exactly that record is removed |
| BuyerStore.Select | src/lib/db/operations/buyers.ts:107-134 | exactly the records owned by the caller that meet every filter and the search, each once |
| BuyerStore.Ordered | src/lib/db/operations/buyers.ts:136-142 | the matching records sorted by the chosen column, descending unless asc was asked for |
| BuyerStore.CeilDiv | src/lib/db/operations/buyers.ts:162 | totalPages is the least page count whose pages hold every row |
| BuyerStore.Page | src/lib/db/operations/buyers.ts:85 | the slice of at most limit rows starting at offset (page - 1) * limit |
| BuyerStore.GetBuyers | src/lib/db/operations/buyers.ts:83-165 | a page of the caller's matching rows in order, at most limit of them; total counts the whole match set, and totalPages is ceil(total / limit) |
| BuyerStore.MatchCount | src/lib/db/operations/buyers.ts:150-154 | count(*) over the same conditions equals the number of matching rows |
| BuyerStore.GetBuyersForExport | src/lib/db/operations/buyers.ts:205-248 | every matching record of the caller under the same filters, search and order, without pages |
| BuyerStore.EntriesFor | src/lib/db/operations/buyers.ts:198 | exactly the history rows of the buyer |
| BuyerStore.Latest | src/lib/db/operations/buyers.ts:199-200 | at most five entries, newest first; every entry left out is no newer than every entry kept |
| BuyerStore.GetBuyerHistory | src/lib/db/operations/buyers.ts:182-203 | not found unless getBuyer would find the record; otherwise the buyer's newest entries, each with its author's name or none |
| BuyerStoreProps.CreateThenGet | src/lib/db/operations/buyers.ts:7-23 | a created buyer is found by its owner with the data given, and by nobody else |
| BuyerStoreProps.CreateKeepsOthers | src/lib/db/operations/buyers.ts:8-12 | creating leaves every other record as it was |
| BuyerStoreProps.CreatePreservesWellFormed | src/lib/db/operations/buyers.ts:8-12 | every record stays filed under its own id |
| BuyerStoreProps.UpdatePreservesWellFormed | src/lib/db/operations/buyers.ts:53-59 | an update keeps the record's id and the key invariant |
| BuyerStoreProps.DeletePreservesWellFormed | src/lib/db/operations/buyers.ts:179 | a delete keeps the key invariant |
| BuyerStoreProps.DeleteThenGet | src/lib/db/operations/buyers.ts:167-180 | after a delete the record is gone for everyone and the others are unchanged |
| BuyerStoreProps.StaleTokenConflicts | src/lib/db/operations/buyers.ts:33-35 | once one update lands, a second update with the old updatedAt is refused as a conflict |
| BuyerStoreProps.FreshTokenAccepted | src/lib/db/operations/buyers.ts:33-59 | the owner's next update with the new updatedAt goes through |
| BuyerStoreProps.ApplyPatchIdempotent | src/lib/db/operations/buyers.ts:53-57 | writing the same fields twice is writing them once |
| BuyerStoreProps.StoredAfterPatch | src/lib/db/operations/buyers.ts:53-57 | a supplied field reads back as the value supplied |
| BuyerStoreProps.StoredUnsupplied | src/lib/db/operations/buyers.ts:53-57 | a field not supplied reads back as before |
| BuyerStoreProps.DiffRecordsTransition | src/lib/db/operations/buyers.ts:43-59 | each recorded change goes from the stored value to the value the record holds after the update |
| BuyerStoreProps.ChangedFieldRecorded | src/lib/db/operations/buyers.ts:43-59 | a field whose value the update changes is in the diff |
| BuyerStoreProps.RepeatedUpdateRecordsOnlyTags | src/lib/db/operations/buyers.ts:45 | sending the same update again records at most the tags, which always compare as different |
| BuyerStoreProps.HistoryIffRecorded | src/lib/db/operations/buyers.ts:61-69 | an update appends one history entry exactly when some field is recorded as changed |
| BuyerStoreProps.PageCovers | src/lib/db/operations/buyers.ts:145 | row x of the full listing is on page x / limit + 1, at position x % limit |
| RateLimit.Identifier | src/lib/rate-limit.ts:19 | a missing or empty address falls back to 'anonymous' |
| RateLimit.Evict | src/lib/rate-limit.ts:21-28 | the clean-up drops exactly the windows whose resetTime is before now - windowMs and keeps the others unchanged |
| RateLimit.Step | src/lib/rate-limit.ts:15-63 | a caller without a live window gets (1, now + windowMs) and max - 1 remaining; at the limit the call is refused with 0 remaining and the stored resetTime; otherwise the count rises by one and remaining is max minus it |
| RateLimitProps.StepKeepsCountsInRange | src/lib/rate-limit.ts:32-62 | with a limit of at least 1, every stored count stays in [1, max] and remaining is never negative |
| RateLimitProps.StepLeavesOthers | src/lib/rate-limit.ts:24-28 | other callers' windows are only dropped when expired, and otherwise untouched |
| RateLimitProps.RefusalKeepsWindow | src/lib/rate-limit.ts:46-52 | a refused call leaves the caller's window as it was |
| RateLimitProps.LiveWindowBound | src/lib/rate-limit.ts:46-62 | while a window is in force, successes are at most the requests it has left, and its reset time does not move |
| RateLimitProps.AtMostLimitPerWindow | src/lib/rate-limit.ts:30-62 | from the call that opens a window, through later calls while it is in force, at most maxRequests calls succeed |

## Left out

- Tokenising and quoting: csv-parse and csv-stringify, with their trimming and empty-line skipping, are library behaviour. Import works on named cells and export on cell text. The "Invalid CSV format" catch path (src/lib/csv.ts:52-58) is not modelled.
- CsvRowSchema.BudgetCell: `parseInt` on text that is not a decimal numeral is left out. It would give NaN or parse a prefix. The model rejects such a cell with its own message, `NotDecimal`, so that budgets stay digit strings.
- BuyerSchema.BudgetRule: numbers are reals without the 2^53 precision limit of JavaScript numbers.
- CsvRowSchema.BudgetCell, CsvProps.BudgetRoundTrip: budgets in CSV cells are exact naturals. In JavaScript `parseInt` rounds a numeral above 2^53 to the nearest double ("12345678901234567890" becomes 12345678901234567168), and `toString` writes a number of 1e21 or more in exponent form ("1e+21"), which `parseInt` reads back as 1. So the source's export/import round trip, and with it CsvProps.ExportThenImport and CsvProps.ExportThenImportAll, holds only for budgets below 2^53; the model states it for every natural.
- The email and uuid formats are the predicates `isEmail` and `isUuid`, not zod's regular expressions.
- zod's exact default messages are fixed strings in the model. Only their being reported first matters to the CSV adapter.
- Whether zod allows `.partial()` and `.omit()` on a refined schema is a library question. The model uses the intended rule sets:
  - create is every field except status, plus both refinements;
  - update is the supplied fields plus both refinements, id and updatedAt.
- BuyerSchema.TagsRule: a tag that is not a string is reported on path `tags`. zod's path is `["tags", i]`, with the element's index. Every other issue's path is a single key, as in the model.
- BuyerSchema.DateStringRule: how a timestamp string becomes an instant (`new Date(s)`) is the parameter `parseDate`.
- Code and tests disagree on bhk. The test at `src/lib/validations/buyer.test.ts:150` expects an empty bhk cell to be dropped. The schema keeps it as the empty literal, and the model follows the schema.
- The export route reads empty query parameters as absent (`src/app/api/buyers/export/route.ts:12-20`). That is HTTP glue; the model parses the already-built object.
- An empty CSV status cell is rejected, because `.default` only replaces a missing key. The model follows the code, not the intent that a blank status means New.
- Drizzle and SQL details:
  - `count(*)` typing and collation are left out.
  - ILIKE wildcard characters in the search term are taken literally.
  - Case folding is ASCII only.
  - Text keys sort by code point.
  - The order of rows with equal sort keys is unspecified.
- BuyerStore.GetBuyers returns whole records. The source's projection leaves out createdAt, even when sorting by it.
- BuyerStore.GetBuyerHistory returns whole history rows. The source selects every column except buyerId.
- The check-then-write race in updateBuyer is a storage-layer concurrency matter. The store is a single sequential value.
- Ids (`uuidv4`) and clocks (`new Date()`, `Date.now()`, the history table's default time) are parameters. A create stamps createdAt, updatedAt and the history time with the same instant.
- BuyerStore.UpdateBuyer keeps the record's own id. Its only caller passes the path id as `data.id`, so writing it back changes nothing.
- Deleting a buyer leaves its history rows in place. This is a modelling choice: what the database does with them depends on the history table's foreign key, whose definition is not part of this model. Either way they become unreachable, because the history lookup goes through getBuyer.
- Throwing is modelled as a `Failure` carrying a `StoreError`. `BuyerStore.Message` holds the source's wording.
- The React components, API route handlers, auth, middleware and seed script are outside the core.
- RateLimit.Step: counts and limits are unbounded integers. Non-integer or non-positive limits are allowed by the types, and the invariant lemmas assume a limit of at least 1.
- The request object is reduced to its optional `ip`. The module-level map is threaded through as a value.

## Findings

| source | as written | input that shows it | evidently intended | confidence | as-written member | corrected member |
|---|---|---|---|---|---|---|
| src/lib/validations/buyer.ts:48 | `updatedAt: z.date()` checks the body that `request.json()` decoded (src/app/api/buyers/[id]/route.ts:37-42). JSON holds no Date, so every update request is refused. | the edit form's body, which carries no updatedAt (src/components/buyers/buyer-form.tsx:39-52), or any body with `"updatedAt": "2024-01-01T00:00:00.000Z"` | read updatedAt from the timestamp string the client holds (`z.coerce.date()`), so that updateBuyer's version check can run | high; not executed | BuyerSchema.ValidateUpdateAsWritten, BuyerSchemaProps.CarriedRejectedAsWritten | BuyerSchema.ValidateUpdate, BuyerSchemaProps.ValidateCarried |
