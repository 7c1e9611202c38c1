# Catalog import, modelled in Dafny

This project models the core of a catalog service for vehicle parts (families of
products, and products that belong to a family):

- **Import** (`ImportService`). `processImport` reads the family rows, then the
  product rows. Each row is validated with a Joi schema. A valid row is upserted
  into the `families` or `products` table. Each of the two loops keeps four
  counters (processed, inserted, updated, failed) and a list of failures. At the
  end the two failure lists are exported as `;`-separated files. The store is a
  class (`Catalog.Store`) whose two maps the upserts update in place. The loops
  are methods with loop invariants, proved against the functions `FamilyPhase` /
  `ProductPhase`, and the properties of the import are lemmas about those
  functions.
- **Validation** (`Validators`, `Schemas`, `ValidationService`). These are the
  stand-alone predicates of `validators.js` and the two Joi schemas. Joi's own
  per-key order is modelled: a missing key, then trimming, then allowed values,
  then the `valid` list, then the string type and the empty string, then the
  rules. Every key is checked, because `abortEarly: false` collects all messages.
  Each schema is also stated as a key-by-key description of what it admits,
  written with the validator languages, and the two are proved equal.
- **Search** (`SearchService`). This covers the page and page-size arithmetic of
  `searchProducts` and the building of its two where-clauses. The database query
  is a parameter.
- **Failure files** (`FailureService`). These are the exports that
  `processImport` calls, with the file system as a `write` parameter.

Strings are `seq<char>`, one element per Unicode character. JavaScript's
`length` counts UTF-16 code units instead, so a character above U+FFFF counts
twice; `Text.Utf16Length` measures lengths that way wherever the source reads
`length` or applies Joi's `min`/`max`. A JavaScript value that a row may carry (undefined,
null, a boolean, a number or a string) is the datatype `Values.Value`.

## Model

| member | source | states |
|---|---|---|
| Text.Trim | src/utils/validators.js:30 | `String.prototype.trim`: the result is no longer than the input and starts and ends with non-whitespace |
| Text.TrimIsInfix | src/utils/validators.js:30 | the trimmed text is a contiguous part of the input, and what is cut off on either side is whitespace |
| Text.TrimIdempotent | src/utils/validators.js:126 | trimming twice is trimming once |
| Text.TrimEmptyIffBlank | src/utils/validators.js:144 | the trimmed text is empty exactly when the text is all whitespace |
| Text.TrimToUpperCommute | src/utils/validators.js:91 | `trim().toUpperCase()` equals `toUpperCase().trim()` |
| Text.NatToStringRoundTrip | src/utils/validators.js:124 | reading back the decimal digits `String(n)` writes gives `n` |
| Text.IntToStringReadsBack | src/utils/validators.js:124 | `String(i)` of an integer is its digits, after a minus sign when it is negative, and reads back as `i` |
| Text.Utf16Length | src/utils/validators.js:183 | `length` counts between one and two code units per character |
| Text.Utf16LengthIsCount | src/utils/validators.js:183 | `length` equals the character count exactly when no character lies above U+FFFF |
| Text.DigitsUtf16Length | src/utils/validators.js:72 | digits are one code unit each, so the barcode's `length` is its digit count |
| Text.ToUpper | src/utils/validators.js:91 | `toUpperCase` keeps the length and upper-cases each character in place |
| Text.Join | src/services/import.service.js:44 | joining no messages gives the empty text, and joining one gives that message |
| Text.JoinContainsParts | src/services/import.service.js:44 | `errors.join("--")` starts with the first message and is at least as long as any message; derived from JoinLayout |
| Text.JoinSuffix | src/services/import.service.js:44 | from where message `k` begins, the joined reason is the join of the messages from `k` on |
| Text.JoinLayout | src/services/import.service.js:44 | the joined reason holds every message in order, message `k` at `JoinOffset(k)`, with one `--` after each message but the last; its length is every message plus one separator between each two |
| Values.ToJsString | src/utils/validators.js:124 | `String(v)` is the text itself for a string and a non-empty run of digits for a non-negative number |
| Values.ToJsStringReadsBack | src/utils/validators.js:124 | `String(n)` reads back as `n`, after a minus sign when `n` is negative; a boolean is written `true` or `false`; a value that is not a string is written without surrounding whitespace |
| Values.TruthyIffNotFalsy | src/services/search.service.js:20-52 | a filter counts as set exactly when it is none of undefined, null, false, 0 and "" |
| Values.TrimValue | src/utils/schemas.js:6-74 | Joi's `trim()` conversion keeps a non-string as it is; a string becomes `Trim` of itself, no longer than before, and empty exactly when it was all whitespace |
| Validators.SkuPatternIsLanguage | src/utils/constants.js:30 | the character test equals the language of `/^SKU-\d+$/`: "SKU-" followed by one or more digits |
| Validators.FamilyCodePatternIsLanguage | src/utils/constants.js:29 | the character test equals the language of `/^FAM_[A-Z_]+_\d{3}$/` |
| Validators.FamilyCodeExamples | src/utils/validators.js:33-41 | the documented codes FAM_WIPERS_001 and FAM_FILTER_002 match; a lower-case middle part or an empty one does not |
| Validators.IsValidSku | src/utils/validators.js:26-31 | true exactly when the value is a string whose trimmed text is in the SKU language |
| Validators.SkuDocExampleRejected | src/utils/validators.js:17-31 | of the two documented examples, SKU-10001 is accepted and SKU-ABC123 is rejected |
| Validators.IsValidFamilyCode | src/utils/validators.js:42-47 | true exactly when the value is a string whose trimmed text is in the family-code language |
| Validators.IsValidEanUpc | src/utils/validators.js:59-76 | true exactly when the trimmed string is all digits and 8 to 14 long |
| Validators.EanUpcLengthBoundary | src/utils/constants.js:28 | 7 and 15 digits are rejected; 8 and 14 digits are accepted |
| Validators.EanUpcDigitsExample | src/utils/validators.js:64-75 | for a string without surrounding blanks, validity is "all digits and a length between the two bounds" |
| Validators.IsValidProductLine | src/utils/validators.js:87-92 | only a non-empty string can be a valid product line |
| Validators.IsValidStatus | src/utils/validators.js:103-108 | only a non-empty string can be a valid status |
| Validators.ProductLineExamples | src/utils/constants.js:16-20 | against the catalog's product lines WIPERS, FILTRATION and ENGINE COOLING, "wipers" is valid and "BRAKES" is not |
| Validators.AllowedListIsCaseInsensitive | src/utils/validators.js:91 | a value and its upper-case form get the same verdict, for statuses and for product lines |
| Validators.LowerCaseStatusAccepted | src/utils/validators.js:107 | "active" is a valid status for `isValidStatus` |
| Validators.SanitizeString | src/utils/validators.js:119-127 | null for null and undefined only; the trimmed text for a string; for a number `String(n)`, which for `n >= 0` is digits that read back as `n`; "true" or "false" for a boolean; the result never starts with whitespace |
| Validators.SanitizeStringIdempotent | src/utils/validators.js:119-127 | sanitising a sanitised string changes nothing |
| Validators.IsEmpty | src/utils/validators.js:137-145 | true exactly for null, undefined and an all-whitespace string |
| Validators.ValidateRequired | src/utils/validators.js:156-164 | valid exactly when the value is not empty; otherwise the message is "`<field>` is required" |
| Validators.ValidateLength | src/utils/validators.js:175-193 | valid exactly when the value is a non-empty string whose trimmed length, in UTF-16 code units, is within the bounds; otherwise "must be a string" or "must be between" |
| Validators.AstralCharacterCountsTwice | src/utils/validators.js:183-185 | one emoji is one character but two code units, so it meets a minimum length of 2 |
| Validators.BlankStringFailsOnLength | src/utils/validators.js:176-190 | a string of spaces passes the string test but fails the length test when the minimum is positive |
| Schemas.RuleErrors | src/utils/schemas.js:8 | at most one message per rule, none exactly when every rule holds; the message of every broken rule is reported, and every message reported is a broken rule's |
| Schemas.CheckString | src/utils/schemas.js:6-74 | a missing key fails exactly when it is required, with its `any.required` message; an allowed value passes; a refused value of a `valid` key reports `any.only` first; then a non-string reports only `string.base` and an empty string only `string.empty`, after any `any.only`; any other string reports every broken rule's message and, besides any `any.only`, nothing else |
| Schemas.CheckRowNumber | src/utils/schemas.js:5 | `rowNumber` passes exactly when it is a number, with at most one message |
| Schemas.FamilyCodeKeyAccepts | src/utils/schemas.js:6-15 | the key passes exactly when the trimmed string is in the family-code language |
| Schemas.FamilyCodeKeyAgreesWithValidator | src/utils/validators.js:42-47 | the schema key and `isValidFamilyCode` accept the same values |
| Schemas.PlainKeyAccepts | src/utils/schemas.js:16-30 | a trimmed required string key passes exactly on a string that is not all whitespace |
| Schemas.PlainKeyAgreesWithValidateRequired | src/utils/validators.js:156-164 | on strings the plain key and `validateRequired` agree; a number gets the key's "must be a string" message |
| Schemas.StatusKeyAccepts | src/utils/schemas.js:31-40 | status passes exactly when the trimmed string is ACTIVE or INACTIVE |
| Schemas.StatusKeyIsCaseSensitive | src/utils/schemas.js:33-39 | "active" fails the schema with the `any.only` message although `isValidStatus` accepts it; "" gets both the `any.only` and the empty messages |
| Schemas.SkuKeyAccepts | src/utils/schemas.js:45-50 | the SKU key passes exactly on the SKU language, and so agrees with `isValidSKU` |
| Schemas.EanUpcKeyAccepts | src/utils/schemas.js:61-71 | the barcode key passes exactly on 8 to 14 digits, and so agrees with `isValidEanUpc` |
| Schemas.VehicleTypeKeyAccepts | src/utils/schemas.js:72-74 | the optional vehicle type passes exactly on undefined, null or a string |
| Schemas.FamilyErrors | src/utils/schemas.js:4-41 | no message exactly when every key is silent; every key's messages are reported and no others (`abortEarly: false`) |
| Schemas.ProductErrors | src/utils/schemas.js:43-75 | the same for the product keys |
| Schemas.EmptyFamilyRowErrors | src/utils/schemas.js:4-41 | a row with every key missing gets the six `required` messages, in key order |
| ValidationService.FamilyKeysAgree | src/utils/schemas.js:4-41 | each family key reports nothing exactly when the key is acceptable |
| ValidationService.ProductKeysAgree | src/utils/schemas.js:43-75 | each product key reports nothing exactly when the key is acceptable |
| ValidationService.ValidateFamily | src/services/validation.service.js:3-22 | valid exactly when every key is acceptable; valid means no errors and the trimmed row; invalid means every schema message (at least one) and no data |
| ValidationService.ValidateProduct | src/services/validation.service.js:24-43 | the same for product rows |
| ValidationService.AllFamilyViolationsReported | src/services/validation.service.js:4-6 | every broken family key adds at least one message: validation does not stop at the first |
| ValidationService.AllProductViolationsReported | src/services/validation.service.js:25-27 | every broken product key adds at least one message |
| ValidationService.ValidProductHasStrings | src/services/import.service.js:142-149 | a product row that passes has a non-empty string SKU and family code, and string name and barcode |
| SearchService.ContainsPatternWrapsText | src/services/search.service.js:20-31 | the LIKE pattern for a filter is the filter's text with one `%` before and one after |
| SearchService.Paginate | src/services/search.service.js:10-15 | the page is at least 1 and the size between 1 and the maximum; in-range values are kept; a page below 1 becomes 1, a size below 1 becomes 1 and a size above the maximum becomes the maximum; the offset is a whole number of pages, page−1 of them |
| SearchService.PagesTile | src/services/search.service.js:15 | the next page starts where this page ends |
| SearchService.TotalPages | src/services/search.service.js:79 | the fewest pages that hold `count` rows, and 0 for no rows |
| SearchService.Describe | src/services/search.service.js:88-98 | the pagination object echoes the window and the count, with the ceiling page total |
| SearchService.FlagsMatchRows | src/services/search.service.js:95-96 | there is a next page exactly when rows remain after this page, and a previous page exactly when rows were skipped |
| SearchService.ProductWhere | src/services/search.service.js:18-32 | a LIKE condition on `sku` and on `name` exactly for the truthy filters, and no other key |
| SearchService.FamilyWhere | src/services/search.service.js:34-55 | an exact condition on each truthy family filter, and no other key |
| SearchService.NoFiltersNoConditions | src/services/search.service.js:18-55 | with no filter set, neither where-clause has a key |
| SearchService.BuildProductWhere | src/services/search.service.js:18-32 | the clause built key by key equals `ProductWhere` |
| SearchService.BuildFamilyWhere | src/services/search.service.js:34-55 | the clause built key by key equals `FamilyWhere` |
| SearchService.SearchProducts | src/services/search.service.js:6-103 | the query gets both clauses, the page size and the offset; its rows are returned and its count is described; a failing query is rethrown |
| Catalog.FamilyUpsert | src/services/import.service.js:57-63 | a refused family throws and changes nothing; otherwise its code maps to the record, other codes are untouched, and `created` means the code was new |
| Catalog.ProductUpsert | src/models/Product.js:76-90 | a product the database refuses throws the database's message; a product whose family code is not stored throws the foreign-key error; either way nothing changes; otherwise the SKU maps to the record, other SKUs are untouched, and `created` means the SKU was new |
| Catalog.FamilyUpsertKeepsNoOrphans | src/models/Product.js:76-90 | a family upsert keeps every stored product's family |
| Catalog.ProductUpsertKeepsNoOrphans | src/models/Product.js:76-90 | a product upsert never stores an orphan product |
| Catalog.FamilyUpsertIdempotent | src/services/import.service.js:57-63 | upserting the same family again reports an update and changes nothing |
| Catalog.Store.UpsertFamily | src/services/import.service.js:57-63 | the families table becomes `FamilyUpsert` of the old table; products are unchanged; no orphans are created |
| Catalog.Store.UpsertProduct | src/services/import.service.js:143-149 | the products table becomes `ProductUpsert` of the old table; families are unchanged; no orphans are created |
| FailureService.Record | src/services/failure.service.js:26-41 | one field per header id, in header order, each the entry's property under that id |
| FailureService.Records | src/services/failure.service.js:39 | one record per failure, in order |
| FailureService.AsWrittenFamilyRecordDropsCode | src/services/failure.service.js:30-34 | under the written header a family failure's second column is always empty |
| FailureService.AsWrittenFamilyRecordExample | src/services/failure.service.js:30-34 | row 2 with code FAM_WIPERS_001 is written as `2;;Status is required` |
| FailureService.RecordKeepsKey | src/services/failure.service.js:44-113 | with a header for each kind, every record carries the row number, the row's key and the reason |
| FailureService.ExportFailures | src/services/failure.service.js:44-77 | an empty list writes nothing and yields null; otherwise the path, or the write error rethrown |
| FailureService.RecordsKeepKeys | src/services/failure.service.js:26-41 | every record of an entry under its own kind's header is the row number, the row's key and the reason |
| FailureService.ExportFamilyFailures | src/services/failure.service.js:44-77 | null without writing for no failures; otherwise the writer's path, or the writer's own error message when it throws; each record is the row number, the family code and the reason (the corrected header, see Findings) |
| FailureService.ExportProductFailures | src/services/failure.service.js:80-113 | null without writing for no failures; otherwise the writer's path, or the writer's own error message when it throws; each record is the row number, the SKU and the reason |
| ImportService.FamilyStep | src/services/import.service.js:37-100 | one pass of the family loop counts the row as processed once; what it writes and counts is stated by FamilyStepEffect |
| ImportService.FamilyRun | src/services/import.service.js:36-101 | after the first `n` rows, exactly `n` are counted as processed |
| ImportService.FamilyPhase | src/services/import.service.js:36-101 | the whole family loop counts every row as processed |
| ImportService.FamilyStepEffect | src/services/import.service.js:37-100 | an accepted family row is written under its code and counts as inserted exactly when the code was new; any other row adds one failure entry and leaves the store alone |
| ImportService.FamilyRunBalanced | src/services/import.service.js:36-101 | every processed family row is counted once as inserted, updated or failed, and each failure is listed once |
| ImportService.FamilyRunStore | src/services/import.service.js:36-101 | after the loop the families are the old ones overwritten by the accepted rows, the last row winning |
| ImportService.AcceptedFamiliesWritten | src/services/import.service.js:57-63 | every accepted family row's code is among the codes written |
| ImportService.FamilyRerunKeepsStore | src/services/import.service.js:36-101 | importing the same family rows again leaves the families as the first run left them |
| ImportService.FamilyNoInsertWhenStored | src/services/import.service.js:65-85 | when every accepted code is already stored, the loop inserts nothing |
| ImportService.FamilyRerunInsertsNothing | src/services/import.service.js:65-85 | a second import of the same family rows counts only updates and failures |
| ImportService.ImportedFamiliesVisible | src/services/import.service.js:36-187 | every accepted family row's code is stored before the product loop starts |
| ImportService.ProductStep | src/services/import.service.js:123-186 | one pass of the product loop counts the row as processed once; what it writes and counts is stated by ProductStepEffect |
| ImportService.ProductRun | src/services/import.service.js:122-187 | after the first `n` rows, exactly `n` are counted as processed |
| ImportService.ProductPhase | src/services/import.service.js:122-187 | the whole product loop counts every row as processed |
| ImportService.ProductStepEffect | src/services/import.service.js:123-186 | an accepted product row is written under its SKU and counts as inserted exactly when the SKU was new; any other row adds one failure entry |
| ImportService.ProductRunBalanced | src/services/import.service.js:122-187 | every processed product row is counted once, and each failure is listed once |
| ImportService.ProductRunStore | src/services/import.service.js:122-187 | after the loop the products are the old ones overwritten by the accepted rows, the last row winning |
| ImportService.ProductWritesHaveFamilies | src/services/import.service.js:142-149 | every product the loop writes names a stored family |
| ImportService.AcceptedProductsWritten | src/services/import.service.js:143-149 | every accepted product row's SKU is among the SKUs written |
| ImportService.ProductRerunKeepsStore | src/services/import.service.js:122-187 | importing the same product rows again, against the same families, leaves the products as the first run left them |
| ImportService.ProductNoInsertWhenStored | src/services/import.service.js:151-171 | when every accepted SKU is already stored, the loop inserts nothing |
| ImportService.ProductRerunInsertsNothing | src/services/import.service.js:151-171 | a second import of the same product rows counts only updates and failures |
| ImportService.ImportRerunChangesNothing | src/services/import.service.js:36-187 | importing the same two files again, with the database answering as before, changes neither table and inserts nothing |
| ImportService.ProductPhaseKeepsNoOrphans | src/services/import.service.js:122-187 | the product loop never stores an orphan product |
| ImportService.FamilyFailuresFollowRows | src/services/import.service.js:41-45 | the family failures follow input order, each with its row's number and code |
| ImportService.ProductFailuresFollowRows | src/services/import.service.js:127-131 | the product failures follow input order, each with its row's number and SKU |
| ImportService.ImportFamilyRow | src/services/import.service.js:37-100 | one family row, in place: the store and the counters become `FamilyStep` of the old ones |
| ImportService.ImportFamilies | src/services/import.service.js:36-101 | the family loop, in place, computes `FamilyPhase`; the products are untouched; no orphans are created |
| ImportService.ImportProductRow | src/services/import.service.js:123-186 | one product row, in place: the products and the counters become `ProductStep` of the old ones |
| ImportService.ImportProducts | src/services/import.service.js:122-187 | the product loop, in place, computes `ProductPhase` against the current families |
| ImportService.Finish | src/services/import.service.js:204-242 | the result holds the eight counters; a failure file is null exactly when its list is empty, and otherwise is the path its export returned; an export that throws fails the import with that export's message, the family export's message first since it runs first |
| ImportService.ImportStatsBalanced | src/services/import.service.js:11-20 | in a completed import each loop processed all its rows, and processed = inserted + updated + failed |
| ImportService.InvalidFamilyReason | src/services/import.service.js:44 | a family row that fails validation is recorded with all its schema messages joined by "--" |
| ImportService.InvalidProductReason | src/services/import.service.js:130 | a product row that fails validation is recorded with all its schema messages joined by "--" |
| ImportService.ProcessImport | src/services/import.service.js:8-243 | the store ends as the two loops leave it, even when an export throws; the result is `Finish` of the two tallies; no orphans are created |

Notes on the source:

- The upserts receive the row's fields as parsed, not the value that Joi trimmed
  (src/services/import.service.js:57-63 and 143-149).
- `FamilyOf` and `ProductOf` do the same: a family code with surrounding blanks
  is validated trimmed but stored untrimmed.
- There is no transaction. Families written before a product fails, or before an
  export throws, stay written.
- A product whose family is missing fails only through the foreign key of
  src/models/Product.js:76-90. The import does not check for the family itself.
- The comment above `isValidSKU` gives SKU-ABC123 as an example, but the pattern
  accepts only digits after the dash. The model follows the pattern.
- `isValidStatus` and `isValidProductLine` compare after upper-casing. The status
  key of the schema does not upper-case, so "active" passes the one and fails the
  other.

## Left out

- Logging, the timings (`duration`, `familyDuration`, `productDuration`) and
  `successRate` are left out. Once the constants below are defined, they do
  not change the store or the returned counters.
- `IMPORT_STATS`, `IMPORT_OPERATIONS` and `DIRS` are not defined in
  src/utils/constants.js. As written, src/services/import.service.js:12 throws
  on every call. Even with `IMPORT_STATS` defined, reading
  `IMPORT_OPERATIONS.INSERT` or `.UPDATE` (lines 70, 80, 156 and 166) would
  throw inside the row's `try` after a successful upsert. That row would then
  count as both written and failed. The model assumes all three constants are
  defined, with distinct counter names.
- Reading the CSV files, the HTTP controllers, routes and middleware are not
  part of this model. Rows reach `ProcessImport` already parsed.
- Why the database refuses a record (column lengths, a lost connection) is given
  by the `Faults` parameter. Only the foreign-key refusal is spelled out.
- The failure files' names (a timestamp) and the file system are the `write`
  parameter. CSV quoting and escaping are not modelled.
- The SQL behind `findAndCountAll` is the `query` parameter. This covers LIKE
  matching, the inner join, the ordering by SKU and `distinct`.
- `PAGINATION` is not defined in src/utils/constants.js. As written,
  `PAGINATION.MAX_LIMIT` (src/services/search.service.js:14) is read on every
  call, so every search throws. The model assumes the constant is defined, and
  its three values are the `PaginationConfig` parameter.
- SearchService.Paginate: a maximum page size of at least 1 is required. This is
  a configuration that the source does not define.
- SearchService.Paginate: `page` and `limit` arrive as integers. `parseInt` of
  text that is not a number (NaN) is not modelled.
- `EAN_UPC_PATTERN` is not defined in src/utils/constants.js. The model takes the
  all-digits pattern that the key's message ("must be 8-14 digits") and
  `isValidEanUpc` name. As written, Joi 17's `string().pattern(undefined)` fails
  its "regex must be a RegExp" assertion, so src/utils/schemas.js throws when the
  module loads and no validation or import runs at all. The model assumes the
  pattern is defined.
- Joi converts a numeric string for `Joi.number()` (`rowNumber`). This is not
  modelled: only a number passes. Unknown keys of a row are not modelled either.
- `toUpperCase` is modelled for ASCII letters only.
- JavaScript numbers are unbounded integers here. Joi's `number.unsafe` error
  beyond ±(2^53−1), fractions, and the exponent form of `String(n)` from 1e21
  up are not modelled.
- Validators.IsValidProductLine and Validators.IsValidStatus: their ensures state
  only that a valid value is a non-empty string. Their case-insensitivity is
  stated by AllowedListIsCaseInsensitive and LowerCaseStatusAccepted.
- FailureService.ExportFamilyFailures: writes the family file under the header
  `rowNumber;familyCode;reason`, the corrected half of the finding below. The
  code as written uses `rowNumber;sku;reason` for both files, which leaves the
  family code out. AsWrittenFamilyRecordDropsCode and AsWrittenFamilyRecordExample
  model that. `Finish` and `ProcessImport` therefore describe the corrected
  export.
- ImportService.Column: a column value is written as `String(v)` of the raw row
  value. For a row that passed validation this is the row's own string.
- The loops are proved for any validation function (`FamilyValidator`,
  `ProductValidator`). `ProcessImport` passes `ValidateFamily` and
  `ValidateProduct`, and InvalidFamilyReason and InvalidProductReason tie the two
  together.

## Findings

| source | as written | input that shows it | evidently intended | confidence | as-written member | corrected member |
|---|---|---|---|---|---|---|
| src/services/failure.service.js:30-34 | both failure files are written with the header ids `rowNumber;sku;reason`, but a family failure carries `familyCode` and no `sku` | a family row 2 with code FAM_WIPERS_001 and reason "Status is required" is written as `2;;Status is required` | the family file carries the failing row's family code, as the product file carries the SKU | medium, not executed | FailureService.AsWrittenFamilyRecordExample | FailureService.RecordKeepsKey |
