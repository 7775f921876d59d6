# Buyer lead intake: a Dafny model of validation, import, listing and filters

This project models the server and client logic that takes a buyer lead
into the Buyer-Lead-Intake application and reads leads back out:

- **Validation** (`validation.dfy`, with `text.dfy`, `js_values.dfy`,
  `email.dfy`). `buyerSchema` (JSON bodies, also `createBuyerSchema`) and
  `csvBuyerSchema` (CSV rows) of `app/utils/validation.ts` are one function
  `Validate(schema, input)` from the fields of a record to
  `Result<Lead, seq<Issue>>`. Each field schema is a function that gives
  the field's zod outcome: `Ok`, `Dirty` (issues recorded, value kept) or
  `Aborted`. A lemma beside each one proves it accepts exactly what a
  plain reference predicate says, such as "a string whose trimmed length is
  2..80" or "10..15 characters, all decimal digits". The object schema
  collects every field's issues in declaration order; it does not stop at
  the first. The two cross-field rules (BHK required for Apartment/Villa,
  `budgetMax >= budgetMin`) follow zod 3's rule. They run whenever no
  field *aborted*, so they also run on fields that are only dirty, such as a
  name that is too short. They are not held back until every field passes.
  The second rule runs after the first fails. The CSV transforms are
  modelled as code: `parseInt` without a radix for budgets, and
  comma-split, trim and drop-empties for tags. So is `bhk: ''` counting as
  missing.
- **Lookup tables and stored records** (`tables.dfy`). `bhkMap`,
  `TIMELINE_MAP` and `SOURCE_MAP` are constant maps. The record that
  `POST /api/buyers` creates and the record each import row creates are
  functions of the validated lead. Lemmas prove that every spelling the
  schemas accept has a table entry and that the tables are one-to-one.
  From this follows that the route's timeline fallback
  (`TIMELINE_MAP[t] || t`) and the import's "Invalid timeline"/"Invalid
  source" branches can never be taken. They are modelled all the same.
- **`POST /api/buyers` and `GET /api/buyers`** (`buyers_route.dfy`,
  `store.dfy`). `Post` is the handler as a function of the parsed body and
  of whether the store write fails. `List` is the handler as a method: it
  builds the `where` object field by field (`BuildWhere`), swallows a
  failing count, and computes `totalPages`, `limit` and `skip`. The table is
  a sequence of stored records, and `findMany` is "filter, sort newest
  first by `updatedAt`, then take a window". The count and the page are
  two separate reads, so the model gives each its own snapshot of the table.
- **CSV import** (`import_route.dfy`). `Import` is the handler: the file
  must be present, hold at most 200 rows, and then `ProcessRows` runs the
  per-row loop. The loop pushes errors with 1-based row numbers and pushes
  mapped records into `validData`. The single transaction is issued only
  when there is something to insert. The partition of rows into accepted
  and rejected, and the correspondence between errors and rejected rows,
  are proved about the specification functions the loop is proved against.
- **URL filters** (`url_filters.dfy`). `URLSearchParams` is a class over a
  list of `name=value` pairs with `get`, `set` and `delete` semantics.
  `setFilter` (single key or record form) is a method over it, and the
  `filters` read-back defaults to `""`. The "Clear All" record of the
  filters bar is a constant with its own lemma.
- **Lead form** (`lead_form.dfy`). `createBuyerResolver` coerces the two
  budget inputs, runs the create schema and builds the error object with a
  loop over the flattened field errors. The tags `onChange` expression is
  also modelled.

A JSON value, form value or CSV cell is a `Json` datatype. Absent
properties are `Undefined`. Numbers are Dafny `real`s, and `NaN` is a
constructor of its own. `parseInt` and `Number` are modelled for the
spellings the code meets: a sign, digits, an optional `0x` prefix for
`parseInt` without a radix, and a decimal point for `Number`. Each has
lemmas for decimal spellings and for strings that have no digits.

Three behaviours of the code that are easy to misread:

- The chained refinements read as if they ran only after every field check
  passed. Under zod 3 they run whenever no field aborted, so a record with
  a too-short name and `budgetMax < budgetMin` reports both issues. The
  model does this (`Validation.IssuesFor`).
- A page parameter with no leading number gives `NaN`, which `Math.max`
  does not clamp. The handler then passes `skip: NaN` to `findMany`, which
  the model takes as a failing read (status 500).
- A failing count leaves `total` at 0. The page then reports one page of
  one record (`limit` is `ceil(0/1) || 1`), and the read still runs.

## Model

| member | source | states |
|---|---|---|
| Text.Trim | app/utils/validation.ts:47 | `String.prototype.trim`: the result has no leading or trailing white space and is no longer than the input |
| Text.TrimRemovesOnlySpace | app/utils/validation.ts:47 | the trimmed string is one contiguous piece of the input, and everything cut away on either side of it is white space |
| Text.TrimIdempotent | app/utils/validation.ts:47 | trimming twice is trimming once |
| Text.TrimOfTrimmed | app/utils/validation.ts:36 | a string that is already trimmed is left unchanged |
| Text.Split | app/components/LeadForm.tsx:345 | `split(",")`: at least one piece, no piece contains the separator, and joining the pieces with the separator gives the input back |
| Text.SplitJoin | app/components/LeadForm.tsx:345 | splitting the join of separator-free pieces on the separator gives the pieces back |
| Text.TrimAll | app/components/LeadForm.tsx:345 | `map(t => t.trim())`: same length, piece i is the trim of piece i |
| Text.NonEmpty | app/components/LeadForm.tsx:345 | `filter(Boolean)`: every kept piece is non-empty and was in the input, and a single piece is kept exactly when it is non-empty |
| Text.NonEmptyAppend | app/components/LeadForm.tsx:345 | the filter goes piece by piece: the kept pieces of a concatenation are those of each part, in order; with the one-piece case this fixes the result of every input |
| Text.NonEmptyKeepsAll | app/components/LeadForm.tsx:345 | when no piece is empty, the filter keeps every piece |
| Text.SplitTagsClean | app/components/LeadForm.tsx:344-346 | every tag the split-trim-filter expression yields is non-empty and trimmed |
| Text.SplitTagsJoin | app/components/LeadForm.tsx:344-346 | tags that are non-empty, trimmed and comma-free come back unchanged from their comma join |
| Text.SplitTagsEmpty | app/components/LeadForm.tsx:344-346 | the empty input gives no tags |
| Text.SplitTagsDropsBlank | app/components/LeadForm.tsx:344-346 | a blank piece between two clean tags is dropped: `"x, ,y"` gives the tags `x` and `y` |
| Text.DigitsOnly | app/utils/validation.ts:22 | `replace(/\D/g, '')`: the result is all digits, no longer than the input, equal to the input when that is already all digits, and a one-character input is kept when it is a digit and dropped otherwise |
| Text.DigitsOnlyAppend | app/utils/validation.ts:22 | the digits of a concatenation are the digits of each part, in order; with the one-character case this fixes the result of every input |
| JsValues.Get | app/api/buyers/route.ts:9 | a property the object has reads as its value, and one it lacks reads as `undefined` |
| JsValues.DigitPrefix | app/utils/validation.ts:118 | the longest prefix of digits of the radix: a prefix, all digits, and followed by a non-digit or the end |
| JsValues.ParseIntDecimal | app/api/buyers/route.ts:85 | `parseInt` of a natural number's decimal spelling is that number, with or without a radix |
| JsValues.ParseIntIgnoresSuffix | app/utils/validation.ts:118 | `parseInt` stops at the first non-digit: a decimal spelling followed by other text parses to the number |
| JsValues.ParseIntNoDigits | app/utils/validation.ts:119 | a string whose first non-space character is neither a digit nor a sign is `NaN` |
| JsValues.ToNumberDecimal | app/components/LeadForm.tsx:28 | `Number` of a natural number's decimal spelling is that number |
| JsValues.DecimalValue | app/api/buyers/route.ts:85 | the decimal spelling of `n` is all digits and has digit value `n` |
| Validation.NameField | app/utils/validation.ts:46-49 | a string keeps its trimmed value, and any other value aborts the field |
| Validation.NameFieldAccepts | app/utils/validation.ts:46-49 | `fullName` passes exactly when it is a string whose trimmed length is 2..80 |
| Validation.PhoneField | app/utils/validation.ts:17-24 | a string keeps its value, and any other value aborts the field |
| Validation.PhoneFieldAccepts | app/utils/validation.ts:17-24 | `phone` passes exactly when it has 10..15 characters, all decimal digits; the unused regex at line 16 plays no part |
| Validation.EmailField | app/utils/validation.ts:27 | the email field is live exactly when absent or a string, and its value is that string |
| Validation.EmailFieldAccepts | app/utils/validation.ts:27 | `email` passes exactly when absent, empty, or a syntactically valid address |
| Validation.NotesField | app/utils/validation.ts:39-42 | the notes field is live exactly when absent or a string, and keeps the string |
| Validation.NotesFieldAccepts | app/utils/validation.ts:39-42 | `notes` passes exactly when absent, empty, or at most 1000 characters |
| Validation.EnumField | app/utils/validation.ts:5-13 | an enum passes exactly when the value is a string among its listed spellings; anything else aborts the field |
| Validation.OptionalEnumField | app/utils/validation.ts:59 | `bhk` passes when absent or one of its spellings, and its value is that spelling |
| Validation.CsvBhkField | app/utils/validation.ts:114 | the CSV `bhk` also passes the empty string |
| Validation.StatusField | app/utils/validation.ts:71 | `status` passes when absent or a listed status, and an absent status becomes `New` |
| Validation.EnumIsCaseSensitive | app/utils/validation.ts:10 | `walk-in` is rejected for source while `Walk-in` is accepted; an empty status is rejected |
| Validation.BudgetField | app/utils/validation.ts:30-33 | a budget is live when absent or a number, keeping the number |
| Validation.BudgetFieldAccepts | app/utils/validation.ts:30-33 | a budget passes exactly when absent or a non-negative whole number |
| Validation.CsvBudgetField | app/utils/validation.ts:116-125 | a CSV budget passes whenever it is absent or text, and its value is the cell's transform |
| Validation.CsvBudgetDecimal | app/utils/validation.ts:116-125 | a decimal cell, with or without a minus sign, becomes that integer |
| Validation.CsvBudgetAbsent | app/utils/validation.ts:116-125 | an empty cell, or one with no leading number, becomes an absent budget |
| Validation.TagItem | app/utils/validation.ts:36 | one tag item passes exactly when it is a string that is non-empty after trimming, and its value is the trimmed string |
| Validation.TrimmedItems | app/utils/validation.ts:36 | the items' trimmed strings, position by position |
| Validation.TagItems | app/utils/validation.ts:36 | an array of tags is live exactly when every item is a string; its value is the trimmed items |
| Validation.TagItemsAccepts | app/utils/validation.ts:36 | the array passes exactly when every item is a string that is non-blank after trimming |
| Validation.TagsField | app/utils/validation.ts:36 | tags are live when absent or a list of strings; absent tags default to `[]` |
| Validation.TagsFieldAccepts | app/utils/validation.ts:36 | tags pass exactly when absent or a list of non-blank strings |
| Validation.CsvTagsField | app/utils/validation.ts:129-132 | CSV tags pass when absent or text, and the value is the comma-split, trimmed, non-empty pieces (`[]` for an empty cell) |
| Validation.CsvTagsClean | app/utils/validation.ts:131 | every CSV tag is non-empty and trimmed |
| Validation.CsvTagsJoin | app/utils/validation.ts:129-132 | clean, comma-free tags joined by commas come back unchanged |
| Validation.MessagesFor | app/utils/validation.ts:45-96 | a field has messages exactly when some issue has its path |
| Validation.FieldErrors | app/api/buyers/route.ts:64 | `flatten().fieldErrors`: one entry exactly per path with an issue, holding that path's messages in order |
| Validation.RefineIssues | app/utils/validation.ts:77-96 | the refinements add nothing exactly when both rules hold, one `bhk` issue when the BHK rule fails and one `budgetMax` issue when the budget rule fails, and no other path |
| Validation.OrderComplete | app/utils/validation.ts:45-76 | the field order lists every field exactly once |
| Validation.GatherMessages | app/utils/validation.ts:45-76 | the collected issues under a field are exactly that field's own messages |
| Validation.FieldIssuesEmpty | app/utils/validation.ts:45-76 | the fields report no issue exactly when every field passes |
| Validation.FieldIssuesFor | app/utils/validation.ts:45-76 | a field has an issue exactly when it does not pass on its own |
| Validation.AllLiveShaped | app/utils/validation.ts:45-76 | no field aborted exactly when every field has the shape its schema expects |
| Validation.ReportMeans | app/utils/validation.ts:45-134 | a field's outcome is clean exactly when the field passes, and live exactly when it is well-shaped |
| Validation.FieldsAcceptedEach | app/utils/validation.ts:45-134 | the record's fields pass together exactly when each passes |
| Validation.FieldsShapedEach | app/utils/validation.ts:45-134 | the record has no aborted field exactly when each field is well-shaped |
| Validation.AcceptedIsShaped | app/utils/validation.ts:45-134 | a record whose fields all pass has no aborted field |
| Validation.BuyerParsed | app/utils/validation.ts:45-76 | the parsed body: trimmed name, fields as given, absent status becomes `New`, budgets as integers, tags trimmed and `[]` when absent |
| Validation.CsvParsed | app/utils/validation.ts:108-134 | the parsed row: trimmed name, budgets through `parseInt`, tags through the comma split, absent status becomes `New` |
| Validation.ParsedSpelled | app/utils/validation.ts:5-13 | a parsed record's enums are all listed spellings |
| Validation.Issues | app/utils/validation.ts:45-96 | the issue list is empty exactly when the record is accepted |
| Validation.Validate | app/utils/validation.ts:177-191 | `safeParse`: success exactly when accepted, carrying the parsed record; failure carries the non-empty issue list |
| Validation.IssuesFor | app/utils/validation.ts:45-96 | under each field, its own messages and then its refinement's, the latter only when no field aborted; a field is reported exactly when it fails or its refinement fails and got to run |
| Validation.BhkRequiredForResidential | app/utils/validation.ts:77-86 | Apartment or Villa without a BHK is rejected, with the rule's message under `bhk` whenever no field aborted |
| Validation.BhkOptionalOtherwise | app/utils/validation.ts:77-86 | for other property types `bhk` is reported only when its own value fails |
| Validation.BudgetOrderEnforced | app/utils/validation.ts:87-96 | two budgets with max below min are rejected, under `budgetMax` whenever no field aborted |
| Validation.BudgetRuleNeedsBoth | app/utils/validation.ts:87-96 | with either budget absent the order rule never fires |
| Tables.Lookup | app/api/buyers/route.ts:51-52 | an own entry of the table reads as that entry and any other spelling as `undefined`; every caller passes a spelling the schema has already checked against the enum |
| Tables.BhkMapCoversEnum | app/api/buyers/route.ts:14-20 | `bhkMap` has an entry exactly for the BHK spellings |
| Tables.TimelineMapCoversEnum | app/api/buyers/route.ts:22-30 | `TIMELINE_MAP` has an entry exactly for the timeline spellings |
| Tables.SourceMapCoversEnum | app/api/buyers/route.ts:32-38 | `SOURCE_MAP` has an entry exactly for the source spellings |
| Tables.BhkMapInjective | app/api/buyers/route.ts:14-20 | no two BHK spellings share a stored value |
| Tables.TimelineMapInjective | app/api/buyers/route.ts:22-30 | no two timelines share a stored value |
| Tables.SourceMapInjective | app/api/buyers/route.ts:32-38 | no two sources share a stored value |
| Tables.SourceSpellings | app/api/buyers/route.ts:32-38 | only `Walk-in` is renamed (to `Walk_in`); every other source is stored as spelled |
| Tables.StoredBhk | app/api/buyers/route.ts:47 | a BHK with an entry is stored mapped; a missing or empty one is null |
| Tables.PostRecord | app/api/buyers/route.ts:40-58 | the created record exists exactly when the source has an entry, with the source mapped, the timeline mapped or falling back to its own spelling, the BHK through `bhkMap`, tags defaulting to `[]`, the fixed owner, and the name, email, phone, city, property type, purpose, budgets, status and notes as validated |
| Tables.ImportRecord | app/api/buyers/import/route.ts:64-71 | an imported record has BHK, timeline and source mapped, tags defaulting to `[]`, the fixed owner, and the row's own name, email, phone, city, property type, purpose, budgets, status and notes |
| Tables.SpelledLeadsMap | app/api/buyers/route.ts:51-52 | an accepted record's source, timeline and non-empty BHK always have table entries |
| Tables.PostRecordSpellings | app/api/buyers/route.ts:51-52 | every stored timeline and source is one of the database enum's spellings |
| Store.Matching | app/api/buyers/route.ts:103 | the filtered records are all in the table, all match, and every matching record is kept |
| Store.MatchingCounts | app/api/buyers/route.ts:103 | a matching record is kept as many times as the table holds it, and a record that does not match is dropped |
| Store.Insert | app/api/buyers/route.ts:118 | inserting into a newest-first sequence keeps it newest first and adds exactly the one record |
| Store.SortNewest | app/api/buyers/route.ts:118 | `orderBy: { updatedAt: "desc" }`: newest first and a permutation of the input |
| Store.Window | app/api/buyers/route.ts:116-117 | `skip`/`take`: at most `take` records, the ones from position `skip` on, none when `skip` is past the end |
| Store.WindowNewestFirst | app/api/buyers/route.ts:114-119 | a window of a newest-first sequence stays newest first |
| Store.FindManyMeans | app/api/buyers/route.ts:114-119 | `findMany` returns matching records from the table, newest first: none when `skip` reaches the count, otherwise exactly the smaller of `take` and the count past `skip`, namely the newest-first matching records from position `skip` on |
| Store.PagesCover | app/api/buyers/route.ts:110-111 | consecutive windows of one size, put end to end, are the first records in order |
| BuyersRoute.Post | app/api/buyers/route.ts:7-74 | a body that is not JSON is a 500; a schema failure is a 400 with the flattened field errors and no write; a write happens and the record is created exactly when the body passes and the store does not fail |
| BuyersRoute.InvalidNamesAField | app/api/buyers/route.ts:62-66 | a 400 always names at least one field |
| BuyersRoute.CreatedRecord | app/api/buyers/route.ts:40-58 | absent email and notes are null, budgets are null exactly when absent, BHK and source are mapped, tags default to `[]`, status defaults to `New`, and the owner is fixed |
| BuyersRoute.CreatedRecordCopies | app/api/buyers/route.ts:40-58 | the stored name is the trimmed name sent; phone, city, property type and purpose are as sent; the timeline goes through its table; a stored budget is the number sent |
| BuyersRoute.RequestedPage | app/api/buyers/route.ts:85 | a page that is a number is at least 1; a missing or empty parameter is page 1 |
| BuyersRoute.RequestedPageDecimal | app/api/buyers/route.ts:85 | a decimal page parameter is that page, raised to 1 |
| BuyersRoute.RequestedPageNaN | app/api/buyers/route.ts:85 | a parameter with no leading number is `NaN`, and it is not clamped |
| BuyersRoute.WhereOfMeans | app/api/buyers/route.ts:94-98 | the filter holds exactly those of city, propertyType, status and timeline whose parameter is present and non-empty, each with that value |
| BuyersRoute.BuildWhere | app/api/buyers/route.ts:94-98 | the field-by-field construction yields that filter |
| BuyersRoute.CeilDiv | app/api/buyers/route.ts:109-110 | `Math.ceil(a / b)`: the least `q` with `q * b >= a` |
| BuyersRoute.TotalPages | app/api/buyers/route.ts:109 | one page when nothing matches, ten past 100 records, and in between the fewest pages of ten that hold every record |
| BuyersRoute.Limit | app/api/buyers/route.ts:110 | one row per page when nothing matches; otherwise the fewest rows per page with which the pages hold every record |
| BuyersRoute.SmallTotalExamples | app/api/buyers/route.ts:109-110 | 7 and 10 matches make one page of 7 and of 10 rows |
| BuyersRoute.LargeTotalExamples | app/api/buyers/route.ts:109-110 | 95 matches make ten pages of 10 rows, and 1000 matches ten pages of 100 |
| BuyersRoute.AllPagesListEverything | app/api/buyers/route.ts:109-119 | reading pages 1 to `totalPages` in turn lists every matching record exactly once, newest first |
| BuyersRoute.PagesReachEveryRecord | app/api/buyers/route.ts:109-111 | every matching record lies on a page between 1 and `totalPages`, inside that page's window |
| BuyersRoute.PageBeyondRangeIsEmpty | app/api/buyers/route.ts:111-119 | a page past the last one yields an empty list, not an error |
| BuyersRoute.List | app/api/buyers/route.ts:80-136 | the list answers exactly when the page is a number and `findMany` succeeds; the total is the count, or 0 when counting fails; pages, limit and the page's records follow from it |
| BuyersRoute.ListedPage | app/api/buyers/route.ts:111-119 | a listed page holds at most `limit` records, each matching every filter, newest first |
| BuyersRoute.FailedCountShowsOneRecord | app/api/buyers/route.ts:101-110 | after a failed count the answer claims one page of one record |
| ImportRoute.Wordings | app/api/buyers/import/route.ts:53 | the issues' messages, in order |
| ImportRoute.Outcome | app/api/buyers/import/route.ts:50-73 | a row contributes a record exactly when it reports no error; its errors carry `index + 1`; a schema failure is one error with every message joined by ", " |
| ImportRoute.RowCallback | app/api/buyers/import/route.ts:50-73 | the callback's statements compute that outcome |
| ImportRoute.Validations | app/api/buyers/import/route.ts:49-50 | one validation per row |
| ImportRoute.ValidationOf | app/api/buyers/import/route.ts:49-50 | result k is the validation of row k, in input order |
| ImportRoute.RowMapped | app/api/buyers/import/route.ts:57-58 | an accepted row's timeline and source have table entries |
| ImportRoute.ValidationsMapped | app/api/buyers/import/route.ts:57-58 | so does every accepted row of a file |
| ImportRoute.Step | app/api/buyers/import/route.ts:49-74 | one more row appends its errors and its record |
| ImportRoute.ProcessRows | app/api/buyers/import/route.ts:49-74 | the loop leaves `errors` and `validData` as the rows' errors and records, row by row |
| ImportRoute.Import | app/api/buyers/import/route.ts:6-85 | no file is a 400; more than 200 rows is a 400 before any row is validated; otherwise the transaction is asked for exactly the accepted records, only when there are some; a failed transaction or parse is a 500, not `inserted: 0`; otherwise `inserted` counts the accepted records and the errors are returned |
| ImportRoute.ImportPartition | app/api/buyers/import/route.ts:49-74 | every row either contributes a record or is rejected, never both; the two counts add to the number of rows |
| ImportRoute.ErrorsNameRejectedRows | app/api/buyers/import/route.ts:49-74 | every error names a rejected row, every rejected row has an error, row numbers are 1..n and never decrease |
| ImportRoute.MappedOutcome | app/api/buyers/import/route.ts:63-71 | an accepted row with mapped timeline and source reports nothing and contributes its record |
| ImportRoute.RejectedMeansInvalid | app/api/buyers/import/route.ts:52-63 | when accepted rows are mapped, the rejected rows are exactly the ones the schema rejected |
| ImportRoute.ImportedRowOfFile | app/api/buyers/import/route.ts:52-63 | row k+1 is rejected exactly when the CSV schema rejects it, and an accepted row reports no "Invalid timeline"/"Invalid source" error |
| ImportRoute.AcceptedRowImported | app/api/buyers/import/route.ts:55-71 | an accepted row contributes its record with mapped timeline and source and reports nothing |
| ImportRoute.RowLimit | app/api/buyers/import/route.ts:19-21 | the number imported never exceeds the number of rows |
| UrlFilters.First | app/utils/hooks/useUrlFilters.ts:31-34 | `get`: `null` exactly when no entry has the name, and otherwise the value of the first entry with it |
| UrlFilters.Removed | app/utils/hooks/useUrlFilters.ts:16 | `delete`: as a set of entries, exactly those with other names remain |
| UrlFilters.RemovedAppend | app/utils/hooks/useUrlFilters.ts:16 | `delete` goes entry by entry: the kept entries of a concatenation are those of each part, in order |
| UrlFilters.Assigned | app/utils/hooks/useUrlFilters.ts:14 | `set`: the entry is in the result |
| UrlFilters.AssignedInPlace | app/utils/hooks/useUrlFilters.ts:14 | `set` of a name that occurs keeps every entry before its first occurrence, gives that entry the value where it stands, and drops the later entries of the name |
| UrlFilters.AssignedAppends | app/utils/hooks/useUrlFilters.ts:14 | `set` of a name that does not occur appends the entry at the end |
| UrlFilters.AssignedReadsBack | app/utils/hooks/useUrlFilters.ts:14 | after `set`, the name reads back as the value and occurs once |
| UrlFilters.RemovedAbsent | app/utils/hooks/useUrlFilters.ts:16 | after `delete`, the name does not occur |
| UrlFilters.OtherNamesUnchanged | app/utils/hooks/useUrlFilters.ts:10-24 | `set` and `delete` leave every other name reading as before |
| UrlFilters.OtherCountsUnchanged | app/utils/hooks/useUrlFilters.ts:10-24 | `set` and `delete` leave the number of entries of every other name as it was |
| UrlFilters.RemovedAbsentName | app/utils/hooks/useUrlFilters.ts:16 | deleting a name that does not occur changes nothing |
| UrlFilters.AssignedSameValue | app/utils/hooks/useUrlFilters.ts:14 | setting a name that occurs once to the value it has changes nothing |
| UrlFilters.RemovedIdempotent | app/utils/hooks/useUrlFilters.ts:16 | deleting twice is deleting once |
| UrlFilters.AssignedIdempotent | app/utils/hooks/useUrlFilters.ts:14 | setting twice is setting once |
| UrlFilters.SearchParams.constructor | app/utils/hooks/useUrlFilters.ts:10 | the params start as a copy of the current query |
| UrlFilters.SearchParams.Set | app/utils/hooks/useUrlFilters.ts:14 | `set` changes the entries in place to the assigned list |
| UrlFilters.SearchParams.Delete | app/utils/hooks/useUrlFilters.ts:16 | `delete` changes the entries in place to the reduced list |
| UrlFilters.SetFilter | app/utils/hooks/useUrlFilters.ts:9-27 | the query it pushes is the change applied to the current query, entry by entry for the record form; `UrlFilters.ChangedIdempotent` shows that pushing it again changes nothing |
| UrlFilters.ApplyReadsBack | app/utils/hooks/useUrlFilters.ts:12-17 | after one entry, its name reads as the value when truthy and is absent when empty, null or undefined |
| UrlFilters.ApplyAllOthers | app/utils/hooks/useUrlFilters.ts:19-24 | a name the record does not mention keeps its value |
| UrlFilters.ApplyAllReadsBack | app/utils/hooks/useUrlFilters.ts:19-24 | with distinct names, each entry of the record reads back as set or deleted |
| UrlFilters.ApplySettles | app/utils/hooks/useUrlFilters.ts:12-17 | after one entry the query holds that name once with its value when it is truthy, and not at all otherwise |
| UrlFilters.ApplySettled | app/utils/hooks/useUrlFilters.ts:12-17 | an entry the query already reflects changes nothing |
| UrlFilters.ApplyKeepsSettled | app/utils/hooks/useUrlFilters.ts:12-24 | an entry of another name leaves a reflected entry reflected |
| UrlFilters.ApplyAllSettles | app/utils/hooks/useUrlFilters.ts:19-24 | after a record of distinct names the query reflects every one of its entries |
| UrlFilters.ApplyAllSettled | app/utils/hooks/useUrlFilters.ts:19-24 | a record whose entries the query already reflects changes nothing |
| UrlFilters.ChangedIdempotent | app/utils/hooks/useUrlFilters.ts:9-27 | making the same `setFilter` call twice pushes the query one call pushes, in the single-key form and in the record form |
| UrlFilters.ClearAllClears | app/components/BuyerFilters.tsx:62-68 | "Clear All" shows all four filters as `""` and leaves every other name, the page included, as it was |
| UrlFilters.SetOneFilter | app/utils/hooks/useUrlFilters.ts:12-17 | choosing a value shows it, choosing `""` or none shows `""`, and every other name keeps its value |
| LeadForm.CoerceBudget | app/components/LeadForm.tsx:28-29 | a falsy budget input becomes `undefined`; otherwise `Number` of it |
| LeadForm.CoerceBudgetDecimal | app/components/LeadForm.tsx:28-29 | a decimal budget input becomes that number, and the empty input becomes `undefined` |
| LeadForm.PayloadKeepsOtherFields | app/components/LeadForm.tsx:26-30 | the payload differs from the form values only in the two coerced budgets |
| LeadForm.EmptyBudgetAccepted | app/components/LeadForm.tsx:26-31 | an empty budget input never draws a budget error of its own |
| LeadForm.FirstErrors | app/components/LeadForm.tsx:38-44 | an error exactly for the fields with at least one message, each of type `manual` with the field's first message |
| LeadForm.CollectErrors | app/components/LeadForm.tsx:40-44 | the `forEach` over the field errors builds exactly that error object, whatever order it visits the keys in |
| LeadForm.Resolve | app/components/LeadForm.tsx:24-47 | on success the parsed values and no errors; on failure no values and the first-message errors of the flattened field errors |
| LeadForm.FirstErrorsOfIssues | app/components/LeadForm.tsx:37-44 | a non-empty issue list yields at least one error; a field has an error exactly when it has an issue, showing its first message |
| LeadForm.ResolverErrors | app/components/LeadForm.tsx:37-46 | a failed form shows at least one error, exactly under the fields that fail or whose refinement fails and got to run, each the field's first message |
| LeadForm.Strings | app/components/LeadForm.tsx:344-346 | the tags as an array of strings, position by position |
| LeadForm.TagInputAccepted | app/components/LeadForm.tsx:344-346 | whatever is typed, the resulting tags pass the tags schema and come out unchanged |

## Left out

- HTTP and framework plumbing is not modelled: `NextRequest`/`NextResponse`, `req.json()`, `req.formData()`, `file.text()`, `router.push`, React state, and `console` logging. A body that is not JSON and a CSV that `csv-parse` cannot read are inputs to the handlers (`None`, `Unparseable`).
- `csv-parse` itself is not modelled: a file is taken as its already-parsed data rows, each a map from column to cell.
- Prisma is modelled as a specification of `count`, `findMany`, `create` and `$transaction`. The table is a sequence of records; a failing call is a boolean parameter of the handler; `count` and `findMany` see separate snapshots and no atomicity is claimed. Prisma's own handling of a `NaN` `skip` is taken to be a failure.
- `updateBuyerSchema` and `validateUpdateBuyer` (app/utils/validation.ts:102-105, 185-187) are not modelled: nothing calls them.
- zod's default message texts are reproduced as zod 3 words them, but the exact text can differ between zod releases. The issue codes and the paths are what the model states.
- The `formErrors` half of `flatten()` is not modelled: every issue of these schemas has a field path, so it is always empty. Issue paths have one component; nested paths such as `tags.0` are reported under `tags`.
- Validation.EmailField: the email syntax is one version of zod 3's email regular expression; the library's exact expression varies between releases.
- String lengths are counted in characters, not UTF-16 code units, and `trim` removes one fixed set of white-space characters. Unicode white space beyond that set is not modelled.
- JsValues.ToNumber: `Number` of a string is modelled for decimal spellings (sign, digits, an optional fraction). Exponents, `Infinity`, hexadecimal and binary spellings are `NaN` in the model.
- JsValues.ParseInt: only the digits of `parseInt` are modelled (sign, decimal digits, and `0x` when no radix is given). Values beyond 2^53 are exact in the model, not rounded to floating point.
- Numbers are Dafny reals, not IEEE doubles; rounding is not modelled.
- The POST body and the form values are modelled as objects. A body that is JSON but not an object (an array, a number) is not modelled, and neither are properties the schemas ignore. An object-valued property is one `Obj` value whose contents are not modelled. In a stored record, `None` stands for `null`.
- Query string serialisation is not modelled (`toString`, percent-encoding); a query is its list of entries. `router.push` is left out, and `setFilter`'s result is the query it would push.
- The record form of `setFilter` walks `Object.entries` in the order given; duplicate keys cannot occur in a JavaScript object, and the read-back and idempotence lemmas assume distinct names accordingly.
- Store.SortNewest: records with equal `updatedAt` keep their table order. Prisma and the database promise no order among such records, so the model picks one. `Store.FindManyMeans` and `BuyersRoute.AllPagesListEverything` name positions in that one order; newest first, the multiset of records and the window sizes hold for any order.
- Tables.Lookup: a plain JavaScript object also answers inherited names such as `toString`. The model does not, since every caller passes a spelling the schema has checked against the enum.
- The rest of the interface is left out: the JSX of `LeadForm`, the filters bar beyond its "Clear All" record, the import modal, the leads table and the pages.
- The test-data generator `DownloadTestCsv.tsx` is left out: nothing uses it.
