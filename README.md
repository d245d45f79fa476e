# Cattery API: validation, listings and the cat and photo tables

This project models the core of a small REST API for a cattery. The API keeps
two tables: cats (breeders and kittens, with their parentage) and photos (each
photo belongs to a cat, and at most one photo of a cat is its cover).

The model covers:

- the request schemas for cats and photos, written with Zod 3. This includes
  the scalar coercers (integer, enum, date-only string, lenient boolean), the
  create and update refinements that tie a cat's `type` to its parent fields,
  and the listing queries with their `sort` grammar;
- the two public listings, `GET /cats` and `GET /photos`. This covers the
  page and limit defaults and clamps, the offset, `totalPages`, the equality
  filters, the order taken from `sort`, and the `meta` block;
- the admin routes that write to the tables: cat create, update and delete
  (delete cascades to the cat's photos and clears references to it as a
  parent), photo upload, patch, set-cover and delete. Each route is a method
  of a `Database` class;
- the `validate` middleware and the global `errorHandler`.

Files:

- `wrappers.dfy`: `Option`.
- `models.dfy`: the `Cat` and `Photo` rows, their enums and the table
  invariants.
- `zod.dfy`: raw input values, issues, per-field outcomes and how an object
  schema merges them.
- `cat_schemas.dfy`: the cat schemas and their parentage rules.
- `photo_schemas.dfy`: the photo schemas.
- `middleware.dfy`: `validate`, `boom` and `errorHandler`.
- `listing.dfy`: the two listings.
- `tables.dfy`: each write as a function on the two tables, with the
  preservation lemmas.
- `store.dfy`: the `Database` class and its route methods.

Zod parses each field to one of four outcomes:

- a value;
- an issue that lets the parse go on, such as a failed `.min`, `.int` or
  `.regex` check;
- an aborting issue, such as a wrong type or a union that matched no member.
  The object's `superRefine` then does not run;
- an exception thrown inside a `.transform`. Here the integer and enum
  coercers throw, the exception leaves `safeParse`, and the error handler
  answers 500.

`Number()` on a string is a parameter, `Primitives.numberOf`. It gives the
truncated value when the string converts to a finite number. The URL check is
a parameter too, `Primitives.isUrl`.

## Model

| member | source | states |
|---|---|---|
| `Models.GenderName` | src/models/Cat.js:8 | every gender is spelled as one of the column's enum values |
| `Models.GenderFrom` | src/models/Cat.js:8 | an enum spelling reads back as the gender it names |
| `Models.CatTypeName` | src/models/Cat.js:18 | every type is spelled as one of `breeder`, `kitten` |
| `Models.CatTypeFrom` | src/models/Cat.js:18 | a type spelling reads back as the type it names |
| `Models.StatusName` | src/models/Cat.js:12-15 | every status is spelled as one of `available`, `reserved`, `sold` |
| `Models.StatusFrom` | src/models/Cat.js:12-15 | a status spelling reads back as the status it names |
| `Models.NewPhoto` | src/models/Photo.js:4-10 | an inserted photo keeps its id, cat, url and public id; an unset `cover` is false and an unset `position` is 0 |
| `Zod.Field.Verdict` | src/validation/catSchemas.js:45-46 | a field's verdict is clean, raised or aborted exactly when the field is, and it keeps the field's issues |
| `Zod.Field.Map` | src/validation/catSchemas.js:11-15 | a transform of a good value maps the value and leaves the verdict alone |
| `Zod.AllIssuesMembers` | src/middlewares/validate.js:7 | an issue is collected exactly when some field reported it |
| `Zod.Then` | src/validation/catSchemas.js:45-46 | one field before the rest: clean iff both are clean, raised iff either raised (the first exception wins), aborted iff not raised and either aborted, with the issues in order |
| `Zod.MergeClean` | src/validation/catSchemas.js:45-46 | an object's fields merge clean exactly when every field is clean |
| `Zod.MergeRaised` | src/validation/catSchemas.js:4-9 | the merge raises exactly when some field threw, and then with the first field's exception |
| `Zod.MergeBroken` | src/validation/catSchemas.js:45-47 | the merge aborts exactly when nothing threw and some field aborted |
| `Zod.MergeIssues` | src/validation/catSchemas.js:45-47 | unless an exception ends the parse, every field's issues are collected, in field order, and nowhere else |
| `Zod.Merge2` | src/validation/photoSchemas.js:53-56 | the merge of two fields, case by case |
| `Zod.Merge3` | src/validation/photoSchemas.js:46-50 | the merge of three fields, case by case |
| `Zod.Merge4` | src/validation/photoSchemas.js:30-35 | the merge of four fields, case by case |
| `Zod.IssueReported` | src/validation/catSchemas.js:45-47 | unless some field threw, an issue of any one field is reported |
| `Zod.Conclude` | src/validation/photoSchemas.js:20-26 | an object without a refinement parses exactly when its fields are clean, throws exactly when a field threw, and otherwise fails with the fields' issues |
| `Zod.Refined` | src/validation/catSchemas.js:45-47 | with a refinement, the parse succeeds only when the fields are clean and no rule fired; an aborted object skips the rules; otherwise the rules' issues follow the fields' issues |
| `Zod.RefinedWithoutRules` | src/validation/catSchemas.js:104-109 | a refinement that raises nothing gives the object's own result |
| `Zod.Optional` | src/validation/catSchemas.js:30-41 | `.optional()` turns a missing value into absent, and that is clean; a given value has exactly the field's verdict and, when good, comes out present with the field's value |
| `Zod.Default` | src/validation/photoSchemas.js:48-49 | `.default(d)` turns a missing value into `d`, and that is clean; a given value has exactly the field's verdict and value |
| `Zod.ZString` | src/validation/catSchemas.js:38-41 | a string passes unchanged; anything else, a missing value included, is one aborting type issue |
| `Zod.ZNonEmptyString` | src/validation/catSchemas.js:27 | a non-empty string passes; the empty string is a non-aborting "too small" issue with the given message; a non-string aborts |
| `Zod.ZUrl` | src/validation/photoSchemas.js:31 | a string passes exactly when it is a URL; a non-string aborts; it never throws |
| `Zod.Cons` | src/validation/photoSchemas.js:40 | an array's outcome is good iff its first element and the rest are, and its issues are theirs in order |
| `Zod.Elements` | src/validation/photoSchemas.js:66-73 | the elements are good iff each one parses under its own index path, and the values are taken in order |
| `Zod.ZNonEmptyArray` | src/validation/photoSchemas.js:40 | an empty array is one "at least 1 element" issue; a non-array aborts; otherwise each element is parsed under its index |
| `CatSchemas.ZInt` | src/validation/catSchemas.js:4-9 | an integral number, or a string that converts to a finite number, gives its truncated integer; a non-finite string throws "Expected integer"; a number with a fraction is a non-aborting issue; anything else aborts the union |
| `CatSchemas.ZEnum` | src/validation/catSchemas.js:11-15 | a string is accepted iff it is one of the values, case-sensitively, and comes back unchanged; any other string throws the message listing the values |
| `CatSchemas.ZGender` | src/validation/catSchemas.js:28 | the `male`/`female` enum; an accepted gender is the exact spelling given |
| `CatSchemas.ZCatType` | src/validation/catSchemas.js:29 | the `breeder`/`kitten` enum; an accepted type is the exact spelling given |
| `CatSchemas.ZStatus` | src/validation/catSchemas.js:31 | the status enum; an accepted status is the exact spelling given |
| `CatSchemas.DateOnlyFromParts` | src/validation/catSchemas.js:18 | any four, two and two digits joined by dashes match the date pattern |
| `CatSchemas.DateOnlyParts` | src/validation/catSchemas.js:18 | every string the pattern matches is four, two and two digits joined by dashes |
| `CatSchemas.ZDateOnly` | src/validation/catSchemas.js:17-23 | a string is accepted iff it is empty or matches the pattern; the empty string comes out absent; any other string is the custom date issue |
| `CatSchemas.OptionalDate` | src/validation/catSchemas.js:30 | the date parses iff it is missing, empty or matches the pattern; it comes out absent exactly when missing or empty, and otherwise is the string given; a mismatch is the custom date issue |
| `CatSchemas.SortMatchesIff` | src/validation/catSchemas.js:159-162 | the first-colon decision procedure accepts exactly the strings that split into letters or underscores, a colon, and `asc`/`desc` in any case |
| `CatSchemas.SortAccepts` | src/validation/catSchemas.js:159-162 | every field name followed by a colon and a direction in any case is accepted |
| `CatSchemas.ZSort` | src/validation/catSchemas.js:159-162 | a sort string passes iff it matches the pattern; a mismatch is a non-aborting issue with the schema's message |
| `CatSchemas.KindSeen` | src/validation/catSchemas.js:48-71 | the rules see a kitten or a breeder only for the exact spelling of that type, and always for one |
| `CatSchemas.Raise` | src/validation/catSchemas.js:47-81 | each issue a rule run raises is the issue of one failed rule on its own field |
| `CatSchemas.RaiseOthers` | src/validation/catSchemas.js:47-81 | a field no rule looks at is never flagged |
| `CatSchemas.RaiseNothing` | src/validation/catSchemas.js:104-109 | rules that all hold raise nothing |
| `CatSchemas.RaiseFlags` | src/validation/catSchemas.js:47-81 | a field is flagged exactly when its rule fails, and then with that rule's message |
| `CatSchemas.RaiseOnce` | src/validation/catSchemas.js:47-81 | a run of rules over distinct fields flags no field twice |
| `CatSchemas.CreateFlag` | src/validation/catSchemas.js:47-81 | on create, a parentage field is flagged exactly when its check fails, and then with that check's message |
| `CatSchemas.UpdateFlag` | src/validation/catSchemas.js:104-144 | on update, a parentage field is flagged exactly when its check fails, and then with that check's message |
| `CatSchemas.CreateKittenRules` | src/validation/catSchemas.js:48-69 | on create, a kitten's father and mother ids are each flagged iff not truthy (missing or 0), both together when both fail; each sire or dam text is flagged iff it is non-empty |
| `CatSchemas.CreateBreederRules` | src/validation/catSchemas.js:71-80 | on create, a breeder's parent ids are each flagged iff present, and nothing else is ever flagged |
| `CatSchemas.UpdateUntypedRules` | src/validation/catSchemas.js:109 | an update without `type` raises no rule issue |
| `CatSchemas.UpdateKittenRules` | src/validation/catSchemas.js:111-134 | on update, a kitten's parent id is flagged iff it is missing while the other is present; each sire or dam field is flagged iff present, even empty |
| `CatSchemas.UpdateBreederRules` | src/validation/catSchemas.js:136-143 | on update, a breeder's parent ids are each flagged iff present, and nothing else is flagged |
| `CatSchemas.RulesFlagOnce` | src/validation/catSchemas.js:45-144 | every rule issue is a custom issue on one parentage field, and neither refinement flags a field twice |
| `CatSchemas.CreateFields.CleanIsGood` | src/validation/catSchemas.js:45-46 | when the create fields merge clean, every field has a value |
| `CatSchemas.CreateFields.Refine` | src/validation/catSchemas.js:45-47 | an accepted create payload has every field good, is the fields' values, and raised no rule issue |
| `CatSchemas.ParseCatCreate` | src/validation/catSchemas.js:26-82 | a non-object body fails with one type issue; an accepted body has every field parsed, is the fields' values, and broke no parentage rule |
| `CatSchemas.IdSeenOfParsed` | src/validation/catSchemas.js:50 | a parsed parent id is truthy to the rules exactly when it is present and not 0 |
| `CatSchemas.TextSeenOfParsed` | src/validation/catSchemas.js:57 | a parsed text is truthy to the rules exactly when it is present and not empty |
| `CatSchemas.CreateViewOfDraft` | src/validation/catSchemas.js:47-80 | the create rules see the parsed type, and a parent id or text as truthy exactly when it is present and not 0 or empty |
| `CatSchemas.CreateAcceptedKitten` | src/validation/catSchemas.js:48-69 | an accepted kitten has non-zero father and mother ids, and each sire or dam text is absent or empty |
| `CatSchemas.CreateAcceptedBreeder` | src/validation/catSchemas.js:71-80 | an accepted breeder has no parent ids |
| `CatSchemas.CreateKittenClean` | src/validation/catSchemas.js:48-69 | the kitten create rules raise nothing only when both parent ids are truthy and no sire or dam text is non-empty |
| `CatSchemas.CreateBreederClean` | src/validation/catSchemas.js:71-80 | the breeder create rules raise nothing only when no parent id is given |
| `CatSchemas.CreateRulesReported` | src/validation/catSchemas.js:45-81 | when no field threw or aborted, the create parse succeeds iff the fields are clean and no rule fired, and otherwise reports the fields' issues followed by every rule issue |
| `CatSchemas.CreateThrows` | src/validation/catSchemas.js:4-15 | a field that throws ends the create parse with that exception |
| `CatSchemas.CreateAbortSkipsRules` | src/validation/catSchemas.js:45-47 | when a field aborts, the create rules do not run and only the fields' issues are reported |
| `CatSchemas.UpdateFields.Refine` | src/validation/catSchemas.js:89-104 | an accepted update payload has every field good, is the fields' values, and raised no rule issue |
| `CatSchemas.UpdateFields.RefineNothing` | src/validation/catSchemas.js:104-109 | with no rule issue, the update parse succeeds iff the fields merge clean and otherwise reports only the fields' issues |
| `CatSchemas.ParseCatUpdate` | src/validation/catSchemas.js:88-145 | a non-object body fails with one type issue; an accepted body has every field parsed, is the fields' values, and broke no parentage rule |
| `CatSchemas.UpdateUntyped` | src/validation/catSchemas.js:109 | an update without `type` succeeds iff its fields are clean, and fails with their issues alone |
| `CatSchemas.UpdateWithoutRules` | src/validation/catSchemas.js:104-109 | an update whose rules raise nothing has the outcome of its fields alone |
| `CatSchemas.UpdateRulesReported` | src/validation/catSchemas.js:104-144 | when no field threw or aborted, the update parse succeeds iff the fields are clean and no rule fired, and otherwise reports every rule issue after the fields' issues |
| `CatSchemas.UpdateAcceptedKitten` | src/validation/catSchemas.js:111-134 | an accepted update to a kitten carries both parent ids or neither, and no sire or dam field |
| `CatSchemas.UpdateKittenClean` | src/validation/catSchemas.js:111-134 | the kitten update rules raise nothing only when both or neither parent id is given and no sire or dam field is |
| `CatSchemas.UpdateAcceptedBreeder` | src/validation/catSchemas.js:136-143 | an accepted update to a breeder carries no parent id |
| `CatSchemas.UpdateBreederClean` | src/validation/catSchemas.js:136-143 | the breeder update rules raise nothing only when no parent id is given |
| `CatSchemas.UpdateViewOfPatch` | src/validation/catSchemas.js:104-143 | the update rules see the parsed type, and each parentage field as given exactly when the patch carries it |
| `CatSchemas.ParseCatListQuery` | src/validation/catSchemas.js:153-163 | the query parses iff it is an object whose `page` and `limit` are absent or integers, whose `type`, `status` and `gender` are absent or exact enum spellings, and whose `sort` is absent or matches the pattern; a non-object is one type issue; the parse throws (an error, not issues) iff `page` or `limit` is a string that is not a number or `type`, `status` or `gender` is a string that spells no value, with "Expected integer" when `page` or `limit` is the cause |
| `CatSchemas.CatListQueryAccepted` | src/validation/catSchemas.js:153-163 | an accepted query carries each parameter exactly when given: `page` and `limit` as the coercer's integers, `sort` as the string given, each filter as the enum value it spells |
| `CatSchemas.CatListRaised` | src/validation/catSchemas.js:153-163 | the merged listing fields throw iff an integer parameter is a non-numeric string or a filter is misspelled, and the sort never throws; a throwing `page` or `limit` decides the message |
| `CatSchemas.CatListQueryEmpty` | src/validation/catSchemas.js:153-163 | an empty query is accepted with every parameter absent |
| `PhotoSchemas.ZBool` | src/validation/photoSchemas.js:4-10 | a boolean passes; a string is true unless it is empty or `"false"`; anything else aborts the union |
| `PhotoSchemas.OrUndefined` | src/validation/photoSchemas.js:21 | a union with `undefined` accepts a missing value as absent; a value no member accepts is one union issue |
| `PhotoSchemas.ParsePhotoListQuery` | src/validation/photoSchemas.js:20-26 | the query parses iff `catId`, `page` and `limit` are absent or integers and `sort` is absent or matches; each of `catId`, `page` and `limit` is the truncated integer given, or absent when not given, and `sort` is the string given; it throws "Expected integer" exactly when one of the three integers is a non-numeric string |
| `PhotoSchemas.ParsePhotoByUrl` | src/validation/photoSchemas.js:30-35 | the body parses iff `catId` is an integer, `url` a URL, and `cover`/`position` absent or valid; `cover` defaults to false and `position` to 0; a missing `catId` is reported |
| `PhotoSchemas.ParsePhotoBulk` | src/validation/photoSchemas.js:38-42 | the body parses iff `catId` is an integer, `urls` a non-empty array of URL strings and `startPosition` absent or an integer; the value is that integer, the URLs in order, and the start defaulting to 0; it throws exactly when `catId` or `startPosition` is a non-numeric string; an empty list is the "at least 1 element" issue |
| `PhotoSchemas.BulkUrls` | src/validation/photoSchemas.js:40 | the field parses iff it is a non-empty array of strings that are URLs, and is then those strings in order; it never throws; an empty array is the "at least 1 element" issue |
| `PhotoSchemas.ParsePhotoUpload` | src/validation/photoSchemas.js:46-50 | the form parses iff `catId` is an integer and `cover`/`position` are absent or valid; `cover` defaults to false and `position` to 0; a missing `catId` is reported |
| `PhotoSchemas.ParsePhotoUploadBulk` | src/validation/photoSchemas.js:53-56 | the form parses iff `catId` is an integer and `startPosition` absent or an integer, which defaults to 0 |
| `PhotoSchemas.ParsePhotoPatch` | src/validation/photoSchemas.js:59-63 | every field may be left out; the patch carries exactly the fields given, and parses iff each given one is valid |
| `PhotoSchemas.ZPlacement` | src/validation/photoSchemas.js:67-72 | an item is good iff it is an object with integer `id` and `position` |
| `PhotoSchemas.ParseReorder` | src/validation/photoSchemas.js:66-73 | an accepted list is non-empty and each entry is its item's placement; a non-empty list parses iff every item is good; an empty list is the "at least 1 element" issue |
| `Middleware.Validate` | src/middlewares/validate.js:1-12 | the request continues iff the body parsed, with the parsed value as its body; a failed parse is status 400, "Validation failed", with the issues as details; a thrown exception passes on unchanged |
| `Middleware.ErrorHandler` | src/middlewares/errorHandler.js:1-14 | the status is the error's non-zero status, else 500; the `error` text is the message, else "Server error"; `details` are present exactly when the error has them |
| `Middleware.ErrorResponseWellFormed` | src/middlewares/errorHandler.js:4-7 | every error response has a non-zero status and a non-empty `error` text |
| `Middleware.ValidationFailureResponse` | src/middlewares/validate.js:3-8 | a body that fails its schema gets 400 with "Validation failed" and the issues |
| `Middleware.SchemaExceptionResponse` | src/middlewares/errorHandler.js:4-11 | an exception from a schema gets 500 with its message and no details |
| `Middleware.BoomResponse` | src/routes/Photos.js:18-22 | `boom(message, status)` gets exactly that status and message |
| `Listing.EffectiveLimit` | src/routes/Cats.js:36-43 | the limit is within 1..100, is 20 when absent, and is kept when already within bounds |
| `Listing.EffectivePage` | src/routes/Cats.js:35-44 | the page is at least 1, is kept when it is, and is 1 when absent or below 1 |
| `Listing.Offset` | src/routes/Cats.js:45 | the offset of a page is a whole number of pages: `page - 1` of them |
| `Listing.TotalPages` | src/routes/Cats.js:68 | the number of pages is the least whose pages hold the total, and is 0 exactly when the total is |
| `Listing.CeilingDivision` | src/routes/Cats.js:68 | the integer reading of the ceiling of `total / limit` is that least count |
| `Listing.RowPage` | src/routes/Cats.js:45-68 | every matching row is served on one of the `totalPages` pages, inside that page's offset window |
| `Listing.Window` | src/routes/Cats.js:59-60 | a page holds at most `limit` rows, the rows at `offset` onward in order, cut short at the end |
| `Listing.Where` | src/routes/Cats.js:47-50 | the kept rows are exactly the rows the filter accepts, none added |
| `Listing.OrderOf` | src/routes/Cats.js:52-53 | an accepted sort names a non-empty column of letters and underscores |
| `Listing.OrderOfAccepted` | src/routes/Cats.js:52-53 | `field:dir` orders by `field`, and is descending exactly when `dir` is "desc" in any case |
| `Listing.CatKeyOrder` | src/routes/Cats.js:52-53 | the cat order ranks by the sort column, descending when asked |
| `Listing.PhotoKeyOrder` | src/routes/Photos.js:53-54 | the photo order ranks by the sort column, descending when asked, and breaks ties by ascending id |
| `Listing.DefaultCatOrder` | src/routes/Cats.js:40 | the default cat sort is accepted and orders by `createdAt`, descending |
| `Listing.DefaultPhotoOrder` | src/routes/Photos.js:43 | the default photo sort is accepted and orders by `position`, ascending |
| `Listing.Insert` | src/routes/Cats.js:58 | inserting a row adds exactly that row |
| `Listing.InsertSorted` | src/routes/Cats.js:58 | inserting into an ordered list keeps it ordered |
| `Listing.SortBy` | src/routes/Cats.js:58 | ordering the rows is a permutation of them |
| `Listing.SortBySorted` | src/routes/Cats.js:58 | the ordered rows are in key order |
| `Listing.Serve` | src/routes/Cats.js:55-72 | the meta block reports the page, limit, sort and filters given, the number of matching rows and its page count, and the page holds at most `limit` rows |
| `Listing.ServeFacts` | src/routes/Cats.js:55-72 | a served page reports the page, limit, sort and filters it was given; `total` is the number of matching rows and `totalPages` its ceiling over the limit; the data is the window at the page's offset of the matching rows in key order, so it is within the limit, holds only stored matching rows, and is ordered |
| `Listing.WindowSorted` | src/routes/Cats.js:58-60 | a slice of an ordered listing is ordered |
| `Listing.PageBeyondEnd` | src/routes/Cats.js:60-68 | a page past the last one is empty |
| `Listing.ListCats` | src/routes/Cats.js:25-77 | a query that fails its schema is the 400 validation error; one that throws is passed on; a served page is status 200 from a query that parsed |
| `Listing.CatsPage` | src/routes/Cats.js:34-72 | the sort used is the query's or the default, and is accepted; the listing fails exactly when its column is unknown, with the database's error; otherwise it answers 200 |
| `Listing.ListCatsAnswer` | src/routes/Cats.js:34-72 | for the corrected count (see Findings): page and limit are the clamped query values and the sort is the query's or `createdAt:desc`; the data is the window at `(page - 1) * limit` of the cats matching every given filter, in the requested order; `total` counts each matching cat once and `totalPages` is its ceiling over the limit |
| `Listing.CatsPageAnswer` | src/routes/Cats.js:34-72 | the same equations for the page served for an already parsed query |
| `Listing.JoinedCount` | src/routes/Cats.js:55-61 | the count over cats and their photos joined is at least the number of cats |
| `Listing.JoinedCountExact` | src/routes/Cats.js:55-61 | that count equals the number of cats exactly when no cat has more than one photo |
| `Listing.JoinedCountOvercounts` | src/routes/Cats.js:55-68 | one cat with two photos is counted twice and announces a second page, which comes back empty |
| `Listing.ListPhotos` | src/routes/Photos.js:30-77 | a query that fails its schema is the 400 validation error; one that throws is passed on; a served page is status 200 from a query that parsed |
| `Listing.PhotosPage` | src/routes/Photos.js:39-72 | the sort used is the query's or the default, and is accepted; the listing fails exactly when its column is unknown, with the database's error; otherwise it answers 200 |
| `Listing.ListPhotosAnswer` | src/routes/Photos.js:39-72 | page and limit are the clamped query values, the sort is the query's or `position:asc`, and the filter is the query's `catId`; the data is the window at `(page - 1) * limit` of the photos of that cat (of every cat when `catId` is absent or 0) ordered by the sort column, then by ascending id; `total` counts the matching photos and `totalPages` is its ceiling over the limit |
| `Listing.PhotosPageAnswer` | src/routes/Photos.js:39-72 | the same equations for the page served for an already parsed query |
| `Listing.ListPhotosCatZero` | src/routes/Photos.js:50-51 | `catId=0` filters nothing: the meta block reports 0 and the total counts every photo |
| `Listing.ListPhotosRequestedPage` | src/routes/Photos.js:39-60 | a `page` of at least 1 and a `limit` within 1..100 are served as asked: the meta block reports them and the data is the window at `(page - 1) * limit` of the ordered matching photos |
| `Listing.AllKept` | src/routes/Photos.js:50-51 | a filter that accepts every row keeps them all, in order |
| `Listing.NoCatFilters` | src/routes/Cats.js:47-50 | with no filter given, every cat is listed, in storage order |
| `Tables.MakeCat` | src/models/Cat.js:12-15 | a created row has the next id and every field of the draft, parents included; its status is `available` unless one was given |
| `Tables.Patched` | src/routes/Cats.js:126 | each column takes the patch's value when the patch carries one and keeps its value otherwise; the id is kept |
| `Tables.PatchLaws` | src/routes/Cats.js:126 | an empty patch changes nothing, and applying a patch twice is applying it once |
| `Tables.Unlinked` | src/models/index.js:10-11 | after a parent's deletion no cat refers to it; every other reference and every other column is kept |
| `Tables.ClearCovers` | src/routes/Photos.js:120-123 | no other photo of the cat is a cover any more; only `cover` changes, and only on those rows |
| `Tables.PatchedPhoto` | src/routes/Photos.js:152-163 | `url`, `cover` and `position` take the value given and are kept when not given; id, cat and public id are kept |
| `Tables.PatchPhotos` | src/routes/Photos.js:149-165 | the photo becomes `PatchedPhoto` of itself; `cover: true` makes it its cat's only cover; every other photo differs at most in `cover`, and not at all unless `cover: true` was given or when it belongs to another cat; one cover per cat is kept |
| `Tables.SetCoverSpec` | src/routes/Photos.js:185-192 | after set-cover the photo is the cover, and among its cat's photos exactly it is; nothing but `cover` changes |
| `Tables.AddPhoto` | src/routes/Photos.js:111-124 | the new row is added; when it is a cover, no other photo of its cat is one; only `cover` changes elsewhere; one cover per cat is kept |
| `Tables.WithoutPhotosOf` | src/models/index.js:6 | exactly the photos of the deleted cat are removed, and the rest are unchanged |
| `Tables.CreateCatConsistent` | src/models/index.js:10-11 | inserting a cat whose parents are stored keeps the tables consistent |
| `Tables.UpdateCatConsistent` | src/models/index.js:10-11 | patching a cat with stored parents keeps the tables consistent |
| `Tables.DeleteCatConsistent` | src/models/index.js:6-11 | deleting a cat with its cascade and its parent nulling keeps the tables consistent, and nothing refers to it afterwards |
| `Tables.PatchPhotoConsistent` | src/routes/Photos.js:149-165 | patching a photo keeps the tables consistent |
| `Tables.AddPhotoConsistent` | src/models/index.js:6-7 | adding a fresh photo of a stored cat keeps the tables consistent |
| `Tables.DeletePhotoConsistent` | src/routes/Photos.js:217 | removing a photo keeps the tables consistent |
| `Store.Pick` | src/routes/Photos.js:120-123 | the row a bulk statement visits next is one still to visit |
| `Store.Database.constructor` | src/models/index.js:1-13 | the database starts empty and consistent |
| `Store.Database.ClearOtherCovers` | src/routes/Photos.js:120-123 | the row-by-row statement leaves the photos as `ClearCovers` says, and nothing else changes |
| `Store.Database.DeletePhotosOf` | src/models/index.js:6 | the row-by-row cascade removes exactly the photos of the cat, and nothing else changes |
| `Store.Database.UnlinkParent` | src/models/index.js:10-11 | the row-by-row nulling leaves the cats as `Unlinked` says, and nothing else changes |
| `Store.Database.CreateCat` | src/routes/Cats.js:98-111 | a refused body changes nothing; an unknown parent is the database's error and changes nothing; otherwise the row is inserted under the next id with 201 |
| `Store.Database.InsertCat` | src/routes/Cats.js:105-106 | the insert with its foreign-key check, and the new state |
| `Store.Database.UpdateCat` | src/routes/Cats.js:116-132 | a refused body, an unknown id (404) and an unknown parent change nothing; otherwise only that row changes, by the patch |
| `Store.Database.PatchCat` | src/routes/Cats.js:126-127 | the update with its foreign-key check, and the new state |
| `Store.Database.DeleteCat` | src/routes/Cats.js:137-152 | an unknown id is 404 and changes nothing; otherwise the cat goes, with its photos, and references to it become null |
| `Store.Database.UploadPhoto` | src/routes/Photos.js:86-131 | a refused form, a missing file (400) and an unknown cat (404) change nothing; so does a failed upload; otherwise the photo is added under the next id, and as a cover it becomes its cat's only one |
| `Store.Database.InsertPhoto` | src/routes/Photos.js:110-126 | the upload result, then the insert and the cover clearing |
| `Store.Database.PatchPhoto` | src/routes/Photos.js:139-171 | a refused body and an unknown id (404) change nothing; otherwise the table becomes `PatchPhotos` of it |
| `Store.Database.ApplyPatch` | src/routes/Photos.js:152-166 | the sibling covers are cleared first, then the photo is patched |
| `Store.Database.SetCover` | src/routes/Photos.js:178-199 | an unknown id is 404 and changes nothing; otherwise the photo becomes its cat's only cover and is answered with "Cover updated" |
| `Store.Database.DeletePhoto` | src/routes/Photos.js:206-224 | an unknown id is 404 and changes nothing; otherwise exactly that row goes, whatever the image host does |

Every route method also keeps `Valid()`. That means:

- each table is keyed by row id;
- every photo belongs to a stored cat;
- every parent reference names a stored cat;
- at most one photo per cat is a cover;
- the id counters are above every stored id.

## Left out

- Authentication and roles (`requireAuth`, `requireRole`) are not modelled. They are JWT and bcrypt calls into libraries.
- Multer parsing and rate limiting are not modelled. They are library configuration. The upload route takes a flag saying whether the request carried a file.
- The image host is represented as follows. Its answer to an upload is a parameter of `UploadPhoto`: an address and an id, or an error message. Its delete never fails and leaves no trace. This matches the service, which does nothing without a public id and swallows errors.
- `Number()` on strings and the URL check of `z.string().url()` are parameters, so floating point is not modelled. A JSON number is its integer part plus whether a fraction was cut off.
- `zDateOnly` on a `Date` object is not modelled: request bodies and queries cannot carry one. The schema does not check calendar validity, so `"2023-02-30"` passes it; whether the `DATEONLY` column then refuses it depends on the database, which is not modelled (see `Store.Database.InsertCat`).
- `error.format()` is represented by the collected issue list. Zod's other issue fields are left out. The exact texts of a few issues are stand-ins, for example the message of the photo sort mismatch.
- The SQL order is represented by an abstract `Columns` value. It says which column names exist and how a column ranks a row, so collation and the comparison of strings and dates are not modelled. An unknown column is the database error whose message `Columns.refusal` carries.
- Ties in the cat order keep storage order. SQL leaves that order open.
- `Listing.SortBy`: keeping the relative order of equal keys is stated in its comment but not proved.
- The `createdAt`/`updatedAt` timestamps are not modelled. The default `createdAt` order therefore ranks by whatever `Columns.rank` says.
- `GET /cats/:id` is not modelled. It is a primary-key lookup answered 404 or with the cat. Likewise the photos that `GET /cats` embeds in each cat row are not modelled.
- A foreign-key violation is represented by the driver's error with the stand-in text `ForeignKeyRefusal`. It reaches the error handler as a 500.
- `Store.Database.InsertCat`: the only refusal modelled is the foreign-key check. The database is configured in `src/config/database.js`, which is not part of this model, and its other refusals are not modelled: a string longer than the 255 characters of a `STRING` column (`name`, `sireName`, `damName`, `sireRegistration`, `damRegistration`), and a `birthDate` that matches the pattern but is no calendar date. Where a strict database refuses these with a 500 through `next(err)`, the model answers 201 and stores the row. A refused insert is modelled as changing nothing, `nextCatId` included; a database whose auto-increment counter is used up by a failed insert gives the next cat a higher id than the model does.
- `Store.Database.PatchCat`: the same column refusals (the 255-character strings and a non-calendar `birthDate`) are not modelled on update; where the database refuses them, the model answers 200 and stores the patch. `Store.Database.CreateCat` and `Store.Database.UpdateCat` inherit this gap.
- `Store.Database.ApplyPatch`: a given `url` longer than the 255 characters of the `STRING` column is not refused; where the database refuses it, the model answers 200. `Store.Database.PatchPhoto` inherits this gap, and so do the photo inserts, whose `url` and `publicId` come from the image host.
- Path parameters reach the routes already read as integers, so the text-to-id conversion of `req.params.id` is not modelled.
- The 32-bit width of the `INTEGER` columns and overflow of the id counters are not modelled.
- Transactions and concurrency are not modelled. Each route runs alone, and its statements run in the order the source issues them.
- Zod's `.strip()` of unknown keys needs no modelling: the normalised payload types carry only the schema's fields.
- The create-by-URL, bulk, upload-bulk and reorder schemas have no route in this repository. They are modelled as schemas only.
- Where the design description and the code disagree, the model follows the code:
  - A kitten created with an empty sire or dam text is accepted and keeps the empty string. Nothing turns it into null.
  - An update may change `type`. Its rules look only at the fields in the body, never at the stored type, and without `type` no rule runs.
  - The update rules of a kitten reject a given sire or dam field. They do not silently null it.
  - An error's own message reaches the client even for a 500.
  - An upload inserts a cover photo before it clears the other covers. For one statement, a cat with an earlier cover therefore has two. The model issues the statements in that order and restores one cover per cat before the route returns.
  - The cat routes send their 404 themselves, as `{ error: "Cat not found" }`. The model hands a `boom("Cat not found", 404)` to the error handler instead, which answers the same response (`Middleware.BoomResponse`).

## Findings

| source | as written | input that shows it | evidently intended | confidence | as-written member | corrected member |
|---|---|---|---|---|---|---|
| src/routes/Cats.js:55-68 | `findAndCountAll` with `include: [{ model: Photo }]` and no `distinct: true` counts the rows of the cat–photo join, so `meta.total` counts a cat once per photo | one breeder with two photos, `limit=1`: `total` is 2, `totalPages` is 2, and page 2 is empty | `total` counts the matching cats, so `totalPages` is the number of pages that hold them | not executed | `Listing.JoinedCount`, `Listing.JoinedCountOvercounts` | `Listing.ListCats`, `Listing.ListCatsAnswer` |

`Listing.JoinedCountExact` proves that the two counts agree exactly when no listed cat has more than one photo.
