# Marketing site core, modelled in Dafny

This project models the server and client logic of a marketing website
that has:

- three catalogues: spices and honey, travel packages, and business-formation services;
- a contact-inquiry form;
- a customer-feedback tool that classifies feedback text by sentiment through a remote language model.

Four pieces are modelled.

- **`MemStorage`** (`storage.dfy`, `records.dfy`, `tables.dfy`). This is the in-memory store.
  - It keeps four id-keyed tables: inquiries, spice products, travel packages and business services.
  - Each table has its own counter that hands out ids 1, 2, 3, ...
  - Creating a record fills in field defaults. Queries list, filter or sort a table.
  - An update changes one field, or merges a partial record into the stored one. It answers `undefined` (`None`) for an unknown id.
  - The constructor loads a fixed sample catalogue through the same create operations.
  - The store is a `class` with four `map` fields and four counter fields. Each create, update and seeding method names exactly the fields it may change, so no operation on one table can touch another table or its counter.
  - `Valid()` says that each table holds exactly the ids `1 .. counter-1`, each record under its own id. Under that invariant, listing a JavaScript `Map`'s values in insertion order is listing them by ascending id (`Tables.InIdOrder`).
- **The sentiment normaliser** (`sentiment.dfy`). It turns the classifier's parsed reply into three parts:
  - a label from {positive, negative, neutral};
  - a confidence in [0, 1];
  - an optional whole-star rating in [1, 5].

  Any failure gives the fixed fallback: neutral, confidence 0.1, no rating. The remote call is a parameter that either fails or returns the reply's text, and `JSON.parse` is a parameter too. The confidence expression as written can yield NaN (see "## Findings"); the normaliser the rest of the model uses applies the corrected confidence.
- **The feedback routes** (`routes.dfy`):
  - the CSV export, whose Content column is quoted with embedded quotes doubled (section 2 of RFC 4180), together with a reader following that section, against which the export is proved to read back;
  - the `days` default of the trends route;
  - the POST handler: the order of its store calls, the merge of the classification into the record, and the mapping of every error to 400;
  - the PATCH handler: 404 versus success versus 500.

  The feedback and customer store behind these handlers is abstract. Whether a customer exists, which calls throw, and what the store returns are all parameters.
- **Display helpers** (`utils.dfy`):
  - relative dates, with the current time passed in;
  - the zero-guarded percentage;
  - the colour and badge classes for a sentiment label.

The JavaScript semantics these pieces depend on are in `js.dfy`:

- parsed JSON values, with `undefined` for a missing property;
- truthiness;
- `Number()` coercion, with NaN as `None`;
- `Math.round`;
- the text of an integer;
- `parseInt`;
- `Array.join` and `String.split` on one separator character.

`wrappers.dfy` holds `Option`.

## Model

| member | source | states |
|---|---|---|
| Tables.InIdOrder | server/storage.ts:240-242 | `Array.from(map.values())` over a table keyed `1..next-1`: the record with id `i+1` sits at position `i`, and there are `next-1` of them |
| Tables.InIdOrderIsTable | server/storage.ts:204-214 | every stored record appears in the listing; every listed record is the one stored under its own id; ids ascend along the listing |
| Tables.InIdOrderExtend | server/storage.ts:192-200 | storing a record under the next id appends it to the end of the listing |
| Tables.Filter | server/storage.ts:244-248 | `filter` keeps exactly the elements that satisfy the predicate, and never more elements than it was given |
| Tables.FilterAscending | server/storage.ts:244-248 | filtering keeps the order of the elements it keeps |
| Tables.FilterSnoc | server/storage.ts:244-248 | filtering a listing with one more record at the end adds that record exactly when it is kept |
| Tables.SelectStep | server/storage.ts:210-214 | one step of the query loop: the filtered listing up to id `k` is the one up to `k-1`, plus the record under `k` when it is kept |
| Tables.Select | server/storage.ts:210-214 | the query loop over a table in id order returns exactly the filtered listing |
| Tables.SameElements | server/storage.ts:204-208 | reordering a listing (same multiset) keeps exactly the same records in it |
| Records.OrNull | server/storage.ts:196 | `value \|\| null` on a text: missing or empty becomes null; anything else is kept |
| Records.OrDefault | server/storage.ts:233 | `flag ?? default`: only a missing flag takes the default, so an explicit `false` is kept |
| Records.NewInquiry | server/storage.ts:193-199 | a created inquiry has the given id, status "new" and the creation time; its phone is `phone || null` (a truthy phone kept as given, a falsy one null); every other field comes from the input |
| Records.NewSpiceProduct | server/storage.ts:229-235 | the product has the given id; `isAvailable` is true unless explicitly false; price range and image are `value || null` (truthy values kept as given, falsy ones null); the remaining fields come from the input |
| Records.NewTravelPackage | server/storage.ts:263-269 | the package has the given id; `isActive` is true unless explicitly false; `includes` is kept as given, because an array is never falsy; the image is `value || null`; the remaining fields come from the input |
| Records.NewBusinessService | server/storage.ts:297-304 | the service has the given id; `isPopular` is true only when explicitly true; price and duration are `value || null`; `features` and the remaining fields come from the input |
| Records.Overlay | server/storage.ts:253 | one property of `Object.assign`: a given value overwrites the field, an absent one leaves it |
| Records.ApplySpiceProductUpdate | server/storage.ts:250-258 | each field given in the update overwrites that same field, each absent field keeps its value, and the id never changes; an empty update changes nothing |
| Records.ApplyTravelPackageUpdate | server/storage.ts:284-292 | each field given in the update overwrites that same field, each absent field keeps its value, and the id never changes; an empty update changes nothing |
| Records.ApplyBusinessServiceUpdate | server/storage.ts:319-327 | each field given in the update overwrites that same field, each absent field keeps its value, and the id never changes; an empty update changes nothing |
| Records.UpdatesIdempotent | server/storage.ts:250-327 | applying the same partial update twice equals applying it once, for all three catalogues |
| Storage.InsertByNewest | server/storage.ts:205-207 | inserting an inquiry adds exactly that inquiry (multiset), and the list then starts with either it or the old first inquiry |
| Storage.InsertByNewestSorted | server/storage.ts:205-207 | inserting into a newest-first list keeps it newest first |
| Storage.SortNewestFirst | server/storage.ts:205-207 | the comparator sort yields a permutation of its input ordered by `createdAt`, descending |
| Storage.BlackCardamom | server/storage.ts:69-77 | the first sample product is an available spice |
| Storage.MalabarPepper | server/storage.ts:78-86 | the second sample product is an available spice |
| Storage.MadagascarCloves | server/storage.ts:87-95 | the third sample product is an available spice |
| Storage.ForestHoney | server/storage.ts:96-104 | the fourth sample product is available honey |
| Storage.SpiceProductSeed | server/storage.ts:68-105 | the sample products, in their source order: all four available, the first three in "spices" and the last in "honey" |
| Storage.DubaiHeritageTour | server/storage.ts:113-122 | the first sample package is active |
| Storage.AbuDhabiCulture | server/storage.ts:123-132 | the second sample package is active |
| Storage.KeralaSpiceTrail | server/storage.ts:133-142 | the third sample package is active |
| Storage.TravelPackageSeed | server/storage.ts:112-143 | the three sample packages, in their source order, are all active |
| Storage.LlcFormation | server/storage.ts:151-158 | the first sample service is popular |
| Storage.FreeZoneSetup | server/storage.ts:159-166 | the second sample service is popular |
| Storage.BusinessConsultation | server/storage.ts:167-174 | the third sample service is not popular |
| Storage.ImportExportLicense | server/storage.ts:175-182 | the fourth sample service is not popular |
| Storage.BusinessServiceSeed | server/storage.ts:150-183 | the four sample services, in their source order: exactly the first two are popular |
| Storage.MemStorage.constructor | server/storage.ts:52-64 | empty inquiry table with counter 1; the store is valid; the seeded catalogue holds 4 spice products (ids 1-3 in "spices", id 4 in "honey", all available), 3 travel packages (all active) and 4 services (ids 1-2 popular, 3-4 not) |
| Storage.MemStorage.InitializeSampleData | server/storage.ts:66-188 | seeding the three catalogues through their creates leaves the catalogue just described and keeps the store valid |
| Storage.MemStorage.SeedSpiceProducts | server/storage.ts:68-109 | the four seed products get ids 1-4 and are all available; the first three are in "spices", the fourth in "honey" |
| Storage.MemStorage.SeedTravelPackages | server/storage.ts:112-147 | the three seed packages get ids 1-3 and are all active |
| Storage.MemStorage.SeedBusinessServices | server/storage.ts:150-187 | the four seed services get ids 1-4, and exactly the first two are popular |
| Storage.MemStorage.CreateInquiry | server/storage.ts:191-202 | the new inquiry takes the current counter as id, which no stored inquiry has; it is stored under that id and nothing else changes; the counter goes up by one |
| Storage.MemStorage.GetAllInquiries | server/storage.ts:204-208 | returns a permutation of the stored inquiries: each stored one appears, each returned one is stored under its id, and they are ordered newest first |
| Storage.MemStorage.GetInquiriesByBusinessType | server/storage.ts:210-214 | returns exactly the stored inquiries of that business type, in id order |
| Storage.MemStorage.UpdateInquiryStatus | server/storage.ts:216-224 | unknown id: returns None and changes nothing; known id: replaces only that inquiry's status and returns the updated inquiry |
| Storage.MemStorage.CreateSpiceProduct | server/storage.ts:227-238 | the product takes the current counter as a fresh id; it is stored under that id and appended to the listing; the counter goes up by one; other tables are untouched |
| Storage.MemStorage.GetAllSpiceProducts | server/storage.ts:240-242 | returns the products in id order, one per issued id |
| Storage.MemStorage.GetSpiceProductsByCategory | server/storage.ts:244-248 | returns exactly the stored products of that category that are available, in id order |
| Storage.MemStorage.UpdateSpiceProduct | server/storage.ts:250-258 | unknown id: returns None and changes nothing; known id: merges the given fields into that product only and returns it |
| Storage.MemStorage.CreateTravelPackage | server/storage.ts:261-272 | the package takes the current counter as a fresh id; it is stored under that id and appended to the listing; the counter goes up by one |
| Storage.MemStorage.GetAllTravelPackages | server/storage.ts:274-276 | returns the packages in id order, one per issued id |
| Storage.MemStorage.GetActiveTravelPackages | server/storage.ts:278-282 | returns exactly the stored packages that are active, in id order |
| Storage.MemStorage.UpdateTravelPackage | server/storage.ts:284-292 | unknown id: returns None and changes nothing; known id: merges the given fields into that package only and returns it |
| Storage.MemStorage.CreateBusinessService | server/storage.ts:295-307 | the service takes the current counter as a fresh id; it is stored under that id and appended to the listing; the counter goes up by one |
| Storage.MemStorage.GetAllBusinessServices | server/storage.ts:309-311 | returns the services in id order, one per issued id |
| Storage.MemStorage.GetPopularBusinessServices | server/storage.ts:313-317 | returns exactly the stored services that are popular, in id order |
| Storage.MemStorage.UpdateBusinessService | server/storage.ts:319-327 | unknown id: returns None and changes nothing; known id: merges the given fields into that service only and returns it |
| Js.Get | server/sentiment.ts:44-46 | reading a property of null throws; any other value answers with the property, or `undefined` when it does not have it |
| Js.RoundHalfUp | server/sentiment.ts:46 | `Math.round` gives the integer within half of its argument, rounding halves up |
| Js.ParseIntText | server/routes.ts:83 | `parseInt` reads back any integer written in decimal, including when text follows that starts with neither a digit nor, after the integer 0, an `x` or `X` |
| Js.ParseIntNoDigit | server/routes.ts:83 | text that starts with anything but white space, a sign or a decimal digit (such as "undefined") parses to NaN |
| Js.DecimalDigits | server/routes.ts:83 | the decimal digits of a number, one character for numbers below 10, starting with `0` only for 0 itself (no leading zeros) |
| Js.IntText | server/routes.ts:110 | the text JavaScript prints for an integer: a leading `-` exactly for negatives, `0` exactly for zero, and no leading zero otherwise |
| Js.DecimalDigitsValue | server/routes.ts:83 | the decimal digits printed for a number denote that number |
| Js.SplitJoin | server/routes.ts:122 | splitting a join of pieces that hold no separator gives back the pieces |
| Js.JoinAvoids | server/routes.ts:122 | a join contains no character that is neither in a piece nor the separator |
| SentimentAnalysis.Name | server/sentiment.ts:9 | every sentiment is stored as one of the three labels |
| SentimentAnalysis.Label | server/sentiment.ts:44 | a parsed text equal to one of the three labels is kept; any other value, or none, gives neutral |
| SentimentAnalysis.Clamp | server/sentiment.ts:45 | clamping lands in [0, 1], is the identity on [0, 1], and sends values below 0 to 0 and above 1 to 1 |
| SentimentAnalysis.ConfidenceAsWritten | server/sentiment.ts:45 | the expression as written: a falsy confidence (including 0) becomes 0.5; a numeric one is clamped to [0, 1] (below 0 gives 0, above 1 gives 1); the result is NaN exactly when the value is truthy and has no numeric reading |
| SentimentAnalysis.ConfidenceNaN | server/sentiment.ts:45 | an object, a word, or an array of two numbers as the confidence gives NaN |
| SentimentAnalysis.Confidence | server/sentiment.ts:45 | the corrected confidence always lies in [0, 1]; it agrees with the expression wherever that is a number, and is 0.5 where it would be NaN |
| SentimentAnalysis.Rating | server/sentiment.ts:46 | a rating is present exactly when the parsed value is truthy and numerically within [1, 5]; then it is the nearest whole number, itself within [1, 5] |
| SentimentAnalysis.Normalise | server/sentiment.ts:41-47 | a reply that parses to null throws (caught by the fallback); otherwise the label, the confidence and the rating are read from the reply's three properties, with the corrected `Confidence` of "## Findings" in place of the expression as written, so the result is bounded |
| SentimentAnalysis.ReplyText | server/sentiment.ts:41 | null or empty content is read as `{}`; other content is parsed as given |
| SentimentAnalysis.AnalyzeSentiment | server/sentiment.ts:41-55 | a failed call, an unparseable reply or a null reply gives exactly the fallback; otherwise the result is the normalised reply (with the corrected confidence of "## Findings"), so the result is always bounded |
| SentimentAnalysis.EmptyReply | server/sentiment.ts:41-47 | empty or missing content gives neutral, confidence 0.5, no rating |
| SentimentAnalysis.Reply | server/sentiment.ts:24 | the reply format the classifier is asked for: an object whose `sentiment`, `confidence` and `rating` properties carry the label, the confidence and the rating (undefined when there is none) |
| SentimentAnalysis.NormaliseReply | server/sentiment.ts:43-47 | a reply in the requested format comes back unchanged, except that a confidence of 0 becomes 0.5 |
| Routes.EscapeQuotes | server/routes.ts:113 | escaping never shortens the text |
| Routes.QuoteField | server/routes.ts:113 | the Content field starts and ends with a double quote |
| Routes.UnescapeEscape | server/routes.ts:113 | halving doubled quotes undoes the escaping |
| Routes.ContentRoundTrip | server/routes.ts:113 | stripping the outer quotes and halving `""` recovers the original content |
| Routes.EscapeAvoids | server/routes.ts:113 | escaping introduces no character other than the double quote |
| Routes.OrEmpty | server/routes.ts:112 | `email || ''`: a missing or empty email gives an empty field, any other email is written as given |
| Routes.RowFields | server/routes.ts:109-120 | a row has the ten columns in header order; Email is `email || ''`; Rating is empty exactly when the rating is missing or 0 and is otherwise the rating's decimal text; Content is the quoted content; Responded is Yes exactly when responded |
| Routes.CsvLines | server/routes.ts:108-122 | the header line comes first, then one line per record: records + 1 lines |
| Routes.Row | server/routes.ts:109-122 | when the fields written unquoted hold no comma, line break or leading quote, a CSV reader finds in the line exactly the ten cells, Content as stored even when it holds commas, quotes or line breaks; when no field holds a comma, splitting the line on `,` gives back the ten fields |
| Routes.ExportCsv | server/routes.ts:108-122 | when every record's unquoted fields hold no comma, line break or leading quote, a CSV reader finds the header record and then each record's ten cells in store order, Content as stored even when it holds commas, quotes or line breaks; when no field holds a line break, splitting the document on `\n` gives back exactly the header line and the record lines |
| Routes.ReadQuotedEscape | server/routes.ts:113 | a reader of a quoted field stops at the closing quote the export writes and reads back the original content, quotes included |
| Routes.ReadFieldOf | server/routes.ts:113 | a field written as it stands or quoted, followed by a separator, reads back as its cell |
| Routes.ReadRecordOf | server/routes.ts:122 | a line of written cells joined by `,` reads back as exactly those cells |
| Routes.ReadRecordsOf | server/routes.ts:122 | lines of written cells joined by `\n` read back as exactly those records, in order |
| Routes.RowWrites | server/routes.ts:109-120 | every field of a record's line writes its cell: Content quoted, every other field as it stands |
| Routes.ReadRow | server/routes.ts:109-122 | a record's line reads back as its ten cells |
| Routes.ReadExport | server/routes.ts:108-122 | the exported document reads back as the header record followed by each record's cells |
| Routes.CsvLineOf | server/routes.ts:109-122 | the line after the header that belongs to record `i` is that record's row, so the lines follow store order |
| Routes.HeaderLine | server/routes.ts:108-122 | the header line splits on `,` into exactly the ten headers, in order |
| Routes.RowSingleLine | server/routes.ts:109-122 | a record whose fields hold no line break gives a line without one |
| Routes.CsvLinesSingle | server/routes.ts:108-122 | when no header and no field holds a line break, no line of the export does |
| Routes.ExportLines | server/routes.ts:108-122 | with no line breaks inside fields, the export has records + 1 lines: the header line first, then record `i`'s row on line `i + 1` |
| Routes.TrendDays | server/routes.ts:83 | days is never 0: the parsed integer when it is a nonzero number, otherwise 30 |
| Routes.TrendDaysOf | server/routes.ts:83 | a nonzero integer written in decimal is used as the number of days |
| Routes.TrendDaysMissing | server/routes.ts:83 | a missing parameter means 30 days |
| Routes.TrendDaysZero | server/routes.ts:83 | a zero parameter means 30 days |
| Routes.WithClassification | server/routes.ts:29-34 | the stored sentiment, confidence and rating are the classifier's, overriding the body's; the other fields come from the body |
| Routes.PostPlan | server/routes.ts:14-34 | with no email, the only call is creating the feedback; with an email: lookup first, then create the customer exactly when none exists (as the second call), then the stats update, then creating the feedback last: 3 calls, or 4 when the customer is created |
| Routes.FirstFailure | server/routes.ts:10-40 | the first call that throws; none before it throws |
| Routes.FirstFailureAt | server/routes.ts:10-40 | a call that throws with none before it throwing is the first failure |
| Routes.RecordFeedback | server/routes.ts:16-35 | the store calls after classification are the plan up to and including the first one that throws; any throw gives 400 "Invalid feedback data"; otherwise the created record is returned |
| Routes.SubmitFeedback | server/routes.ts:9-41 | a body that fails validation gives 400 with no store call; otherwise the calls made are the plan up to and including the first one that throws; any throw gives 400 "Invalid feedback data"; otherwise the created record is returned, whatever the classifier did (the classification uses the corrected confidence of "## Findings") |
| Routes.RespondToFeedback | server/routes.ts:53-68 | the store is asked with `parseInt` of the path id; a missing body or a throwing store gives 500; no record gives 404 "Feedback not found"; otherwise the updated record is returned |
| Routes.ClassifierFailureTolerated | server/routes.ts:14-34 | when the classifier call fails and the store does not throw, the submission succeeds with neutral, 0.1 and no rating |
| DisplayUtils.FormatDate | client/src/lib/utils.ts:8-25 | under an hour (future dates included) shows minutes; from one hour to under a day shows 1-23 hours; from one day to under a week shows 1-6 days; older dates use the locale date |
| DisplayUtils.FormatDateReadBack | client/src/lib/utils.ts:12-21 | the number shown reads back as the elapsed whole minutes, hours or days |
| DisplayUtils.FormatPercentage | client/src/lib/utils.ts:27-30 | a zero total gives "0%"; every result ends in `%` |
| DisplayUtils.Percent | client/src/lib/utils.ts:27-29 | the whole percentage is 0 for a zero total, otherwise the integer within half of value/total × 100 |
| DisplayUtils.PercentageText | client/src/lib/utils.ts:27-30 | the text is the decimal percentage followed by `%`; the zero guard prints what a 0 percentage would |
| DisplayUtils.FormatPercentageReadBack | client/src/lib/utils.ts:27-30 | the number shown reads back with `parseInt` as the whole percentage |
| DisplayUtils.PercentOfPart | client/src/lib/utils.ts:27-30 | a part of a whole (0 ≤ value ≤ total) is shown as 0 to 100 percent |
| DisplayUtils.SentimentColor | client/src/lib/utils.ts:32-43 | positive gives `text-success`, negative `text-destructive`, neutral `text-warning`; the muted default is given exactly to texts other than the three labels |
| DisplayUtils.SentimentBadgeClass | client/src/lib/utils.ts:45-56 | positive gives the green badge, negative the red one, neutral the yellow one; the grey default is given exactly to texts other than the three labels |
| DisplayUtils.LabelsDistinguished | client/src/lib/utils.ts:32-56 | the label of each sentiment the classifier stores is shown as the table says (positive: success and green, negative: destructive and red, neutral: warning and yellow), so each gets its own non-default colour and badge |

## Left out

- Storage.MemStorage.GetAllInquiries: the contract does not state that inquiries with equal `createdAt` keep their insertion order, as JavaScript's stable sort does. The model's insertion does keep that order, but no lemma proves it.
- Storage.MemStorage.constructor: the contract states the counts, categories and flags of the seeded catalogue. It does not state the names, descriptions, prices and images. Those texts appear only in the bodies of the per-record sample methods (`Storage.BlackCardamom` and the rest), whose contracts likewise state only the category and flags: stating long literals in contracts makes the proofs that mention them too slow.
- SentimentAnalysis.Normalise: uses the corrected `SentimentAnalysis.Confidence`, not the expression as written, so a truthy confidence with no numeric reading (such as `"high"`) gives 0.5 where the source gives NaN; the source's behaviour is modelled only by `SentimentAnalysis.ConfidenceAsWritten` (see "## Findings").
- SentimentAnalysis.AnalyzeSentiment: inherits the corrected confidence from `SentimentAnalysis.Normalise`, so its "always bounded" holds for the corrected model, not for the source as written.
- Routes.SubmitFeedback: the stored classification inherits the corrected confidence from `SentimentAnalysis.AnalyzeSentiment`; the source would store NaN in the case above.
- Routes.Row, Routes.ExportCsv: the read-back as CSV is promised only when the fields written unquoted (customer name, email, confidence text, source and date text) hold no comma, line break or leading double quote. The export writes those fields without quoting, so a name such as `Smith, John` shifts the columns of its line, and the model states nothing about what a reader then finds.
- Aliasing. Records are values here. The source mutates the stored object in place (`status` assignment, `Object.assign`), so a record returned earlier would also see a later update. The model does not capture that.
- A partial update whose property is present but `undefined` copies `undefined` into the record. An update field here is either absent or a value.
- Extra properties that an insert object carries through the spread are not modelled.
- `async`/`await` and Promise wrapping: every operation runs to completion in sequence.
- Clock and locale:
  - the creation time and `now` are parameters;
  - `toISOString` and `toLocaleDateString` are opaque function parameters;
  - invalid dates (NaN times) are not modelled;
  - `formatDate` takes the date as milliseconds, so parsing a date string is not modelled.
- Numbers:
  - confidences and ratings are reals, not IEEE doubles;
  - NaN is modelled (as `None`) only where the source can produce it;
  - the text of a confidence in the CSV export is a parameter (JavaScript's number-to-text conversion);
  - integers are printed in plain decimal, so the exponent notation JavaScript uses from 1e21 is not modelled;
  - `Number()` of a non-empty text is carried with the text in `Js.JsValue.Text`, not computed.
- The remote classifier request (prompt, model, API key) is not modelled. Its outcome is a parameter: a failure or the reply's content. `JSON.parse` is a parameter.
- The feedback, customer and analytics store methods are not modelled: `getCustomerByEmail`, `createCustomer`, `updateCustomerStats`, `createFeedback`, `getAllFeedback`, `updateFeedbackResponse`, `getSentimentStats`, `getSentimentTrends` and `getResponseStats`. They are not defined in server/storage.ts, so their answers, and whether they throw, are parameters.
- Other routes:
  - the GET routes that only forward a store result are not modelled;
  - neither is the trends route's call to the store;
  - the export route's response headers are not modelled;
  - nor is the export route's 500 branch.
- Request validation (`insertFeedbackSchema.parse`) is not modelled: the schema is not part of this model, so the validated body, or a failure, is a parameter.
- The `days` parameter given more than once (an array) is not modelled.
- Express wiring, `console.error` logging and the `cn` class-name helper are not modelled.
- The React pages and components are not modelled.

## Findings

| source | as written | input that shows it | evidently intended | confidence | as-written member | corrected member |
|---|---|---|---|---|---|---|
| server/sentiment.ts:45 | a truthy confidence with no numeric reading passes through `Math.min` and `Math.max` as NaN, so the returned confidence is NaN and outside [0, 1] | a reply `{"sentiment": "positive", "confidence": {}}`, or a confidence of `"high"` or `[0.5, 0.9]` | the confidence is always in [0, 1]; a value that is not a number falls back to 0.5, like a missing one | not executed | SentimentAnalysis.ConfidenceAsWritten, SentimentAnalysis.ConfidenceNaN | SentimentAnalysis.Confidence |
