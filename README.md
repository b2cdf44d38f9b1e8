# Analytics dashboard backend — a Dafny model

This project models the logic inside a small analytics backend. The backend
imports dated usage records (an age bucket, an optional gender and six numeric
features A–F per day) from a spreadsheet into a document store. It answers two
aggregation queries over those records: the total of every feature, and the
per-day trend of one feature. Both accept optional age, gender and date-range
filters. The total query sits behind a conditional token check. Accounts
register and log in to obtain signed tokens.

The model has these modules:

- `StatSchema` (models/Stat.js): the `Stat` schema as a validity predicate on
  raw documents, plus the typed record that a valid document denotes.
  mongoose's `required` validator refuses the empty string on a String field,
  so a valid `Age` is non-empty. `Gender` may be absent or null.
- `Import` (index.js): `excelDateToJSDate` on integer serials, with the Date
  range limit of ±8.64e15 ms. Also the `{...stat, Day: …}` row rewrite and the
  `createDB` loop.
- `Pipeline`: the aggregation stages as a datatype, with a reference
  interpreter over a sequence of records. `$match` filters. `$group` is either
  the single `_id: null` row of six sums (no row at all when no record is left)
  or one row per distinct `Day`. `$sort` is an insertion sort on the key.
  `$project` renames the key to `Day` and yields the documents sent. The
  feature name enters `$group` and `$project` as a computed key, and the
  interpreter follows it where it collides with the handler's own keys or is
  a field name MongoDB refuses.
- `Aggregation` (index.js): the two pipeline builders, written as the source
  writes them (an empty sequence plus conditional appends). The stage order,
  the presence rules and what running each pipeline yields are proved. Also
  the `result[0]` read, which becomes an explicit `EmptyResult` error.
- `AuthGate` (middleware/auth.js): the three-way decision of `authMiddleware`.
  It reads `toData`, not `toDate`, and tests truthiness, so empty strings do
  not gate. The handlers test `!== undefined`; `Routes` states where the two
  rules disagree.
- `Accounts` (index.js): `/users` and `/auth` as methods of a class that holds
  the user collection as a `map` from email to account. `bcrypt.hash`,
  `bcrypt.compare` and `jwt.sign` are function parameters with no
  interpretation.
- `Routes` (index.js): the `/totalTimeSpent` route (gate, then aggregation),
  the reading of the query, and lemmas that relate the gate to the pipeline.

Some consequences of the code that the model states outright:

- Serial 44000 is 18431 days after 1970-01-01, which is the calendar date
  2020-06-18.
- A feature name outside A–F sums to 0 on every day of the trend query.
- MongoDB refuses some feature names as `$group` field names: the empty
  name, a name starting with `$`, and a name holding a dot or a null
  character. The aggregation then fails, and since the handler does not
  catch the error, nothing is sent.
- The feature name `Day` overwrites `Day: "$_id"` in the projection. Every
  sent document is then `{Day: 0}`, one per matching day, and the dates are
  lost.
- The feature name `_id` overwrites the group key `_id: "$Day"`. All
  matching records then fall into one group, and the single document sent
  is `{_id: 0, Day: 0}`.
- When no record matches, the total-sum result is empty and reading
  `result[0]` throws. The model makes that an `EmptyResult` error and a
  `Fault` response.
- The gate reads the parameters `age`, `gender`, `fromDate` and `toData`.
- The schema puts no bound on feature values, so negative values are valid.

## Model

| member | source | states |
|---|---|---|
| `StatSchema.ToStat` | models/Stat.js:3-40 | a valid document denotes a well-formed record carrying exactly the document's Day, Age and A–F, and its Gender string exactly when one is given |
| `StatSchema.ToDocValid` | models/Stat.js:3-40 | a record saves as a valid document iff its Age is non-empty and its Gender is absent, "Male" or "Female" |
| `StatSchema.ToStatToDoc` | models/Stat.js:3-40 | saving a well-formed record and reading it back returns the same record |
| `StatSchema.RequiredFieldMissing` | models/Stat.js:4-39 | removing any of Day, Age, A–F makes a document invalid |
| `StatSchema.GenderOptional` | models/Stat.js:12-15 | Gender is optional: dropping it keeps a valid document valid |
| `StatSchema.GenderEnum` | models/Stat.js:12-15 | a string Gender is accepted iff it is exactly "Male" or "Female" |
| `StatSchema.NoValueConstraints` | models/Stat.js:16-39 | any integer feature value (negative too) and any field outside the schema other than `_id` and `__v` keep a document valid |
| `StatSchema.NegativeFeatureExample` | models/Stat.js:16-19 | a concrete document with A = -5 and no Gender is valid |
| `Import.ExcelDateToJSDate` | index.js:32-34 | the result is always a Date; a serial that is not a number gives an invalid Date |
| `Import.SerialToDate` | index.js:33 | an integer serial gives a valid or an invalid Date, never anything else |
| `Import.SerialRange` | index.js:33 | the Date is valid iff the serial is within 10^8 days of 25569 |
| `Import.EpochSerial` | index.js:33 | serial 25569 is time 0, the Unix epoch |
| `Import.NextSerialIsNextDay` | index.js:33 | serial s+1 is exactly 86 400 000 ms after serial s, and every serial lands on a UTC midnight |
| `Import.SerialMonotone` | index.js:33 | conversion is strictly increasing and one-to-one on valid Dates |
| `Import.Serial44000` | index.js:32-34 | serial 44000 is 18431 days after the epoch, the calendar date 2020-06-18 |
| `Import.RewriteRow` | index.js:43 | the rewritten row's Day is `excelDateToJSDate` of the old Day cell (always a Date, possibly invalid), every other field is unchanged, and no field is added or lost |
| `Import.CreateDB` | index.js:41-47 | the documents handed to `createStat` are the rows, in order, each rewritten |
| `Import.RewriteValidity` | index.js:43-45 | a rewritten row passes the schema iff its Day is a number in Date range and its other fields pass it |
| `Pipeline.Select` | index.js:56-73 | a `$match` stage keeps exactly the records its condition accepts |
| `Pipeline.Days` | index.js:142-147 | grouping by Day yields each day that some record carries, exactly once |
| `Pipeline.GroupDays` | index.js:142-147 | the `$group` rows have pairwise different keys, their keys are exactly the days the records carry, one row per such day, and each row holds the sum over that day's records |
| `Pipeline.SortAscending` | index.js:149 | sorting group rows with distinct keys on `_id: 1` leaves them strictly ascending |
| `Pipeline.RunMatches` | index.js:56-73 | a sequence of `$match` stages keeps, in order, the records that pass all of them |
| `Pipeline.TrendTail` | index.js:142-151 | group by day, sort and project: rejected for a refused field name; for `_id`, one document `{_id: 0, Day: 0}` when any record is left, else none; otherwise the sorted per-day rows as the documents sent |
| `Aggregation.BuildTotalSumPipeline` | index.js:54-85 | the pushes build the filter stages followed by the single group stage |
| `Aggregation.BuildFeatureTrendPipeline` | index.js:121-151 | the pushes build the filter stages followed by group by Day, sort and project |
| `Aggregation.FilterStagesShape` | index.js:56-73 | the filter stages are match stages, one per stage-adding filter, in age, gender, date order |
| `Aggregation.TotalSumShape` | index.js:54-85 | one match per present filter, then exactly one final group; no match after it; with no filter, the group alone |
| `Aggregation.FeatureTrendShape` | index.js:121-151 | the same matches, then group by Day on the feature, ascending sort, projection, in that order |
| `Aggregation.FilterPresence` | index.js:56-73 | a match on Age (Gender) is present iff the filter is defined, including ""; a date stage iff both bounds are defined, with those bounds |
| `Routes.SelectedIgnoresHalfRange` | index.js:64-72 | a lone upper bound filters out nothing |
| `Aggregation.Selected` | index.js:56-73 | the selected records are exactly the stored ones that match every given filter, with an inclusive date range |
| `Aggregation.RunFilterStages` | index.js:56-73 | running the filter stages keeps exactly the records matching the conjunction of the filters, in order |
| `Aggregation.TotalSumSemantics` | index.js:75-87 | the total-sum pipeline yields one row of the six sums over the matching records, or no row when none match |
| `Aggregation.TrendProperties` | index.js:142-151 | trend rows are strictly ascending by day, cover exactly the days of the matching records, and each holds that day's sum of the feature |
| `Aggregation.FeatureTrendSemantics` | index.js:121-153 | the feature-trend pipeline fails exactly when the feature name is refused; otherwise it yields what group, sort and project make of the matching records |
| `Aggregation.SentTrendDocs` | index.js:142-151 | for a feature other than `Day`, the rendered trend rows (what is sent for a name MongoDB accepts other than `Day` and `_id`) each have exactly the fields Day and the feature, valid and strictly ascending dates, one per matching day, and that day's sum |
| `Aggregation.DayFeatureLosesDay` | index.js:145-151 | for the feature `Day`, one document `{Day: 0}` per matching day: the date is overwritten |
| `Aggregation.UnknownFeatureSumsZero` | index.js:145 | a feature name outside A–F sums to 0 on every day |
| `Aggregation.AggregateFeaturesSum` | index.js:53-97 | the six totals over exactly the matching records; an `EmptyResult` error iff no record matches |
| `Aggregation.FeatureTrend` | index.js:113-156 | nothing is sent iff MongoDB refuses the feature name; for `Day`, `{Day: 0}` per matching day; for `_id`, `{_id: 0, Day: 0}` once if any record matches; for any other name, documents with exactly Day and the feature, strictly ascending dates, one per matching day, each with that day's sum |
| `AuthGate.Authenticate` | middleware/auth.js:4-27 | next without a user iff no gating parameter is truthy; 401 iff gated with no token; 400 iff gated and verification throws; next with the decoded payload otherwise; nothing else |
| `AuthGate.UngatedIgnoresToken` | middleware/auth.js:5-12 | with no truthy gating parameter, neither the header nor the verifier affects the outcome |
| `AuthGate.ToDateAloneNotGated` | middleware/auth.js:9 | a request whose only parameter is `toDate` passes with no token |
| `AuthGate.EmptyParamsNotGated` | middleware/auth.js:6-9 | empty-string parameters do not trigger the gate |
| `AuthGate.OneFilterNoToken` | middleware/auth.js:14-17 | any one truthy gating parameter with no token, or an empty one, gets 401 |
| `Accounts.LoginReply` | index.js:178-191 | a token for the account's id iff the email is known and the password compares; otherwise 400 "Invalid email or password." |
| `Accounts.UserStore.Register` | index.js:158-176 | a known email gets 400 "User already registered." and the table is unchanged; otherwise exactly one account holding the salted hash is added, under an id no other account has, and the reply has only token, id and email |
| `Accounts.UserStore.Login` | index.js:178-191 | the reply is the login decision over the current table |
| `Accounts.NoAccountEnumeration` | index.js:180-187 | an unknown email and a wrong password get the same 400 reply |
| `Accounts.RegisterThenLogin` | index.js:165-190 | after a registration, logging in with that password returns the token of the new id, given that compare accepts a password against its own hash |
| `Accounts.RegisterTwice` | index.js:160-163 | registering one email twice: the second attempt is refused with 400 |
| `Routes.TotalTimeSpent` | index.js:103-111 | a gate rejection is sent as is; past the gate, the totals over the matching records, or a thrown error when none match |
| `Routes.NoFiltersSelectAll` | index.js:53-75 | with no filter every stored record is selected |
| `Routes.UnfilteredIsPublic` | middleware/auth.js:5-12 | an unfiltered request needs no token and sums over every record |
| `Routes.EmptyAgeUngatedButMatched` | middleware/auth.js:6 | `age=""` passes the gate with no token, yet the pipeline still matches Age against "" |
| `Routes.ToDateAloneIsPublic` | middleware/auth.js:9 | `toDate` alone is not gated and adds no date stage: a public answer over all records |
| `Routes.ToDataGatedButUnfiltered` | middleware/auth.js:9 | a truthy `toData` needs a token, although no handler filters on it |
| `Routes.LoginTokenPassesGate` | middleware/auth.js:19-22 | a token from login passes the gate and sets the user to the account's id, given that verify decodes what sign produced |

## Left out

- HTTP plumbing is not modelled: Express routing, `app.listen`, `cors`, the
  `Access-Control-Allow-Origin` header, `res.send` formatting, console logging
  and the `/` liveness route.
- The start-up check of `jwtPrivateKey` and its `process.exit` are not
  modelled. The signing key is fixed inside the `sign` parameter.
- The MongoDB and mongoose runtime is not modelled: `save`, `deleteMany`
  (`removeAllStats`), `findOne` and `aggregate` run against the reference
  interpreter and a `map`. `$sum` over non-numeric values is covered only for
  a name outside A–F, which adds 0.
- The interpreter gives no meaning to stage orders that neither handler
  builds. For those it returns `None`.
- bcrypt and jsonwebtoken are left out: hash, compare, sign and verify are
  function parameters. `genSalt(10)` is randomness, so the salt is a
  parameter.
- models/User.js and db.js are not part of this model. The user schema's own
  validation, and request bodies without `email` or `password`, are not
  covered.
- `xlsx.readFile` and `sheet_to_json` are file I/O and format parsing.
  `CreateDB` takes the rows as input.
- `createStat` is not modelled. It makes unordered, unawaited saves, so
  `CreateDB` returns the documents it hands over, not the stored collection.
- `new Date(fromDate)` string parsing is left out. It is the `toTime` function
  parameter, and bounds are integer time values.
- Query parameters are strings or absent. The arrays and objects that the
  query parser can produce are left out.
- `StatSchema.IsValidStat`: mongoose casts each value to the declared type
  before it validates. A number under `Age` becomes a string, and a numeric
  string or a boolean under A–F becomes a number. Casting is not modelled:
  every value must already have its declared kind, so documents that
  mongoose would cast and then accept are invalid here. `Import.RewriteValidity`
  inherits this.
- `StatSchema.IsValidStat` accepts a null `Gender`, as the mongoose versions
  whose enum validator skips null do. Versions whose enum validator refuses
  null are not modelled.
- `StatSchema.NoValueConstraints`: the `_id` and `__v` paths that mongoose
  adds to every schema are not modelled, so the lemma says nothing about
  adding those two fields.
- `Aggregation.FeatureTrend`: the refused field names are those of
  `Pipeline.RefusedFieldName`. Other server limits on field names are not
  modelled. The failed aggregation is an `Err` result; the unanswered
  request it leaves in Express is not modelled.
- `Import.ToNumber`: a string cell counts as NaN. JavaScript would convert a
  numeric string such as "44000" to a number; string-to-number parsing is not
  modelled.
- `Import.ExcelDateToJSDate` covers integer serials only. Fractional serials
  need the floating-point `Math.round`. For integers the product is exact in
  double arithmetic throughout the Date range.
- `Pipeline.Sum`: numbers are unbounded integers, not IEEE doubles. Rounding
  in large or fractional sums is not modelled.
- Concurrency is left out: two simultaneous registrations of one email could
  both pass the existence check in the source. Methods here run one at a time.
- Store ids are a counter field of `UserStore` standing in for ObjectIds.
