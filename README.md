# Food donation management: admin routes and donation schema in Dafny

This project models the logic core of a food-donation coordination app in which donors
submit donation requests, administrators accept, reject and assign them to field agents,
and agents collect them. It covers two source files:

- `models/donation.js`, the Mongoose schema of a donation: the status enum
  (pending, rejected, accepted, assigned, collected), the phone validator, the required
  fields and the bounds and null defaults of the feedback sub-document. Module
  `Donations` (`Donations.dfy`) models it as a pure validator over an input document.
- `routes/admin.js`, the admin routes:
  - the weekly trend of the dashboard (`getWeeklyTrendData`): seven day buckets ending
    today, one counter array per tracked status, filled from the donations whose ObjectId
    time is on or after the window's first midnight. Module `WeeklyTrend`
    (`WeeklyTrend.dfy`) has the two loops as methods: the labelling loop builds a
    sequence and a day map, the counting loop fills arrays; the whole is proved equal to
    a specification function `Trend`, with lemmas about `Trend`.
  - the feedback statistics of one agent: the query, the sum and 1-5 histogram loop, the
    mean rounded to one decimal and the output entries. Module `AgentFeedback`
    (`AgentFeedback.dfy`).
  - accept, reject and assign, which update one donation by id in place, and the two
    listings that filter by status. Module `DonationStore` (`DonationStore.dfy`) models
    the collection as a class holding a map from id to donation.
- `Wrappers.dfy` holds the `Option` and `Result` types.

Modelling choices:

- An ObjectId is its creation time in seconds plus the remaining bytes.
  `createFromTime(t)` zeroes the remaining bytes, so `_id >= createFromTime(t)` holds
  exactly for the ids created at or after `t` (`Donations.IdAtLeastFromTime`).
- A day is a whole local day number counted from 1970-01-01, a Thursday. A time belongs
  to the day `seconds / 86400`, and the weekday label of a day is its entry in a
  seven-name table. The window keys and the record keys are computed the same way in the
  source, so the model uses the day number as the key.
- A read of the collection is a parameter: `None` stands for a read that throws, and
  `Some(docs)` for the documents in collection order.
- The mean is kept as an integer number of tenths.
- The admin routes write unconditionally. Accept, reject and assign overwrite the status
  whatever it was, and assign accepts any user id as agent. The model follows the code,
  and lemmas such as `DonationStore.AcceptAndAssignShowAsPending` make the consequence
  explicit: a collected donation can be moved back to the pending page.
- `phone` is `required: true` in the schema, so the model requires it along with
  `donor`, `foodType`, `quantity`, `cookingTime`, `address` and `status`. Mongoose's
  `required` check on a string also refuses the empty string, and the model does too.

## Model

| member | source | states |
|---|---|---|
| `Donations.IdAtLeastFromTime` | routes/admin.js:66-67 | an id compares at least `createFromTime(t)` exactly when its time is at least `t` |
| `Donations.ParseStatus` | models/donation.js:45-48 | a string passes the enum exactly when it is the name of one of the five statuses, and then names that status |
| `Donations.ParseStatusName` | models/donation.js:47 | every status's name parses back to that status |
| `Donations.PhoneValidator` | models/donation.js:32-38 | the regex test accepts a phone exactly when it has at least 7 characters, all digits, spaces, `+`, `(`, `)` or `-` |
| `Donations.PhonePatternIsValidPhone` | models/donation.js:35 | matching `^[0-9 +()-]{7,}$` character by character agrees with the length-and-charset characterisation |
| `Donations.Failures` | models/donation.js:3-66 | a path fails exactly when: donor, cookingTime missing; foodType, quantity, address missing or empty; phone missing or not a valid phone; status missing or not in the enum; rating set and outside 1..5 |
| `Donations.Validate` | models/donation.js:3-66 | validation fails exactly when some path fails, reporting those paths; otherwise the stored donation meets the schema and stores every given field as given, with all-null feedback when none was given |
| `Donations.ValidateRoundTrip` | models/donation.js:3-66 | a donation written out in full validates exactly when it meets the schema, and then comes back unchanged |
| `DonationStore.Collection.FindByIdAndUpdate` | routes/admin.js:192 | writes the update's fields into the donation with that id and nothing else, returning the old donation or null for an unknown id |
| `DonationStore.Collection.Accept` | routes/admin.js:188-202 | the donation's status becomes accepted whatever it was; no other field and no other donation changes; an unknown id changes nothing |
| `DonationStore.Collection.Reject` | routes/admin.js:204-218 | the donation's status becomes rejected whatever it was; no other field and no other donation changes |
| `DonationStore.Collection.Assign` | routes/admin.js:236-251 | status becomes assigned and `agent` and `adminToAgentMsg` are set, whatever the prior status and whoever the agent is; nothing else changes |
| `DonationStore.PendingListing` | routes/admin.js:105 | exactly the donations whose status is pending, accepted or assigned, unchanged |
| `DonationStore.PreviousListing` | routes/admin.js:162 | exactly the donations whose status is collected, unchanged |
| `DonationStore.ListingsPartition` | routes/admin.js:105-162 | a donation is on the pending page exactly when it is on neither the previous page nor rejected |
| `DonationStore.UpdateTouchesOnlyItsId` | routes/admin.js:192-241 | an update by id leaves every other donation, and its place in both listings, as it was |
| `DonationStore.AcceptAndAssignShowAsPending` | routes/admin.js:188-251 | after accept or assign the donation is on the pending page and off the previous page, from any prior status |
| `DonationStore.RejectHidesFromListings` | routes/admin.js:208 | after reject the donation is on neither page, from any prior status |
| `DonationStore.UpdateKeepsValid` | routes/admin.js:192-241 | the three updates keep every donation of a schema-valid collection valid |
| `WeeklyTrend.AtOrAfterDayStart` | routes/admin.js:60-66 | a time is at or after a day's midnight exactly when its day is that day or later |
| `WeeklyTrend.FindIdAtLeast` | routes/admin.js:66-67 | the fetch returns exactly the documents whose id is at least the bound, each as often as the collection holds it, and no more documents than the collection has |
| `WeeklyTrend.Row` | routes/admin.js:79-84 | a counter array has one cell per day, cell `j` counting the documents of status `s` created on day `start + j` |
| `WeeklyTrend.RowSnoc` | routes/admin.js:90-91 | one more document raises by one the cell of its day in its status's array, when the day is in the window, and leaves every other cell alone |
| `WeeklyTrend.LabelWindow` | routes/admin.js:69-77 | the labels are the weekdays of the seven days from the window start in order, and the day map sends each of those days to its index and nothing else |
| `WeeklyTrend.CountDocument` | routes/admin.js:86-93 | the `forEach` body moves each counter array from the counts before the document to the counts with it |
| `WeeklyTrend.CountDocuments` | routes/admin.js:79-93 | four arrays of seven zeros, after the loop, hold the counts by day of collected, assigned, accepted and pending documents |
| `WeeklyTrend.GetWeeklyTrendData` | routes/admin.js:58-100 | the result is the specification `Trend`: the empty structure on a failed read, else the window's labels and counts |
| `WeeklyTrend.TrendShape` | routes/admin.js:60-84 | seven labels, the weekdays of today-6 .. today in order, pairwise different, the last today's; counter arrays for exactly collected, assigned, accepted, pending, each of length 7 |
| `WeeklyTrend.LabelsDistinct` | routes/admin.js:71-75 | two different days of the window carry different weekday labels |
| `WeeklyTrend.FailedReadIsEmpty` | routes/admin.js:96-98 | on a failed read: no labels, and empty arrays for all four tracked statuses |
| `WeeklyTrend.FetchedFromWindowStart` | routes/admin.js:62-67 | every fetched document was created on the window's first day or later |
| `WeeklyTrend.FetchedDocumentCounted` | routes/admin.js:86-93 | a fetched document is counted exactly when it is not rejected and not dated after today |
| `WeeklyTrend.FetchKeepsWindowDays` | routes/admin.js:66-67 | for every day of the window the fetch loses no document of the collection |
| `WeeklyTrend.TrendCell` | routes/admin.js:86-93 | cell `j` of status `s` counts the collection's donations of status `s` created on day `today - 6 + j` |
| `WeeklyTrend.TrendOneMore` | routes/admin.js:90-91 | one more donation raises by one the cell of its day and status, if any, and no other cell |
| `WeeklyTrend.RowsAddUp` | routes/admin.js:79-93 | the four arrays together count each tracked document created in the window once |
| `WeeklyTrend.TrendTotal` | routes/admin.js:86-93 | the sum of all cells equals the number of non-rejected donations created in the window, at most the number fetched, at most the collection size |
| `AgentFeedback.Filter` | routes/admin.js:121-124 | keeps exactly the documents of this agent with status collected and a non-null rating, each as often as the collection holds it, and no others |
| `AgentFeedback.SortNewestFirst` | routes/admin.js:125 | the result is a permutation of its input, ordered by `feedback.submittedAt` descending with null last |
| `AgentFeedback.QuerySelectsAndOrders` | routes/admin.js:121-125 | the query returns exactly the selected donations, each as often as the collection holds it, newest feedback first |
| `AgentFeedback.Entries` | routes/admin.js:140-146 | one entry per donation in the same order, copying id, rating, comment and `submittedAt`, and the donor's name; no entries when a donor does not resolve |
| `AgentFeedback.AvgRatingTenths` | routes/admin.js:136 | 0 for no donations; otherwise the mean in tenths rounded to the nearest tenth, a tie away from zero |
| `AgentFeedback.SumAndCount` | routes/admin.js:128-134 | `totalRating` is the sum of the ratings, and bucket `k` counts the donations rated `k + 1` |
| `AgentFeedback.AgentFeedbackReport` | routes/admin.js:116-157 | an error answer on a failed read or an unresolved donor; otherwise the entries of the query, `total` its length, the histogram and the rounded mean of its ratings |
| `AgentFeedback.HistogramAddsUp` | routes/admin.js:129-134 | with every rating in 1..5 the five buckets add up to the number of donations, and the sum lies between 1 and 5 times it |
| `AgentFeedback.MeanBetweenOneAndFive` | routes/admin.js:136 | with every rating in 1..5 the rounded mean of a non-empty list lies between 1.0 and 5.0 |
| `AgentFeedback.ValidCollectionStats` | routes/admin.js:129-136 | over a schema-valid collection the histogram adds up to `total` and the mean lies between 1.0 and 5.0 |

## Left out

- The dashboard's `Promise.all` of `countDocuments` calls (routes/admin.js:10-55): concurrent reads with no logic of their own; its fallback trend with only two status keys is not the trend's contract.
- The donation view, assign form, agent list and profile routes (routes/admin.js:173-186, 220-234, 253-289): reads and a pass-through update with no logic.
- Rendering, redirects, flash messages and the JSON framing: presentation.
- app.js and config/dbConnection.js: framework set-up and the database connection.
- Authentication (`ensureAdminLoggedIn`): decided outside the core.
- A malformed id in a URL or form, which makes Mongoose throw a cast error: ids are modelled as values, never as strings to parse.
- The 32-bit width of the ObjectId time and the range checks of `createFromTime`: times are unbounded integers.
- Time zones: the source sets local midnights and keys days by their UTC date; the model uses one day number for both. So it cannot show what happens when two local midnights share a UTC date, as they can around a daylight-saving change in a zone at UTC+0 with summer time: `dayMap` keeps the later index for that key, the earlier day's bucket stays 0, and its donations are counted on the later day.
- `DonationStore.Collection.Assign`: the agent and message are taken as present; a form that omits them, sending `undefined`, is not modelled.
- `DonationStore.PendingListing`: returns a map from id to donation, so the collection order of the result and the `populate("donor")` join are not modelled.
- `DonationStore.PreviousListing`: returns a map from id to donation in the same way, so its collection order and its `populate("donor")` join are not modelled either.
- `Donations.Validate`: a rating is an integer. The schema's `Number` type would also accept a fractional rating such as 2.5 within the bounds; casting of strings to numbers and dates is not modelled either.
- `AgentFeedback.SumAndCount`: a rating outside 1..5 counts in no bucket. The source's `ratingCounts[r]++` would add a key `r` whose value is `NaN`; the model does not carry that key.
- `AgentFeedback.AvgRatingTenths`: the mean is exact. `toFixed(1)` rounds the binary double of the mean, so a mean such as 4.05, whose double lies just below the tie, rounds down in the source and up in the model; the result is a number of tenths, not the string the source returns.
- `AgentFeedback.SortNewestFirst`: MongoDB does not fix the order of donations with equal `submittedAt`; the model's insertion sort keeps collection order among them, which is one of the orders MongoDB may return.
- `AgentFeedback.Entries`: a donor whose `firstName` or `lastName` is missing would print as `undefined` in the source; the model takes both names as strings.
- Guarded transitions and an agent-role check on assign: routes/admin.js and models/donation.js have none, so the model has none.
- Collection of an assigned donation and feedback submission, including whether a second feedback is refused: no write of `collected` or of `feedback` is in routes/admin.js or models/donation.js; the donor and agent routes mounted at app.js:11-12 are not part of this model.
- Concurrent requests and the atomicity of `findByIdAndUpdate`: each operation is one atomic step in the model.
