# Monthly ticket analytics, modelled in Dafny

The ticket service exposes two analytics endpoints over its `ticket`
collection. Revenue analysis groups tickets by the month of `createdAt` and
reports `summaryProfit`, the sum of `ticketPrice`. Visited analysis groups
them by the month of `performanceTime` and reports `summaryVisits`, the
number of tickets. Both endpoints take a `startDate`/`endDate` range and
have two execution paths:

- the **client-side fold** (default): the store returns the records with
  `startDate <= ts <= endDate`. The handler then folds them, in order, into
  a JavaScript object keyed by month name and returns `Object.values` of it;
- the **aggregation pipeline** (`?method=aggregation`): `$project` the month
  number, `$match` with `startDate <= ts < endDate`, `$group` by month number
  with `$sum`, look the number up in the 13-slot month-name table with
  `$arrayElemAt`, and `$unset` the number.

The model works on abstract records. A timestamp is an integer, and
`ticketPrice` is an integer. The month of a timestamp is a parameter
`monthOf: Timestamp -> Month` into 1..12. The month ignores the year, so
January 2022 and January 2023 share one entry.

Modules:

- `Months` (`months.dfy`): the month-name table, `MonthName`, and MongoDB's
  `$arrayElemAt`.
- `Tickets` (`tickets.dfy`): the record, the two metrics, and the range
  query `Select`, with an inclusive (`$lte`) or exclusive (`$lt`) end.
- `ClientFold` (`client_fold.dfy`): the object as an ordered sequence of
  entries, the loop step `Upsert`, the fold `Tally`, and the handler loop
  `FoldHandler`.
- `Pipeline` (`pipeline.dfy`): the `$group` and naming stages and the whole
  `AggregationPath`.
- `Analytics` (`analytics.dfy`): how the two paths relate, and the
  dispatching handler `Respond`.
- `Scenario` (`scenario.dfy`): a worked revenue example.
- `Seqs` (`seqs.dfy`): generic facts about sequences.
- `Wrappers` (`wrappers.dfy`): the optional value that `$arrayElemAt`
  returns.

The fold is compared with independent definitions of the per-month sums
(`SumFor`), of the overall total (`Total`) and of the order of first
appearance (`FirstOccurrences`). The pipeline's stages are compared with the
fold over the same records (`StagesAgree`). The inclusive and exclusive
range queries are compared with each other (`EndBoundDiffers`,
`SelectAgreesOffEnd`).

The two paths treat the end of the range differently. The fold's query
includes a record exactly at `endDate`, and the pipeline's `$match` does not.
`RecordAtEnd` shows a one-record input where the fold reports a month and
the pipeline reports nothing. `PathsAgreeOffEnd` proves that the two paths
return the same multiset of entries whenever no record lies exactly on
`endDate`. This agreement rests on one `monthOf` standing for both moment's
month, which is computed in local time, and `$month`, which is computed in
UTC; near a month boundary outside UTC the two can differ, and the model
does not cover that. Both aggregation pipelines use `$lt` and both store queries use
`$lte`, so the model keeps this difference as written.

## Model

| member | source | states |
|---|---|---|
| Months.MonthName | models/ticket.model.js:4-18 | a month's name is its table entry and is never the empty slot-0 placeholder |
| Months.MonthNameInjective | models/ticket.model.js:4-18 | two months have the same name exactly when they are the same month, so grouping by name and grouping by number agree |
| Months.ArrayElemAt | models/ticket.model.js:80-82 | `$arrayElemAt` finds an element exactly for indices in -len..len-1; a found element belongs to the array; a non-negative index selects that slot |
| Months.TableLookupIsMonthName | models/ticket.model.js:78-82 | looking up a 1-based month number in the 13-slot table gives that month's non-empty name; slot 0 is never reached |
| Tickets.Select | models/ticket.model.js:90-92 | the range query keeps every in-range record as often as it is stored and drops every other record; every kept record is in range |
| Tickets.EndBoundDiffers | models/ticket.model.js:69-92 | a record exactly on the end of the range is kept by the fold's `$lte` query and dropped by the pipeline's `$lt` match |
| Tickets.SelectAgreesOffEnd | models/ticket.model.js:163-186 | when no record lies on the end, the `$lte` and `$lt` queries return the same records |
| Seqs.FirstOccurrences | models/ticket.model.js:105 | the object's keys, listed as `Object.values` lists them: every inserted key appears, and none twice |
| Seqs.FirstOccurrencesOrder | models/ticket.model.js:94-105 | of two listed keys, the earlier one was inserted before the later one first was: insertion order of string keys |
| ClientFold.KeyOf | models/ticket.model.js:95 | the object key `format('MMMM')` of a record is the non-empty entry that the pipeline's `$arrayElemAt` finds in the month table for the same month |
| ClientFold.Upsert | models/ticket.model.js:95-103 | one loop step adds the record's amount to the sum of all accumulators, whether it updates an entry or creates one |
| ClientFold.UpsertMonths | models/ticket.model.js:95-103 | a seen key keeps the object's keys and their order; an unseen key is appended last |
| ClientFold.UpsertFrame | models/ticket.model.js:95-97 | the loop step changes no entry of another month |
| ClientFold.UpsertTotals | models/ticket.model.js:95-103 | the loop step adds the amount to the stepped month's accumulator and to no other |
| ClientFold.UpsertNew | models/ticket.model.js:98-103 | a month not yet in the object gets a new entry `{month, amount}` at the end |
| ClientFold.TallyOrder | models/ticket.model.js:94-105 | the output months are the distinct record months, in order of first occurrence, so no month appears twice |
| ClientFold.TallyTotals | models/ticket.model.js:94-104 | each month's accumulator equals the sum of the amounts of the records in that month |
| ClientFold.Tally | models/ticket.model.js:94-104 | after the loop the entries' totals add up to the total amount of all records: nothing is lost or counted twice |
| ClientFold.FoldFollowsFirstAppearance | models/ticket.model.js:94-105 | of two output entries, the earlier one's month appears among the records before the later one's month first does |
| ClientFold.TallyEntryTotal | models/ticket.model.js:94-105 | each returned entry's total equals the sum of the amounts of the records of its month |
| ClientFold.TallyHasKey | models/ticket.model.js:94-105 | a month has an entry exactly when some record falls in it; months are not zero-filled |
| ClientFold.VisitsCountPositive | models/ticket.model.js:188-197 | a month's visit count is at least 0, and at least 1 once a record falls in it |
| ClientFold.VisitsEntriesPositive | models/ticket.model.js:188-199 | every entry of the visits fold has `summaryVisits >= 1` |
| ClientFold.VisitsTotalIsCount | models/ticket.model.js:188-199 | the visit counts of the fold's entries add up to the number of records |
| ClientFold.FoldReadsStampAndAmount | models/ticket.model.js:94-104 | the fold reads a record only through the metric's timestamp and amount |
| ClientFold.RevenueReadsCreatedAtAndPrice | models/ticket.model.js:94-104 | revenue depends on `createdAt` and `ticketPrice` only: records that agree on them give the same entries |
| ClientFold.VisitsReadPerformanceTime | models/ticket.model.js:188-198 | visits depend on `performanceTime` only: records that agree on it give the same counts |
| ClientFold.TallyAppendSeen | models/ticket.model.js:95-105 | a record of an already-seen month leaves the output months and their order unchanged, and changes only that month's total |
| ClientFold.SameMonthMerges | models/ticket.model.js:95-100 | two records of the same month, from any years, merge into one entry holding both amounts |
| ClientFold.FoldHandler | models/ticket.model.js:90-105 | the handler loop returns the in-range months once each, in order of first occurrence, with each total equal to its month's sum and all totals adding up to the range's total |
| ClientFold.FoldPath | models/ticket.model.js:90-105 | the client-side path returns each month of a fetched record once, in order of first appearance, with its month's sum (the Visits handler, lines 184-199, is the same with `performanceTime` and 1) |
| Pipeline.GroupFrom | models/ticket.model.js:72 | from a starting month on, one group per month that occurs, carrying that month's `$sum`, in ascending month order |
| Pipeline.GroupStage | models/ticket.model.js:72 | `$group` yields exactly one group per month that occurs, carrying that month's `$sum`; absent months get no group |
| Pipeline.NameStage | models/ticket.model.js:73-87 | each group becomes a summary named after its month through the table, with `_id` dropped and the total kept |
| Pipeline.AggregationPath | models/ticket.model.js:69-88 | the pipeline returns, for each month that occurs among the matched records, that month's name with its `$sum`, and no other entry (the Visits pipeline, lines 163-182, is the same with `performanceTime` and 1) |
| Analytics.SumByNameIsSumByNumber | models/ticket.model.js:70-72 | summing by month name, as the fold does, equals summing by month number, as `$group` does |
| Analytics.KeyPresentIffMonthPresent | models/ticket.model.js:164-166 | a month's name is a fold key exactly when the month occurs among the records |
| Analytics.NamedGroupsDistinct | models/ticket.model.js:72-87 | the pipeline's output has one entry per month |
| Analytics.FoldEntryIsGroup | models/ticket.model.js:94-105 | every entry of the fold is also produced by the pipeline's group and name stages |
| Analytics.GroupIsFoldEntry | models/ticket.model.js:72-87 | every entry produced by the pipeline's group and name stages is also an entry of the fold |
| Analytics.StagesAgree | models/ticket.model.js:69-105 | on the same records, the group, sum and name stages and the fold give the same multiset of `(month, total)` entries |
| Analytics.PathsAgreeOffEnd | models/ticket.model.js:163-199 | if no record lies exactly on `endDate`, both execution paths give the same multiset of entries |
| Analytics.RecordAtEnd | models/ticket.model.js:69-105 | for one record on `endDate`, the fold reports its month and amount, and the pipeline reports nothing |
| Analytics.Respond | models/ticket.model.js:68-107 | whichever path the `method` query selects, no month is reported twice; with no record on `endDate`, the choice does not change the entries |
| Scenario.RevenueExample | models/ticket.model.js:90-105 | sales of 100 and 50 in January and 30 in February give `[January: 150, February: 30]` in that order |

## Left out

- MongoDB execution (`model.find`, `model.aggregate`) is foreign datastore code. The model gives the meaning of the query and the pipeline as pure functions over a sequence of records. The sequence order stands for the store's natural order.
- `$group` output order is left open by the store. `GroupStage` lists groups by ascending month number. Every statement that compares the two paths uses multisets, so nothing depends on this choice.
- moment's date parsing, `format('MMMM')` and time zones are not modelled. moment formats in local time, while `$month` works in UTC. Both become the one parameter `monthOf`. moment's English month names are taken to be the table's entries.
- `ticketPrice` is a JavaScript floating-point number. It is modelled as an integer, so floating-point summation order plays no part.
- Joi request validation (`endDate >= startDate`, ISO parsing) is framework code. No member requires `start <= end`. When `start > end`, both queries return nothing and both paths return an empty list.
- A failed store query makes the handler log the error and return a generic 500 through Boom. This is I/O and framework plumbing. The model has no store failure.
- Hapi route registration, swagger metadata and logging are framework plumbing.
- The mongoose schema and its `createdAt` default are configuration. The default is computed once at module load. `performanceTitle` and `customerName` are carried in the record but never read.
- `api.js` is left out: server bootstrap, plugin registration, and a basic-auth check that compares the header with a fixed string.
- The fold path's `if (data[key])` is a truthiness test on an object. Once a key is set, its object is always truthy, so the test is modelled as key presence.
- Respond: states distinct months in both modes, and equality with the fold off the end of the range. It does not restate the per-entry totals of each mode, because those are given by `FoldHandler` and `StagesAgree`.
