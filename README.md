# Job-offers aggregator: a verified model of the normalization and sync pipeline

This project models the core of a job-offers aggregator service. The service
periodically fetches job feeds from two providers, each with its own JSON shape. It
normalizes every job into one Unified Job record, upserts the records into a
`job_offers` table keyed by `(externalId, provider)`, and serves the table through a
filtered, paged query with pagination links. The model covers the following modules:

- **Text, Payloads, Jobs, OrderedMaps, Wrappers.** JavaScript string and value semantics
  (ASCII `toLowerCase`, `includes`, `trim`, `split`, `join`, `String(n)`, truthiness, `||`
  fallbacks, `${undefined}`), the raw provider payloads, the Unified Job record, and a
  `Map` that remembers insertion order.
- **SalaryPatterns, BaseTransformer.** The shared normalizers: employment type,
  experience level from years or a label, seniority from a title, string lists, and the
  three-pattern salary-range parser. The regular expressions are modelled exactly, as
  leftmost-match searches.
- **Provider1, Provider2.** Each provider's rules for turning a fetched body into records.
- **Transformers.** The dispatcher class with its closed two-provider registry.
- **HttpRetry.** The counted retry loop with linear back-off.
- **Batches, Sorting, Repository.** The table (a class holding a map):
  - the batched upsert, in batches of 100 with an `ON CONFLICT` update of the listed columns;
  - the deactivation of stale offers;
  - the filtered query, newest first, with offset and limit.
- **JobOffers.** The service that stamps jobs with the sync time, saves them, and shapes rows
  into response records.
- **Steps, Logging, JobSync.** The sync orchestrator:
  - the provider map;
  - one provider's fetch, check, transform and save;
  - the sync of all providers with failure isolation;
  - the cron and start-up entry points.
- **Pagination.** `paginateResource`: page arithmetic and the page links.

Things outside the model become inputs:

- The HTTP responses are a function from attempt number to outcome.
- The database's verdict on each upsert statement is a function from statement number to an
  affected-row count or an error.
- The clock is a `now` parameter.
- Date parsing is a `DateParser` function.
- Sleeps and Nest logger calls are returned as traces (`sleeps`, `warnings`, `LogEntry` lists)
  rather than performed.

Where the documented design and the code disagree, the model follows the code:

- Experience 5 years gives "Mid Level", not "Senior".
- A string experience label that is not recognised always gets a level from title
  inference, so it never gives "Not Specified".
- The upsert always reports `updated = 0` and counts every affected row as `saved`.

Where the unit tests and the code disagree, the model follows the code:

- When the salary text does not match, the currency is "USD", not the null that
  src/transformers/tests/provider1.transformer.spec.ts:106 expects.
- Page links always carry `limit`, where src/job-offers/tests/job-offers.controller.spec.ts:65,
  87 and 113-114 expect links without it.

## Model

| member | source | states |
|---|---|---|
| Text.ToLower | src/transformers/base-job.transformer.ts:15 | lower-casing keeps the length and maps every character by the ASCII lower-case rule |
| Text.ToLowerIdempotent | src/transformers/base-job.transformer.ts:43 | lower-casing a lower-cased string changes nothing |
| Text.Trim | src/transformers/base-job.transformer.ts:67 | the result has no white space at either end, and is a slice of the input with only white space cut off around it |
| Text.Split | src/transformers/base-job.transformer.ts:67 | splitting on a character gives at least one piece, no piece holds the separator, and joining the pieces with it rebuilds the input |
| Text.SplitJoin | src/transformers/base-job.transformer.ts:67 | splitting the join of separator-free pieces gives the pieces back |
| Text.Contains | src/transformers/base-job.transformer.ts:44 | `s.includes(sub)`: sub occurs at some position of s |
| Text.Join | src/transformers/provider1.transformer.ts:54 | `parts.join(sep)`: the parts with sep between consecutive ones |
| Text.NatToString | src/scheduler/job-sync.service.ts:78 | `String(n)` is a non-empty digit string without leading zeros (a single "0" only for 0) that reads back as n |
| Text.TrimOfTrimmed | src/transformers/base-job.transformer.ts:67 | trimming a string without white space at either end changes nothing |
| Text.IndexOf | src/utils/pagination.utils.ts:31 | the position of the first occurrence of the character, or the length when it does not occur |
| Text.IntToString | src/transformers/provider2.transformer.ts:69 | `String(i)` is the digits of a non-negative i, or "-" and the digits of -i, the digits without leading zeros |
| Payloads.OrElse | src/transformers/provider1.transformer.ts:28 | `o \|\| fallback` gives the value when it is a non-empty string, the fallback otherwise |
| Payloads.Truthy | src/transformers/provider1.transformer.ts:28 | JavaScript truthiness of an optional string: present and not empty |
| Payloads.Render | src/transformers/provider1.transformer.ts:48 | a template literal renders a present value as itself and an absent one as "undefined" |
| OrderedMaps.Set | src/transformers/transformer.service.ts:23-24 | `map.set` binds the key, leaves every other key's binding, and appends a new key to the key order (keeping the order for an existing key) |
| OrderedMaps.Empty | src/transformers/transformer.service.ts:15 | the new map has no keys and no bindings |
| Wrappers.MapResult | src/transformers/provider1.transformer.ts:18 | mapping a throwing function succeeds exactly when every element succeeds, then with one result per element in order, and otherwise fails with the first element's error |
| BaseTransformer.NormalizeEmploymentType | src/transformers/base-job.transformer.ts:2-16 | a recognised spelling in any case gives its canonical name; other non-empty text is kept; empty text gives "Not Specified"; the result is never empty |
| BaseTransformer.CanonicalEmploymentTypesFixed | src/transformers/base-job.transformer.ts:3-15 | every canonical name, and "Not Specified", normalizes to itself |
| BaseTransformer.KeptWhenCanonical | src/transformers/base-job.transformer.ts:15 | a name whose lower-cased form is a recognised spelling of that very name normalizes to itself |
| BaseTransformer.FullAndPartTimeKept | src/transformers/base-job.transformer.ts:4-9 | "Full Time", "Part Time", "Contract" and "Temporary" normalize to themselves |
| BaseTransformer.OtherTypesKept | src/transformers/base-job.transformer.ts:10-13 | "Internship", "Remote", "On-site" and "Hybrid" normalize to themselves |
| BaseTransformer.NormalizeEmploymentTypeIdempotent | src/transformers/base-job.transformer.ts:3-15 | normalizing an employment type twice gives what normalizing it once gives |
| BaseTransformer.YearsLevel | src/transformers/base-job.transformer.ts:20-26 | each level in both directions: 0 is Entry Level, at most 2 (negative included) Junior, 3-5 Mid Level, 6-8 Senior, more than 8 Principal |
| BaseTransformer.YearsLevelMonotone | src/transformers/base-job.transformer.ts:20-25 | for non-negative years, more years never give a lower level |
| BaseTransformer.NormalizeExperienceLevel | src/transformers/base-job.transformer.ts:18-40 | years go through the numeric mapping; a recognised label in any case gives its canonical level; any other label gives the title-inferred level; the result is a known level and never "Not Specified" |
| BaseTransformer.InferExperienceFromTitle | src/transformers/base-job.transformer.ts:42-50 | the level of the first marker row found in the lower-cased title, Mid Level when none is; always a known level |
| BaseTransformer.TitleMarkerRows | src/transformers/base-job.transformer.ts:44-49 | the marker table means the same as the chain of `includes` tests: senior/sr., then junior/jr., lead, principal/staff, manager, else Mid Level |
| BaseTransformer.FirstMarkerDecides | src/transformers/base-job.transformer.ts:44-48 | when row i's marker occurs and no earlier row's does, row i's level is the result |
| BaseTransformer.NoMarkerMidLevel | src/transformers/base-job.transformer.ts:49 | a title with no marker of any row is Mid Level |
| BaseTransformer.ParseDate | src/transformers/base-job.transformer.ts:52-53 | absent or empty text has no date; other text is what the date parser makes of it |
| BaseTransformer.NonEmpty | src/transformers/base-job.transformer.ts:65 | `filter(Boolean)` keeps exactly the non-empty strings, no more of them than there were |
| BaseTransformer.NonEmptyAppend | src/transformers/base-job.transformer.ts:65 | filtering a concatenation is concatenating the filtered parts (the filter keeps order) |
| BaseTransformer.NonEmptyKeeps | src/transformers/base-job.transformer.ts:65 | a list without empty strings passes the filter whole |
| BaseTransformer.TrimAll | src/transformers/base-job.transformer.ts:67 | `map(item => item.trim())` trims each piece in place |
| BaseTransformer.ParseArray | src/transformers/base-job.transformer.ts:62-68 | absent input gives []; a list gives its non-empty entries in order; text gives its trimmed comma-separated pieces that are not empty, in order; no result entry is empty |
| BaseTransformer.TrimAllKeeps | src/transformers/base-job.transformer.ts:67 | trimming entries without white space at either end changes none of them |
| BaseTransformer.ParseArrayOfJoin | src/transformers/base-job.transformer.ts:62-68 | trimmed non-empty entries without commas come back unchanged, from the list and from their comma-joined text |
| BaseTransformer.JoinNonEmptyHead | src/transformers/provider1.transformer.ts:47-54 | filtering and joining parts after a non-empty lead gives the lead followed by each non-empty part after a separator |
| BaseTransformer.JoinFour | src/transformers/provider1.transformer.ts:47-54 | filtering and joining four parts after a non-empty first gives the first followed by each non-empty later part after the separator |
| SalaryPatterns.MatchAt | src/transformers/base-job.transformer.ts:77-79 | a match at a fixed start captures exactly the groups the parser reads (2, or 4 for the grouped pattern), each a non-empty digit string |
| SalaryPatterns.StepGroups | src/transformers/base-job.transformer.ts:77-79 | each pattern element captures its number of groups (1 for `(\d+)`, 2 for `(\d+),?(\d+)`), each a non-empty digit string |
| SalaryPatterns.RunGroups | src/transformers/base-job.transformer.ts:77-79 | a matched run of pattern elements captures the sum of their groups, each a non-empty digit string |
| SalaryPatterns.GroupsOfTokens | src/transformers/base-job.transformer.ts:77-79 | each pattern, element by element, captures the number of groups the parser reads |
| SalaryPatterns.Search | src/transformers/base-job.transformer.ts:83 | `text.match(re)` reports well-formed groups whenever it matches |
| SalaryPatterns.SearchIsLeftmost | src/transformers/base-job.transformer.ts:83 | a reported match is the one at the leftmost start that matches; there is no match exactly when no start matches |
| SalaryPatterns.NoKNoMatch | src/transformers/base-job.transformer.ts:77-79 | neither `k` pattern matches a text without `k` or `K` |
| SalaryPatterns.NoDollarNoMatch | src/transformers/base-job.transformer.ts:77-78 | neither dollar pattern matches a text without `$` |
| SalaryPatterns.NoDigitNoMatch | src/transformers/base-job.transformer.ts:77-79 | no pattern matches a text without a digit |
| SalaryPatterns.DollarKAtStart | src/transformers/base-job.transformer.ts:77 | `$<a>k - $<b>k` at the start of a text matches with groups a and b |
| SalaryPatterns.PlainKAtStart | src/transformers/base-job.transformer.ts:79 | `<a>k - <b>k` at the start of a text matches with groups a and b |
| SalaryPatterns.GroupedAtStart | src/transformers/base-job.transformer.ts:78 | `$<a>,<b> - $<c>,<d>` matches with the four groups a, b, c, d |
| BaseTransformer.ReadGroups | src/transformers/base-job.transformer.ts:85-101 | a `k` match gives a thousand times each number; a grouped match gives each bound as its two groups' digits read together; the currency is USD |
| BaseTransformer.SalaryOf | src/transformers/base-job.transformer.ts:82-105 | the currency is always USD; both bounds are present or both absent, and absent exactly when no pattern matches |
| BaseTransformer.SalaryFromText | src/transformers/base-job.transformer.ts:70-106 | the same three facts for the parser's pattern list |
| BaseTransformer.FirstPatternDecides | src/transformers/base-job.transformer.ts:82-84 | the first pattern in order that matches decides the range |
| BaseTransformer.ParseSalaryRange | src/transformers/base-job.transformer.ts:82-105 | the loop over the patterns, with its early return, gives the range the patterns define in order |
| BaseTransformer.SalaryWithoutDigits | src/transformers/base-job.transformer.ts:105 | a text without a digit (the empty text in particular) gives no bounds and USD |
| BaseTransformer.MatchAtStartDecides | src/transformers/base-job.transformer.ts:83-84 | a match at the start, of a pattern no earlier pattern matches, decides the range |
| BaseTransformer.SalaryOfDollarK | src/transformers/base-job.transformer.ts:86-90 | `$<a>k - $<b>k…` gives min a*1000 and max b*1000 in USD |
| BaseTransformer.SalaryOfPlainK | src/transformers/base-job.transformer.ts:95-100 | `<a>k - <b>k…` with no `$` gives min a*1000 and max b*1000 in USD |
| BaseTransformer.PlainKDecides | src/transformers/base-job.transformer.ts:95-100 | without `$`, a plain-k match at the start is read as thousands |
| BaseTransformer.GroupedDecides | src/transformers/base-job.transformer.ts:91-94 | without `k`, a grouped match at the start is read with its commas dropped |
| BaseTransformer.SalaryOfGrouped | src/transformers/base-job.transformer.ts:91-94 | `$<a>,<b> - $<c>,<d>` gives min ab and max cd (comma dropped, no scaling) in USD |
| BaseTransformer.SalaryExampleK | src/transformers/base-job.transformer.ts:75-77 | "$62k - $102k" gives 62000 to 102000 USD |
| Provider1.Description | src/transformers/provider1.transformer.ts:46-55 | "<title> position at <company>", then " in the X industry", " located in L" and " (T)" each only when present, then "." |
| Provider1.SpacedParts | src/transformers/provider1.transformer.ts:49-51 | each optional description part is preceded by one space when present and contributes nothing when absent |
| Provider1.TransformJob | src/transformers/provider1.transformer.ts:21-44 | a job fails exactly when it has no title, with the error `toLowerCase` raises |
| Provider1.TransformJobFields | src/transformers/provider1.transformer.ts:21-44 | every field of the record comes from its source: the fallbacks, the employment type from `details.type` or '', the level from the title, the salary from the salary text or '', the constants; the record is normalized |
| Provider1.TransformAll | src/transformers/provider1.transformer.ts:18 | `jobs.map` succeeds exactly when every job has a title, then with one record per job in order |
| Provider1.Transform | src/transformers/provider1.transformer.ts:12-19 | absent or non-array `jobs` gives no records; an array gives the mapped records |
| Provider1.TransformNormalized | src/transformers/provider1.transformer.ts:24-43 | every record of a successful transform is normalized and tagged provider1 |
| Provider1.MissingDetailsDefaults | src/transformers/provider1.transformer.ts:22-31 | a job without details has no salary bounds, "Not Specified" type and "Unknown Location" |
| Provider2.NonZero | src/transformers/provider2.transformer.ts:38-39 | `x \|\| null` keeps a non-zero bound and turns an absent or zero one into none |
| Provider2.FormatLocation | src/transformers/provider2.transformer.ts:51-58 | no location gives "Unknown Location"; otherwise the non-empty city and state joined by ", ", with " (Remote)" exactly when remote |
| Provider2.EmploymentTypeOf | src/transformers/provider2.transformer.ts:60-63 | "Remote" exactly when the location is remote, "On-site" otherwise |
| Provider2.EmploymentTypeOfCanonical | src/transformers/provider2.transformer.ts:60-63 | both employment types are canonical names the shared normalizer keeps |
| Provider2.RequirementJoined | src/transformers/provider2.transformer.ts:66-72 | the experience clause follows the lead part after ", " |
| Provider2.Description | src/transformers/provider2.transformer.ts:65-73 | "<position> at <company>", then ", requiring N years of experience" only for a non-zero experience, then "." |
| Provider2.TransformJob | src/transformers/provider2.transformer.ts:28-49 | the record is normalized |
| Provider2.TransformJobFields | src/transformers/provider2.transformer.ts:28-49 | every field of the record comes from its source: the id, the fallbacks, the level from the years (none as 0, so Entry Level), zero salary bounds as none and every non-zero bound kept with its value, USD when no currency |
| Provider2.Records | src/transformers/provider2.transformer.ts:12-26 | no records unless the status is "success" and a jobs list is present; otherwise one record per entry, in enumeration order |
| Provider2.Transform | src/transformers/provider2.transformer.ts:18-25 | the push loop over the entries builds exactly those records |
| Provider2.RecordsNormalized | src/transformers/provider2.transformer.ts:28-49 | every record is normalized and tagged provider2 |
| Provider2.RecordsDistinctIds | src/transformers/provider2.transformer.ts:21-30 | the records of one response have pairwise distinct external ids |
| Transformers.IsProviderSupported | src/transformers/transformer.service.ts:45-47 | supported exactly for "provider1" and "provider2" |
| Transformers.Provider1Output | src/transformers/transformer.service.ts:34-41 | provider 1's records when its rules succeed, none when they throw |
| Transformers.Dispatched | src/transformers/transformer.service.ts:27-42 | fails exactly for an unsupported provider, with "No transformer found for provider: <p>" |
| Transformers.TransformerService.constructor | src/transformers/transformer.service.ts:17-25 | the registry holds provider 1's rules, then provider 2's, and nothing else |
| Transformers.TransformerService.RegisteredIffSupported | src/transformers/transformer.service.ts:22-24 | a provider has registered rules exactly when it is supported |
| Transformers.TransformerService.GetSupportedProviders | src/transformers/transformer.service.ts:50-52 | the registry's keys are provider1 then provider2, exactly the supported providers |
| Transformers.TransformerService.Transform | src/transformers/transformer.service.ts:27-42 | unknown provider: the no-transformer error; provider 1: its records, or none when its rules throw; provider 2: its records |
| HttpRetry.RetryOutcome | src/utils/http-retry.service.ts:15-28 | success exactly when some allowed attempt succeeds, then with the first successful attempt, all before it having failed; otherwise every attempt failed and the last one's error is raised (undefined when no attempt is allowed) |
| HttpRetry.Retry | src/utils/http-retry.service.ts:8-29 | `requestWithRetry` as a definition (see RetryOutcome, RetryTraces) |
| HttpRetry.RetryFrom | src/utils/http-retry.service.ts:15-28 | the attempts from one number on, with their warnings and pauses |
| HttpRetry.WarningText | src/utils/http-retry.service.ts:20 | the warning line: attempt number, maximum and the error message |
| HttpRetry.WarningsFrom | src/utils/http-retry.service.ts:15-20 | warning i is about attempt i+1, an allowed attempt that failed, with its number, the maximum and its message |
| HttpRetry.EndFrom | src/utils/http-retry.service.ts:15-28 | a success comes right after the warned attempts; a failure warned about every attempt and carries the last one's error |
| HttpRetry.SleepsFrom | src/utils/http-retry.service.ts:22-24 | pause i lasts delay*(i+1), and there is one pause per warning except after a failed last attempt |
| HttpRetry.RetryTraces | src/utils/http-retry.service.ts:20-24 | one warning per failed attempt; a pause of delay*k after failed attempt k except after the last |
| HttpRetry.TwoFailuresThenSuccess | src/utils/http-retry.service.ts:15-28 | two failures then a success with three attempts allowed: the third value, two warnings, pauses of delay and 2*delay |
| HttpRetry.RequestWithRetry | src/utils/http-retry.service.ts:8-29 | the attempt loop returns the result and the traces the retry definition gives |
| Batches.BatchAt | src/job-offers/repositories/job-offer.repository.ts:37 | a batch holds at most 100 items, and at least one when it starts inside the list |
| Batches.BatchesPartition | src/job-offers/repositories/job-offer.repository.ts:32-37 | the batches are non-empty, concatenate to the items in order, all but the last hold exactly 100, and there are ceil(n/100) of them |
| Batches.RunBatchesLoop | src/job-offers/repositories/job-offer.repository.ts:36-71 | the `i += batchSize` loop, stopping at the first refused batch, computes the batch run |
| Batches.RunBatches | src/job-offers/repositories/job-offer.repository.ts:36-71 | the batch loop as a definition (see RunBatchesApplies) |
| Batches.RunBatchesApplies | src/job-offers/repositories/job-offer.repository.ts:33-71 | the state is the applied batches' items applied at once; success exactly when every batch was applied, with the sum of the reported counts; otherwise the run stopped at the start of the batch refused with that error |
| Repository.UpdatedRowColumns | src/job-offers/repositories/job-offer.repository.ts:44-62 | a conflicting row takes exactly the listed columns from the job and keeps its id, key, creation and update times, posting date and deadline |
| Repository.EmptyTable | src/database/entities/job-offer.entity.ts:12-18 | the empty table has no keys and meets the table invariant |
| Repository.UpsertRow | src/job-offers/repositories/job-offer.repository.ts:40-63 | the job's key is added; an existing row is updated in place, otherwise a row is inserted with the next id; no other row changes |
| Repository.NewRow | src/job-offers/repositories/job-offer.repository.ts:40-43 | an inserted row: every column from the job, the next id, creation and update times from the database clock |
| Repository.UpdatedRow | src/job-offers/repositories/job-offer.repository.ts:44-62 | the `ON CONFLICT DO UPDATE` of the listed columns (see UpdatedRowColumns) |
| Repository.UpsertBatch | src/job-offers/repositories/job-offer.repository.ts:40-63 | one `INSERT … ON CONFLICT` statement: its jobs upserted in order (see UpsertBatchKeys, UpsertBatchSettles) |
| Repository.UpsertRowValid | src/database/entities/job-offer.entity.ts:12-18 | an upserted row keeps every row under its own key with a distinct id |
| Repository.UpsertBatchKeys | src/job-offers/repositories/job-offer.repository.ts:40-63 | a statement keeps the table's invariant and adds exactly its jobs' keys |
| Repository.UpsertBatchAppend | src/job-offers/repositories/job-offer.repository.ts:36-63 | upserting two runs of jobs in turn is upserting them together |
| Repository.UpsertBatchSettles | src/job-offers/repositories/job-offer.repository.ts:44-61 | after a statement with distinct keys, every one of its jobs is stored with its listed columns |
| Repository.SettledBatchUnchanged | src/job-offers/repositories/job-offer.repository.ts:44-61 | a statement whose jobs are all stored already leaves the table as it is |
| Repository.UpsertIdempotent | src/job-offers/repositories/job-offer.repository.ts:44-61 | running the same statement again, even later, leaves the table the first run left |
| Repository.BulkUpsertApplies | src/job-offers/repositories/job-offer.repository.ts:28-74 | no jobs change nothing; otherwise the table is the applied statements' jobs upserted in order, gaining exactly their keys and keeping its invariant; success exactly when every statement was applied, with the summed count as saved and 0 updated; otherwise a statement with duplicate keys or one the database refused stopped it |
| Repository.BulkUpsertValid | src/job-offers/repositories/job-offer.repository.ts:28-74 | a whole upsert keeps the table's invariant |
| Repository.BulkUpsertResult | src/job-offers/repositories/job-offer.repository.ts:28-74 | the whole `bulkUpsert`: no statement for no jobs, otherwise the batches until one is refused, with `updated` 0 (see BulkUpsertApplies) |
| Repository.JobOfferRepository.BulkUpsert | src/job-offers/repositories/job-offer.repository.ts:28-74 | the method leaves the table and returns the result the upsert definition gives, keeping the invariant |
| Repository.JobOfferRepository.constructor | src/job-offers/repositories/job-offer.repository.ts:9-11 | a repository starts over an empty table that meets the invariant |
| Repository.StaleKeys | src/job-offers/repositories/job-offer.repository.ts:109-111 | exactly the rows of the provider, synced before the cutoff and active |
| Repository.Deactivated | src/job-offers/repositories/job-offer.repository.ts:105-112 | the same keys, order and id counter; each stale row is switched off with its update time set to the database clock, and every other row is kept |
| Repository.DeactivatedValid | src/job-offers/repositories/job-offer.repository.ts:105-112 | deactivation keeps the table's invariant |
| Repository.DeactivatedChangesStale | src/job-offers/repositories/job-offer.repository.ts:106-111 | a row changes exactly when it is stale, and then only in its active flag, now false, and its update time, now the database clock |
| Repository.DeactivatedIdempotent | src/job-offers/repositories/job-offer.repository.ts:106-111 | afterwards no row is stale, and a second run, at any later time, changes nothing |
| Repository.DeactivatedKeepsOthers | src/job-offers/repositories/job-offer.repository.ts:109-111 | rows of other providers, rows synced at or after the cutoff and inactive rows are untouched |
| Repository.JobOfferRepository.DeactivateStaleJobs | src/job-offers/repositories/job-offer.repository.ts:105-115 | switches off exactly the stale rows, refreshing their update time, and returns how many there were |
| Repository.Matching | src/job-offers/repositories/job-offer.repository.ts:117-155 | the selected rows are exactly the active rows matching every given title, location, company and skills filter |
| Repository.TextMatches | src/job-offers/repositories/job-offer.repository.ts:118-134 | a text filter: passes when absent or empty, otherwise the lower-cased column contains the lower-cased filter |
| Repository.SkillsMatch | src/job-offers/repositories/job-offer.repository.ts:148-152 | the skills filter: passes when absent or empty, otherwise the column is present and shares a skill with it |
| Repository.Matches | src/job-offers/repositories/job-offer.repository.ts:117-155 | `applyFilters`: active and every given filter passes |
| Repository.QueryPage | src/job-offers/repositories/job-offer.repository.ts:13-26 | `findWithFilters`: the sorted matching rows' window and the count (see QueryPageWindow, QueryPageRows) |
| Repository.TextMatchesIgnoresCase | src/job-offers/repositories/job-offer.repository.ts:118-134 | the text filters give the same answer whatever the letter case of the filter or the column |
| Repository.Offset | src/job-offers/repositories/job-offer.repository.ts:20 | page 1 skips nothing |
| Repository.OffsetTiles | src/job-offers/repositories/job-offer.repository.ts:20 | page p+1 starts right after the page-size rows of page p, so pages tile the sorted rows |
| Repository.QueryPageWindow | src/job-offers/repositories/job-offer.repository.ts:13-26 | the total counts every matching row; the page holds exactly min(page size, rows left after the skipped ones) rows (20 by default), none when the skip is past the end, newest first, and row k of it is sorted matching row (page-1)*pageSize+k |
| Repository.QueryPageRows | src/job-offers/repositories/job-offer.repository.ts:117-155 | every row of the page is a stored, active row matching every given filter |
| Repository.JobOfferRepository.FindWithFilters | src/job-offers/repositories/job-offer.repository.ts:13-26 | the query over the current table |
| Repository.JobOfferRepository.FindOne | src/job-offers/job-offers.service.ts:25 | a row is found exactly when one has the id, and it is a stored row with that id |
| Repository.RowWithId | src/job-offers/job-offers.service.ts:25 | a row is found exactly when some row has the id, and it is one of the rows, with that id |
| Sorting.SortDescending | src/job-offers/repositories/job-offer.repository.ts:22 | `ORDER BY created_at DESC` gives a permutation of the rows, largest key first |
| Sorting.Insert | src/job-offers/repositories/job-offer.repository.ts:22 | inserting into a descending list keeps it descending and adds exactly the one row |
| Sorting.SortKeeps | src/job-offers/repositories/job-offer.repository.ts:22 | ordering keeps the number of rows and which rows there are |
| Sorting.Window | src/job-offers/repositories/job-offer.repository.ts:20-21 | `OFFSET skip LIMIT take` gives exactly take rows, the rows remaining after skip when fewer, none past the end, and row k of it is row skip+k of the input |
| Sorting.WindowOfDescending | src/job-offers/repositories/job-offer.repository.ts:20-22 | a page of a descending list is descending and is its consecutive rows from skip on, exactly as many as `OFFSET`/`LIMIT` keep |
| JobOffers.ToResponseDto | src/job-offers/job-offers.service.ts:34-56 | null skills and benefits become [] and present ones are kept; every other response field (id, external id, provider, title, description, company, location, levels, salary bounds, currency, application URL, active flag, creation, update and sync times) is the row's |
| JobOffers.JobOffersService.constructor | src/job-offers/job-offers.service.ts:12-16 | the service works over the repository it is given, which meets the table invariant |
| JobOffers.Stamp | src/job-offers/job-offers.service.ts:66-71 | each job unchanged, in order, stamped with the sync time |
| JobOffers.SaveJobsOutcome | src/job-offers/job-offers.service.ts:58-98 | no jobs change nothing and count nothing; a successful save upserts every stamped job and reports the summed count, 0 updated and 0 errors; a failed one reports 0, 0 and every job as an error while the statements before the refused one stay applied; the invariant and the stored keys are kept |
| JobOffers.SaveJobsResult | src/job-offers/job-offers.service.ts:58-98 | `saveJobs`: the upsert of the stamped jobs and its counts, or every job an error (see SaveJobsOutcome) |
| JobOffers.SaveLog | src/job-offers/job-offers.service.ts:79-95 | the completion line with the saved and updated counts, or the bulk-upsert error line |
| JobOffers.JobOffersService.SaveJobs | src/job-offers/job-offers.service.ts:58-98 | the stamping loop and the upsert leave the table and report the counts and the log line the save definition gives |
| JobOffers.Responses | src/job-offers/job-offers.service.ts:20 | one response record per row, in order |
| JobOffers.FindAllPage | src/job-offers/job-offers.service.ts:18-22 | the records of a page are one per row of the page, of active rows with the same ids, newest first |
| JobOffers.JobOffersService.FindAll | src/job-offers/job-offers.service.ts:18-22 | the page's rows as response records, and the repository's total unchanged |
| JobOffers.JobOffersService.FindOne | src/job-offers/job-offers.service.ts:24-32 | fails exactly when no row has the id, with "Job offer with ID <id> not found"; otherwise the response record of a row with that id |
| JobOffers.JobOffersService.DeactivateStaleJobs | src/job-offers/job-offers.service.ts:121-123 | the repository's deactivation for the same provider and cutoff, and its count |
| Steps.RunAllSnoc | src/scheduler/job-sync.service.ts:42-46 | the step for one more entry starts from the state the entries before it left |
| Steps.RunAllEach | src/scheduler/job-sync.service.ts:42-53 | there is one result per entry, and result i is entry i's step from the state the earlier entries left |
| Steps.RunAll | src/scheduler/job-sync.service.ts:42-46 | each entry's step in order, threading the table (see RunAllEach) |
| JobSync.WarnEntries | src/utils/http-retry.service.ts:20 | one logged warning per retry warning, in order, with its text |
| JobSync.Entries | src/scheduler/job-sync.service.ts:43 | the provider map's entries in key order, each with its URL |
| JobSync.ProviderSyncOutcome | src/scheduler/job-sync.service.ts:56-84 | the first line announces the sync; all three fetches failing fails with the last error and an empty response with "No data received from <p>", both leaving the table; success exactly when a body arrived, and then the dispatcher's records are saved and the save's counts returned; a failure is logged last under the provider's name |
| JobSync.ProviderSync | src/scheduler/job-sync.service.ts:56-84 | `syncProvider`: retry the fetch, reject no data, dispatch, save, log (see ProviderSyncOutcome) |
| JobSync.AllSyncEach | src/scheduler/job-sync.service.ts:41-46 | every provider is synchronised once, in map order, from the table the earlier ones left, whatever they gave |
| JobSync.AllSync | src/scheduler/job-sync.service.ts:41-46 | the providers' syncs one after the other from the table the previous left (see AllSyncEach, FailedProviderIsolated) |
| JobSync.FailedProviderIsolated | src/scheduler/job-sync.service.ts:42-46 | a failing provider leaves the table untouched for the providers after it |
| JobSync.FailureLogsExact | src/scheduler/job-sync.service.ts:48-53 | the join logs an error line exactly for each failed provider, under its own name and with its error |
| JobSync.FailureLogs | src/scheduler/job-sync.service.ts:48-53 | the error lines after the join, one per failed provider (see FailureLogsExact) |
| JobSync.LogFailures | src/scheduler/job-sync.service.ts:48-53 | the `forEach` over the results emits exactly those lines, in provider order |
| JobSync.JobSyncService.constructor | src/scheduler/job-sync.service.ts:22-25 | the provider map holds exactly provider1 and provider2, in that order, with their configured URLs |
| JobSync.JobSyncService.SyncProvider | src/scheduler/job-sync.service.ts:56-84 | fetch with three attempts and 1000 ms delay, reject a missing body, transform, save: the table, result and log the provider-sync definition gives |
| JobSync.JobSyncService.SyncAllProviders | src/scheduler/job-sync.service.ts:41-54 | two results, one per provider in map order; the table and log of the sequential run, then one error line per failed provider |
| JobSync.JobSyncService.HandleCron | src/scheduler/job-sync.service.ts:35-39 | one announcement line, then exactly one sync of all providers |
| JobSync.JobSyncService.OnModuleInit | src/scheduler/job-sync.service.ts:28-33 | with the scheduler enabled, one announcement and one sync of all providers; otherwise nothing changes and nothing is logged |
| Pagination.OrDefault | src/utils/pagination.utils.ts:23-24 | `x \|\| d` gives a present non-zero value, and the default for an absent or zero one |
| Pagination.CeilDivBounds | src/utils/pagination.utils.ts:27 | `Math.ceil(a / b)` is the least whole number at or above a/b, for either sign of b |
| Pagination.BaseUrl | src/utils/pagination.utils.ts:31 | `url.split('?')[0]` is the prefix of the URL before its first '?' |
| Pagination.SetParamValues | src/utils/pagination.utils.ts:37-38 | `params.set` leaves one parameter of that name, with the value, and every other parameter's values in order |
| Pagination.PageUrlParams | src/utils/pagination.utils.ts:34-40 | every link is the base URL and '?', with one page parameter naming its page, one limit parameter with the limit in use, and the request's other parameters |
| Pagination.BeforeLastPage | src/utils/pagination.utils.ts:27-28 | for a positive limit, a page is before the last exactly when items lie beyond it |
| Pagination.PaginateFields | src/utils/pagination.utils.ts:42-46 | status "success", the results unchanged, the total as count, and the request URL as the current page |
| Pagination.PaginateLast | src/utils/pagination.utils.ts:27 | the last page is the total over the limit rounded up, and the last link goes to it |
| Pagination.PaginateNext | src/utils/pagination.utils.ts:28 | there is no next page exactly when page+1 is past the last; for a positive limit, there is one exactly when items lie beyond this page; it links to page+1 |
| Pagination.PaginatePrev | src/utils/pagination.utils.ts:29 | there is no previous page exactly when page-1 is below 1; otherwise it links to page-1 |
| Pagination.PaginateEmpty | src/utils/pagination.utils.ts:27-28 | with no results the last page is 0, and a non-negative page has no next page |
| Pagination.PaginateResource | src/utils/pagination.utils.ts:18-51 | the paginated result: status, results, count and current URL from the request, next and previous links only within 1..last page, and the last link; its properties are the Paginate lemmas |
| Pagination.PageUrl | src/utils/pagination.utils.ts:34-40 | `buildPageUrl`: the base URL, "?", and the request's parameters with page and limit set (see PageUrlParams) |
| Pagination.CeilDiv | src/utils/pagination.utils.ts:27 | `Math.ceil(a / b)` written with Euclidean division (its bounds are CeilDivBounds) |
| Pagination.ListLinksAsWritten | src/job-offers/job-offers.controller.ts:30-36 | as written, the links are built with the request's own `limit`, not the page size: every link carries that limit (20 when the request sends none), the last page is the total over it rounded up, and for a positive limit there is a next page exactly when rows lie beyond page × limit |
| Pagination.ListLinks | src/job-offers/job-offers.controller.ts:30-36 | as intended, the links use the page size: for a positive page size there is a next page exactly when rows lie beyond this page |
| Pagination.ListLinksIgnorePageSize | src/utils/pagination.utils.ts:24-28 | page 1 of 10 rows with page size 5 and no `limit` in the request: as written, no next page and last page 1; as intended, a next page and last page 2 |
| Pagination.ListLinksClientLimit | src/utils/pagination.utils.ts:24-28 | the same request with `limit=5` also sent: the client's limit reaches the helper, so the links as written give a next page and last page 2, the same links as intended |

## Findings

| source | as written | input that shows it | evidently intended | confidence | as-written member | corrected member |
|---|---|---|---|---|---|---|
| src/job-offers/job-offers.controller.ts:35 | the list endpoint passes its `JobOfferQueryDto`, which has `pageSize` but no `limit`, and `paginateResource` reads `query.limit` (src/utils/pagination.utils.ts:24), so when the request sends no `limit` the links assume 20 rows a page | `page=1&pageSize=5` with 10 matching rows: the repository returns rows 1-5, but the links give last page 1 and no next page | the links use the page size the repository used, giving last page 2 and a next page (as job-offers.controller.spec.ts:108-116 expects) | medium; not executed | Pagination.ListLinksAsWritten (shown by Pagination.ListLinksIgnorePageSize) | Pagination.ListLinks |

## Left out

- `parseDate`: date parsing is the `DateParser` parameter. Only the guard for absent or
  empty text is modelled, because JavaScript's `Date` parsing cannot be reproduced
  faithfully.
- HTTP, timers and clock: `httpService.get` is the `Network` parameter, and `sleep` becomes
  the returned list of pause lengths. `new Date()` is the `now` parameter, used for both the
  sync stamp and the database clock.
- The logger: log calls are returned as `LogEntry` values, and the error object attached to
  an error line is represented by its message.
- `Promise.allSettled`: the providers run one after the other, in map order. Interleaving
  of concurrent syncs, and of overlapping cron runs, is not modelled.
- `JobSync.JobSyncService.SyncAllProviders`: the per-provider results are returned (the
  source only logs them). The table contents and the lines handed to the Nest logger are
  those of the source.
- The two `console.error` lines are not modelled, since they bypass the logger:
  - "Error transforming data for provider p:" when provider 1's rules throw
    (src/transformers/transformer.service.ts:39);
  - "Error in bulk upsert batch:" when a statement is refused
    (src/job-offers/repositories/job-offer.repository.ts:68).
  `Transformers.Dispatched` and `Batches.RunBatches` return no console lines.
- TypeORM and SQL:
  - The statement mechanics are not modelled.
  - The per-statement affected count (`result.raw`/`identifiers`) is an input.
  - The generated uuid `id` is a counter-assigned number.
  - The update builder's refresh of the `@UpdateDateColumn` `updatedAt` is modelled for
    stale deactivation (`Repository.Deactivated` sets it to the database clock).
  - The raw provider record has no column, so it is not stored.
- Repository.UpdatedRow: does not model the ORM's refresh of `updatedAt` on conflict.
  Whether TypeORM adds `updated_at = DEFAULT` to `orUpdate` depends on its version, which is
  not part of this model. A conflicting row keeps its `updatedAt`, so
  `Repository.SettledBatchUnchanged` and `Repository.UpsertIdempotent` hold up to that column.
- Provider1.TransformJob: assumes `jobId` is present. A provider 1 entry without `jobId`
  (src/transformers/provider1.transformer.ts:25) would give a record whose `externalId` is
  `undefined`; the payload type cannot represent that entry.
- Provider2.TransformJob: assumes `position` is present. A provider 2 entry without
  `position` (src/transformers/provider2.transformer.ts:32 and :67) would give an `undefined`
  title and a description starting "undefined at"; the payload type cannot represent that
  entry.
- A statement with two jobs sharing a natural key is refused with Postgres's duplicate-key
  error. It is modelled as that statement's failure rather than excluded by a precondition.
- `getLastSyncInfo`, `getProviderStats` and the service's `getLastSyncInfo`: SQL aggregates
  over the table, not modelled.
- The repository's salary filters: their placeholders (`:min_salary`, `:max_salary`) do not
  match the bound parameter names, so their behaviour depends on the driver. The query model
  has no salary filter.
- The `LIKE` filters: the filter text is a literal substring. `%` and `_` inside a filter
  are not read as wildcards. The skills filter is modelled as array overlap.
- Letter case: lower-casing covers ASCII letters only, with no Unicode case mapping.
- The sort order among rows with equal `createdAt` is fixed by the ordering function, while
  the database leaves it unspecified.
- Lookup tables: keys inherited from JavaScript's `Object.prototype` (`"constructor"`,
  `"toString"`) are not modelled. Such input is treated as an unrecognised label.
- Numbers: salaries and years of experience are integers. Decimal columns, fractional
  years, NaN and `parseInt` of non-numeric text are not modelled.
- Page, page size and limit are modelled as integers. The query DTO checks `page` and
  `pageSize` only with `@IsNumber()` and `@Min`/`@Max`
  (src/job-offers/dto/job-offer-query.dto.ts:8-19), so it accepts fractions such as 1.5. The
  repository would then skip a fractional number of rows times the page size, while
  `paginateResource` truncates with `parseInt`; neither is modelled. `limit` has no DTO
  field and is not validated at all. The transforming validation pipe
  (test/job-offers.e2e-spec.ts:83) sets no whitelist, so a client-sent `limit` stays on the
  query; the model carries it as `ListQuery.limit`, already read as a number.
- Page links: query parameters are joined as `name=value` without percent-encoding.
- Payload values come from JSON. `remote` absent is `false`. Values of unexpected JSON type
  (a number for a title, a non-list for skills) are not modelled. The one shape check the
  code makes, `Array.isArray(response.jobs)`, is modelled.
- `JobOffers.JobOffersService.SaveJobs`: spreading a job into the stamped object cannot throw
  for a record, so the preparation error counter stays 0. The model keeps the counter and
  never increments it.
- `Repository.JobOfferRepository.BulkUpsert`: the batch loop is the generic
  `Batches.RunBatchesLoop`, which the method calls, so the batching is proved once for any
  state and item type.
- The controller, DTO validation (kept only as the `ValidQuery` precondition of page at
  least 1 and page size 1 to 100), NestJS modules and configuration files are not modelled,
  except for the list endpoint handing its query to `paginateResource` (see Findings).
  The migration is not modelled either: it disagrees with the entity on the id type and the
  unique key, and the entity is followed.
- Unit tests that contradict the code are not encoded:
  - experience 1 giving "Entry Level" and 5 giving "Senior";
  - a null currency for text without a range;
  - "Intern" for a title without a marker;
  - page links without `limit`;
  - page size 5 with 10 rows giving a last page of 2 and a next page (see Findings).
- Stale deactivation inside a sync run: the orchestrator never calls it, so it is modelled
  only as a stand-alone repository and service operation.

