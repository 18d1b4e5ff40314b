# Cliniko referrals dashboard: a verified model of its data core

This project models in Dafny the two pieces of the dashboard that talk to the
Cliniko API and turn its records into the "top referring doctors" report:

- **`clinikoFetch`** (`src/lib/cliniko.ts`), the retrying fetch client. A 429
  reply waits Retry-After seconds (2 by default) without spending an attempt.
  Any other 4xx reply throws at once, marked `noRetry`. A 5xx reply, a
  transport failure, a blank 2xx body and a body that is not JSON each spend
  one attempt. After the k-th such failure the client sleeps 2^k × 500 ms and
  tries again; on the last attempt it rethrows. A 2xx reply with a JSON body
  is returned. The network is a finite script of exchanges, and the sleeps are
  recorded as a list of durations.
- **The referrals route** (`GET` and `formatDoctorName` in
  `src/app/api/cliniko/referrals/route.ts`). One run does the following:
  - collects patients page by page, waiting 50 ms before each request and
    stopping at the first page without a `next` link or after 200 pages;
  - resolves each patient's referring-doctor link through a per-run contact
    cache with three counters (success, failure, cache hit);
  - tallies patients per formatted doctor name and ranks the top twenty by
    count;
  - streams `fetching`, `processing` and then exactly one `complete` or
    `error` event, and closes the stream.

The project has seven modules:

- `Wrappers` (`wrappers.dfy`): `Option` and `Result`.
- `ClinikoFetch` (`cliniko_fetch.dfy`): the client. It is a loop, so it is
  modelled as the method `Fetch`. `Fetch` is proved equal to the recursive
  specification function `Run`, and the retry properties are lemmas about
  `Run`.
- `DoctorNames` (`doctor_names.dfy`): `formatDoctorName` and JavaScript
  truthiness of optional fields.
- `Tally` (`tally.dfy`): the tally `referringDoctorCounts`, its key insertion
  order and `patientsWithKnownDoctor`. Each is a function of the sequence of
  names the patients resolved to.
- `Ranking` (`ranking.dfy`): the entries of the tally, sorted by descending
  value (a stable insertion sort, as JavaScript's sort is stable) and cut to
  twenty.
- `Progress` (`progress.dfy`): the event datatype, the report cadence of
  `processing` events, and what a well-formed stream is.
- `Referrals` (`referrals.dfy`): the per-request state as the class
  `ReferralRun`. Its fields are the cache, the three counters, a trace of the
  delays and requests made, the events sent and a closed flag. The loops of
  `GET` are methods of this class, proved against the specification functions
  of the module.

The upstream API, as seen through `clinikoFetch`, is a parameter of the route:

- `pages` maps a page number to the result of fetching that page;
- `contacts` maps a contact URL, and the number of contact requests made
  before this one, to the result of fetching that contact. A URL that failed
  once may therefore succeed later, as the route allows.

The tally loop is specified by the function `LookupAll`: patient by patient,
the name each resolves to, the cache and counters after them, and the delays
and contact requests made. The methods of the loop are proved equal to it,
and the `complete` report of a run is exactly its result from an empty cache.
Lemmas about `LookupAll` then show that every reported name is the formatted
name of a successful reply for the patient's own link, that patients sharing a
link share a name, and that a counted failure is a failed request for one of
the links.

## Model

| member | source | states |
|---|---|---|
| ClinikoFetch.Classify | src/lib/cliniko.ts:21-55 | A 429 reply is rate limited; any other 4xx reply is fatal and carries `noRetry`; only a 2xx reply with a non-blank body that parses is returned; a counted failure is never a noRetry error nor "Max retries exceeded" |
| ClinikoFetch.TrimStart | src/lib/cliniko.ts:46 | `trimStart` drops exactly the leading whitespace: the result is a suffix of the text, everything dropped is whitespace, and the result does not start with whitespace |
| ClinikoFetch.TrimEnd | src/lib/cliniko.ts:46 | `trimEnd` drops exactly the trailing whitespace: the result is a prefix of the text, everything dropped is whitespace, and the result does not end with whitespace |
| ClinikoFetch.IsBlank | src/lib/cliniko.ts:46 | `!text \|\| text.trim() === ""` holds exactly when every character of the body is JavaScript whitespace |
| ClinikoFetch.Excerpt | src/lib/cliniko.ts:35 | The error excerpt is the whole body when it has at most 200 characters, and exactly its first 200 characters otherwise |
| ClinikoFetch.RetryAfterMs | src/lib/cliniko.ts:22-24 | A 429 wait is a whole number of seconds: the Retry-After value when present, and 2000 ms when absent |
| ClinikoFetch.BackoffMs | src/lib/cliniko.ts:64 | Every backoff is a positive multiple of 500 ms |
| ClinikoFetch.Message | src/lib/cliniko.ts:35-47 | The message of an API error is "Cliniko API error ", the status in decimal, ": " and the body excerpt |
| ClinikoFetch.Decimal | src/lib/cliniko.ts:35 | The status in a template string: a string of decimal digits that denotes the number, with no leading zero |
| ClinikoFetch.NotFoundMessage | src/lib/cliniko.ts:34-36 | A 404 reply with body "Not found" throws "Cliniko API error 404: Not found" |
| ClinikoFetch.Run | src/lib/cliniko.ts:10-68 | A call never consumes more exchanges than the network gives |
| ClinikoFetch.Fetch | src/lib/cliniko.ts:7-71 | The imperative retry loop returns exactly the outcome, the number of exchanges consumed and the sleeps of the recursive definition `Run`, started with no attempt spent |
| ClinikoFetch.RateLimitSpendsNoAttempt | src/lib/cliniko.ts:21-26 | A 429 reply sleeps Retry-After × 1000 ms (2000 ms without the header) and continues with the same attempt count |
| ClinikoFetch.ClientErrorIsFinal | src/lib/cliniko.ts:34-55 | A 4xx reply other than 429 throws at once: one exchange, no sleep, a noRetry error with the status and the excerpt |
| ClinikoFetch.CountedFailureSpendsOneAttempt | src/lib/cliniko.ts:57-66 | A counted failure spends exactly one attempt: it is rethrown on the last attempt, and otherwise followed by a sleep of 2^attempt × 500 ms |
| ClinikoFetch.CountedFailureCases | src/lib/cliniko.ts:29-50 | The exchanges that spend an attempt are exactly a transport failure, a non-2xx reply that is neither 429 nor 4xx, a blank 2xx body, and a 2xx body that is not JSON |
| ClinikoFetch.JsonBodyIsReturned | src/lib/cliniko.ts:45-50 | A 2xx reply with a JSON body returns the parsed value after one exchange and no sleep |
| ClinikoFetch.BackoffDoubles | src/lib/cliniko.ts:64 | Each backoff is twice the previous one; the first two are 1000 ms and 2000 ms |
| ClinikoFetch.MaxRetriesOnlyWithoutBudget | src/lib/cliniko.ts:10-70 | A call throws "Max retries exceeded" exactly when it starts with no attempt left (retries ≤ 0) |
| ClinikoFetch.FailureBudget | src/lib/cliniko.ts:8-62 | A call never spends more attempts than its budget; every exchange before the deciding one was a 429 or a counted failure; a returned value is the parse of the last exchange; a thrown error is the last exchange's error, and a rethrown counted failure used up the budget exactly |
| ClinikoFetch.SleepSchedule | src/lib/cliniko.ts:20-66 | Every consumed exchange except the deciding one is followed by exactly one sleep: the Retry-After wait after a 429, and 2^k × 500 ms after the k-th counted failure |
| ClinikoFetch.ConsecutiveFailures | src/lib/cliniko.ts:57-66 | When all remaining attempts fail in a row, the call throws the last failure's error after the backoffs for every earlier one |
| ClinikoFetch.ThreeServerErrorsExhaustDefaultBudget | src/lib/cliniko.ts:7-66 | With the default budget of 3, three 5xx replies in a row throw the third reply's API error (not "Max retries exceeded") after sleeps of 1000 ms and 2000 ms |
| ClinikoFetch.DecisionIgnoresRest | src/lib/cliniko.ts:50-61 | A decided call makes no further request: any later replies leave its outcome, count and sleeps unchanged |
| DoctorNames.KeepTruthy | src/app/api/cliniko/referrals/route.ts:39 | `.filter(Boolean)` keeps only non-empty strings, and keeps none exactly when no field is truthy |
| DoctorNames.Join | src/app/api/cliniko/referrals/route.ts:39 | A joined list starts with its first part |
| DoctorNames.PersonalName | src/app/api/cliniko/referrals/route.ts:38-40 | The personal name is non-empty when a first or last name is truthy |
| DoctorNames.NameParts | src/app/api/cliniko/referrals/route.ts:36-49 | `nameParts` has at most two parts, none of them empty, and is empty exactly when first, last and company names are all falsy |
| DoctorNames.FormatDoctorName | src/app/api/cliniko/referrals/route.ts:35-53 | The result is null exactly when first, last and company names are all falsy, and a name that is given is never empty |
| DoctorNames.PersonalNameForms | src/app/api/cliniko/referrals/route.ts:38-40 | The personal name is "first last", or whichever of the two is truthy |
| DoctorNames.PersonalNameOnly | src/app/api/cliniko/referrals/route.ts:38-52 | Without a company, the name is the personal name alone |
| DoctorNames.PersonalNameWithCompany | src/app/api/cliniko/referrals/route.ts:43-45 | With a personal name and a company, the name is "personal (company)" |
| DoctorNames.CompanyOnly | src/app/api/cliniko/referrals/route.ts:46-48 | With only a company, the name is the company name alone |
| DoctorNames.PersonalNameExample | src/app/api/cliniko/referrals/route.ts:38-52 | A contact with only a first and a last name gets "first last" |
| DoctorNames.CompanyOnlyExample | src/app/api/cliniko/referrals/route.ts:46-52 | A contact with only a company name gets that name |
| DoctorNames.NameWithCompanyExample | src/app/api/cliniko/referrals/route.ts:38-52 | A contact with first, last and company names gets "first last (company)" |
| DoctorNames.NoNameExample | src/app/api/cliniko/referrals/route.ts:51-52 | A contact whose fields are all missing or empty gets null |
| Tally.KnownCount | src/app/api/cliniko/referrals/route.ts:143 | Never more patients with a known doctor than patients |
| Tally.TallyStep | src/app/api/cliniko/referrals/route.ts:139-145 | One more patient: a resolved name adds one to its count (starting from 0) and joins the key order at the end when new; the known count rises by one exactly when a name was resolved |
| Tally.HistogramCounts | src/app/api/cliniko/referrals/route.ts:142 | About `Histogram`, the tally the loop builds: a name is a key exactly when it occurs, and its count is its number of occurrences |
| Tally.KeyOrderMatchesKeys | src/app/api/cliniko/referrals/route.ts:163 | About `KeyOrder`, the insertion order of the tally's keys: it lists every key of the tally once, and nothing else |
| Tally.TallySumIsKnownCount | src/app/api/cliniko/referrals/route.ts:141-143 | The tally counts add up to `patientsWithKnownDoctor` |
| Ranking.Entries | src/app/api/cliniko/referrals/route.ts:163-164 | One `{ name, value }` entry per key, in key order, carrying that key's count |
| Ranking.Insert | src/app/api/cliniko/referrals/route.ts:165 | Inserting adds exactly the new entry (as a multiset) |
| Ranking.InsertKeepsOrder | src/app/api/cliniko/referrals/route.ts:165 | Inserting into a list sorted by descending value keeps it sorted |
| Ranking.InsertKeepsNamesDistinct | src/app/api/cliniko/referrals/route.ts:165 | Inserting a new name keeps the names distinct |
| Ranking.SortByValue | src/app/api/cliniko/referrals/route.ts:165 | The sort is a permutation of its input |
| Ranking.SortByValueSorts | src/app/api/cliniko/referrals/route.ts:165 | The sort orders by descending value and keeps names distinct |
| Ranking.SumOfSort | src/app/api/cliniko/referrals/route.ts:165 | Sorting neither adds nor loses any count |
| Ranking.TopDoctors | src/app/api/cliniko/referrals/route.ts:162-166 | The ranking is the first min(20, n) entries of the sorted list |
| Ranking.SumOfEntries | src/app/api/cliniko/referrals/route.ts:163-164 | The entries' values add up to the tally's total |
| Ranking.EntriesOfTally | src/app/api/cliniko/referrals/route.ts:163-164 | Entries carry their key's count and have distinct names |
| Ranking.RankedEntriesComeFromTally | src/app/api/cliniko/referrals/route.ts:162-166 | Every ranked entry carries its name's tally count |
| Ranking.RankingKeepsLargest | src/app/api/cliniko/referrals/route.ts:165-166 | No entry left out of the top 20 has a larger count than an entry kept |
| Ranking.RankingSumBound | src/app/api/cliniko/referrals/route.ts:162-166 | The ranked counts add up to no more than the whole tally |
| Ranking.RankingOfTally | src/app/api/cliniko/referrals/route.ts:162-166 | The top-20 list of a tally is sorted by descending count, has min(20, number of names) entries with distinct names, carries each name's count, keeps the largest counts, and sums to no more than the tally |
| Progress.ReportsAt | src/app/api/cliniko/referrals/route.ts:151 | Progress is reported at the last patient, and before it exactly at the multiples of 50 |
| Progress.ReportPointsShape | src/app/api/cliniko/referrals/route.ts:148-159 | `processing` is reported at exactly the counts that are multiples of 50 or the last one, in increasing order: total / 50 reports, plus one for a last partial batch |
| Progress.CompletedStreamIsWellFormed | src/app/api/cliniko/referrals/route.ts:98-179 | Opening `fetching`, non-decreasing `fetching` reports, `processing` at 0, increasing `processing` reports and `complete` form a well-formed stream |
| Progress.FailedStreamIsWellFormed | src/app/api/cliniko/referrals/route.ts:98-187 | Opening `fetching`, non-decreasing `fetching` reports and one `error` form a well-formed stream |
| Referrals.DoctorLink | src/app/api/cliniko/referrals/route.ts:133-136 | A doctor link that is used is never empty |
| Referrals.HasNextMeans | src/app/api/cliniko/referrals/route.ts:113 | `HasNext` holds exactly when `data.links?.next` is truthy, so a page with more has a non-empty `next` link |
| Referrals.NextLinkedMeans | src/app/api/cliniko/referrals/route.ts:113 | Page k is requested only when every earlier page succeeded with a `next` link |
| Referrals.PacedMeans | src/app/api/cliniko/referrals/route.ts:101 | A paced trace alternates one 50 ms delay and one request |
| Referrals.PagesRequestedPaced | src/app/api/cliniko/referrals/route.ts:100-116 | Requesting pages keeps every request preceded by one delay, and adds no contact request |
| Referrals.PagesRequestedOrder | src/app/api/cliniko/referrals/route.ts:100-116 | Pages are requested in order 1, 2, …, each right after its own delay |
| Referrals.FetchingReportsShape | src/app/api/cliniko/referrals/route.ts:103-111 | One `fetching` report per page, each with the patients collected so far, never decreasing, the last one equal to all collected |
| Referrals.ProcessingReportsShape | src/app/api/cliniko/referrals/route.ts:148-159 | The `processing` reports come at exactly the report points, each with the number of lookups made up to that patient |
| Referrals.ResolutionSurvivesGrowth | src/app/api/cliniko/referrals/route.ts:65-68 | A growing cache keeps every name resolved through it |
| Referrals.LookupAllStep | src/app/api/cliniko/referrals/route.ts:132-146 | The tally loop over one more patient is the loop so far followed by that patient's lookup |
| Referrals.LookupPatientFacts | src/app/api/cliniko/referrals/route.ts:64-81 | One patient's lookup keeps every cached entry and caches at most its own link. A linked patient moves exactly one counter, and each success is a new cache entry. A name needs a link and is that of the contact cached for it afterwards. With no failure the link is cached |
| Referrals.LookupCounters | src/app/api/cliniko/referrals/route.ts:132-146 | Over the loop, the cache keeps its entries and gains only the patients' links. Hits, successes and failures together grow by one per linked patient, and successes grow by the number of new cache entries. No more names are known than lookups were made |
| Referrals.LookupNames | src/app/api/cliniko/referrals/route.ts:132-146 | Every name of the loop is that of the final cache's contact for the patient's link. With no failed fetch, every linked patient's link is in the final cache and the name is its contact's |
| Referrals.LookupPatientRequests | src/app/api/cliniko/referrals/route.ts:64-81 | One patient makes no request, or one 50 ms delay and one contact request for its own link, counted as a success or a failure |
| Referrals.LookupRequests | src/app/api/cliniko/referrals/route.ts:132-146 | The loop makes one delay and one contact request per counted success or failure, each for one of the patients' links, and no page request |
| Referrals.LookupSourced | src/app/api/cliniko/referrals/route.ts:64-81 | A cache filled from successful replies of `contacts` stays so over the loop. A counted failure is a failed request for one of the patients' links |
| Referrals.SourcedFromCache | src/app/api/cliniko/referrals/route.ts:64-81 | A name resolved through a cache of successful replies is the formatted name of a reply `contacts` gave for the patient's link |
| Referrals.LinksCached | src/app/api/cliniko/referrals/route.ts:64-75 | When every linked patient's link is in the cache, all the patients' links are cache keys |
| Referrals.CompleteReportCounts | src/app/api/cliniko/referrals/route.ts:162-179 | The `complete` event reports the patient count and counters. The counters add up to one per lookup, with no more successes than distinct doctor links and no more known patients than lookups. When no contact fetch failed, there is one success per distinct doctor link and a cache hit for every other lookup |
| Referrals.CompleteReportSources | src/app/api/cliniko/referrals/route.ts:132-179 | Every tallied name is the formatted name of a contact `contacts` returned for that patient's link, and with no failed fetch so is every linked patient's. Two patients with the same link never get two different names. A counted failure is a failed request for one of the links |
| Referrals.ReferredBy | src/app/api/cliniko/referrals/route.ts:133-136 | A patient whose doctor links to the given URL |
| Referrals.LookupAfterFailureExample | src/app/api/cliniko/referrals/route.ts:64-81 | A failure does not stop later lookups: when request 0 fails and later ones return `c`, patients linked to `u` and `v` resolve to no name and `c`'s name, with `v` cached, one success, one failure, and two delays with requests for `u` then `v` |
| Referrals.SharedLinkExample | src/app/api/cliniko/referrals/route.ts:64-68 | Once a link is cached, a later patient with the same link gets the cached contact's name and counts a hit, with no second request, whatever a new request would have returned |
| Referrals.EndsAtUnique | src/app/api/cliniko/referrals/route.ts:100-116 | The pages decide the page where collection stops |
| Referrals.FailedRunOutcome | src/app/api/cliniko/referrals/route.ts:181-189 | Pages 1..k requested, page k failed and its error sent after the `fetching` reports: that is a run's outcome, with no patients and zero counters |
| Referrals.CompletedRunOutcome | src/app/api/cliniko/referrals/route.ts:118-179 | Pages 1..k requested, then the tally loop's contact requests, and the `fetching`, `processing` and `complete` events: that is a run's outcome |
| Referrals.RunOutcomeUnique | src/app/api/cliniko/referrals/route.ts:91-189 | The pages and contacts decide the whole run: the last page read, the patients, the names, the counters, the events and the requests |
| Referrals.PagesThenContacts | src/app/api/cliniko/referrals/route.ts:100-146 | Pages 1..k followed by delays and contact requests begin with exactly the page requests, and hold only delays and contact requests after them |
| Referrals.RunRequests | src/app/api/cliniko/referrals/route.ts:91-146 | A run requests pages 1..k first, in order, each after a delay, and after them only delays and contact requests for the patients' links |
| Referrals.RunOutcomeIsWellFormed | src/app/api/cliniko/referrals/route.ts:91-189 | The stream of every run, failed or complete, is well formed |
| Referrals.ReferralRun.constructor | src/app/api/cliniko/referrals/route.ts:57-62 | Each request starts with an empty cache and all counters at zero |
| Referrals.ReferralRun.SendProgress | src/app/api/cliniko/referrals/route.ts:87-89 | An event is appended to the stream |
| Referrals.ReferralRun.Close | src/app/api/cliniko/referrals/route.ts:189 | The stream is closed |
| Referrals.ReferralRun.RequestPage | src/app/api/cliniko/referrals/route.ts:101-102 | A page request waits 50 ms first and gives the page's result |
| Referrals.ReferralRun.CollectPage | src/app/api/cliniko/referrals/route.ts:101-111 | One round of pagination: a successful page appends its patients and its `fetching` report; a failed one adds no event |
| Referrals.ReferralRun.FetchContact | src/app/api/cliniko/referrals/route.ts:64-81 | A cached URL is a hit, with no request and no change; otherwise one paced request, which on success caches the contact and counts a success, and on failure caches nothing, counts a failure and returns null; cached entries never change |
| Referrals.ReferralRun.NameOfDoctor | src/app/api/cliniko/referrals/route.ts:138-141 | A cached URL gives the name of its cached contact, counts one cache hit, makes no request and changes nothing else. An uncached URL makes one delay and one request, and is decided by its reply: a success gives that contact's formatted name, caches the contact and counts a success; a failure gives no name, caches nothing and counts a failure |
| Referrals.ReferralRun.ReportProcessed | src/app/api/cliniko/referrals/route.ts:151-159 | A `processing` event is sent exactly at a multiple of 50 or at the last patient |
| Referrals.ReferralRun.CollectPatients | src/app/api/cliniko/referrals/route.ts:93-116 | Pages 1..k are requested in order, each after one delay, with 1 ≤ k ≤ 200; every page before k succeeded with a `next` link; either page k failed and its error is returned, or page k has no `next` link (or k = 200) and the patients of pages 1..k, in order, are returned; one `fetching` report per successful page |
| Referrals.ReferralRun.ResolvePatient | src/app/api/cliniko/referrals/route.ts:133-141 | The name, the new cache and counters, and the requests made are exactly `LookupPatient` of the patient from the old cache and counters |
| Referrals.CountName | src/app/api/cliniko/referrals/route.ts:140-145 | After one more patient, the tally, the key order and the known count equal their definitions over the names resolved so far |
| Referrals.ReferralRun.TallyPatient | src/app/api/cliniko/referrals/route.ts:132-146 | One more patient keeps the names, the cache and counters and the requests equal to `LookupAll` over the patients so far, and the tally, the key order, the known count and the lookups equal to their definitions over those names |
| Referrals.ReferralRun.TallyDoctors | src/app/api/cliniko/referrals/route.ts:119-160 | The names, the final cache and counters, and the requests made are exactly `LookupAll` of the patients from the old cache and counters. The tally, the key order and the known count are those of the names, and lookups equal the linked patients. The events are `processing` at 0, then the reports every 50 patients and at the last |
| Referrals.ReferralRun.Report | src/app/api/cliniko/referrals/route.ts:119-179 | From an empty cache, the tally phase makes the tally loop's requests and ends with the `complete` report of `LookupAll`'s names and counters |
| Referrals.ReferralRun.Announce | src/app/api/cliniko/referrals/route.ts:162-179 | The one event sent is the `complete` report of the tally and the counters of `LookupAll` from an empty cache |
| Referrals.ReferralRun.Fail | src/app/api/cliniko/referrals/route.ts:181-189 | A failed page sends one `error` event with its message and closes the stream; the run meets `RunOutcome` with no contact request |
| Referrals.ReferralRun.Finish | src/app/api/cliniko/referrals/route.ts:118-189 | Collected patients are tallied and reported, and the stream is closed; the run, requests included, meets `RunOutcome` for the pages and contacts given |
| Referrals.ReferralRun.Conclude | src/app/api/cliniko/referrals/route.ts:91-189 | After collection, the run ends with an `error` event when the last page failed and with the `complete` report otherwise, closed either way; the run, requests included, meets `RunOutcome` for the pages and contacts given |
| Referrals.ReferralRun.Stream | src/app/api/cliniko/referrals/route.ts:86-190 | From an empty state, a whole run meets `RunOutcome` for its pages and contacts. Either page k failed: the `fetching` reports, its error, and only page requests. Or the patients of pages 1..k are tallied by `LookupAll` from an empty cache: its requests follow the page requests, and the events are the `fetching`, `processing` and `complete` reports of its names and counters |
| Referrals.Get | src/app/api/cliniko/referrals/route.ts:55-200 | Every request gets fresh state. Its stream ends closed and is the `RunOutcome` of the pages and contacts given, which decide it entirely (`RunOutcomeUnique`). The stream is well formed: it opens with `fetching`, its phases never go back, and exactly one `complete` or `error` ends it. The run requests pages 1..k first, in order, and then only delays and contact requests for the patients' links |

## Left out

- The HTTP layer is not modelled: the base URL, the headers, Basic authentication with base64 and the environment variables. The network is the script of exchanges given to `ClinikoFetch.Fetch`.
- Sleeping and the console are not modelled. The sleeps are recorded as durations, and the log lines are left out.
- The Retry-After value is taken as a number of seconds that is present or absent. `parseInt` returning NaN or a negative number is not modelled.
- `JSON.parse` is a parameter of `ClinikoFetch.Fetch`. So are its error message and what it accepts.
- `ClinikoFetch.Fetch`: when the script runs out while the call is still asking, the outcome is `Waiting`. The real client would keep waiting on the network.
- Referrals: the route's calls to `clinikoFetch` are given as their results (`PageSource`, `ContactSource`). The retries and sleeps inside each call are therefore not part of the route's trace.
- The regular expression that turns a contact URL into an endpoint is not modelled. Contacts are looked up by their full URL.
- The route's page cast is taken at its type. A page without a `patients` array would throw in the source; here that cannot happen.
- A contact that parses to JSON `null` is cached, counted as a success and gives no name (`if (contact)` skips it, and later lookups are cache hits). A contact with no name fields, `Contact(None, None, None)`, has the same effect in the model, so `null` itself is not a separate case.
- ClinikoFetch.Excerpt: a string here is a sequence of Unicode scalar values, while `substring(0, 200)` counts UTF-16 code units. A body with characters outside the Basic Multilingual Plane gets a longer excerpt here than in the source.
- Referrals: thrown values that are not `Error` instances cannot arise in the model, so the "Unknown error" message is left out.
- The SSE framing (`data: …\n\n`), `TextEncoder`, `ReadableStream` and a client that disconnects are not modelled. Events are kept as values in a sequence.
- The constant `message` texts of `fetching` and `processing` events are not modelled. Neither are the `success` flags of `complete` and `error`, which are fixed by the phase.
- `Object.entries` is taken to list keys in insertion order. JavaScript lists integer-like keys first; that order is left out.
- The tally is a plain map, not a JavaScript object with a prototype. In the source, a doctor named after an `Object.prototype` member behaves differently. For `constructor` or `toString`, `(counts[name] || 0) + 1` reads the inherited function and stores a string. For `__proto__`, the assignment stores nothing. For such names `Tally.TallySumIsKnownCount` and `Tally.HistogramCounts` do not hold of the source.
- Ranking.SortByValue: the order among equal counts follows a stable sort, but nothing is proved about it. The source only asks for descending counts, so no order among ties is promised.
- The dashboard page, the pie chart component and the test and debug routes are not part of this model.

## Behaviour of note

- A blank or non-JSON 2xx body spends an attempt and is retried (src/lib/cliniko.ts:46-47 and 57).
- After the last counted failure, the client rethrows that failure. "Max retries exceeded" needs a budget of 0 or less (`ClinikoFetch.MaxRetriesOnlyWithoutBudget`).
