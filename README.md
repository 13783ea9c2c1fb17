# Claude Code SDK collector, modelled in Dafny

This project models the collection core of `main.py`, the class
`ClaudeCodeSDKCollector`. Each run of the collector searches the web for
Claude Code SDK material and normalizes every candidate URL. It
deduplicates each URL against what is already in Redis, checks that it is
reachable, and stores it under four Redis keys. The run stops once five
new URLs are in, or after two passes over its eight queries.

The model keeps the shape of the source:

- `Collector.ClaudeCodeSDKCollector` is a class. It has the collector's
  fields (`collectedUrls`, `duplicatesFiltered`, `newUrlsAdded`, `errors`)
  and the Redis client it writes through. Its methods change these fields
  in place. Each method's contract ties the new state (the keyspace, the
  counters, the collected URLs and the exact entries appended to
  `errors`) to a pure specification.
- `KeyValue.Redis` is the client object. Its keyspace is a map from key to
  a typed value. A command on a key of the wrong type is refused, which is
  Redis's WRONGTYPE reply.
- The pure part of every operation is a function in its own module:
  - `Urls` for `normalize_url`.
  - `Fingerprints` for `get_url_hash`.
  - `Validation` for `validate_url`.
  - `Persistence` for the keyspace effect of `is_duplicate` and `store_url`.
  - `Search` for `search_web`.
  - `Runs` for the collection loop of `collect_from_sources`:
    - `Handle` is what becomes of one candidate. `Admit` is its part after
      the duplicate check.
    - `Scan` is the loop over one search's records.
    - `Attempts` is the loop over the attempts, each one a search and a
      `Scan` of its records.
    - `Rounds` lists the records each attempt searches. They depend only
      on the attempt's number: its query, clock reading, response and
      draws. They do not depend on what earlier attempts stored.

  The lemmas in these modules state what the source promises.

Everything the code obtains from outside is a parameter of the model:

- `parse` stands for `urlparse`. It returns `None` when `urlparse` raises.
- `sha256` stands for `hashlib.sha256(...).hexdigest()`. It returns 64 hex
  characters.
- The provider's response is a `Fetch`. It is a status with the decoded
  `uddg=` matches in order, or an exception.
- Each HEAD or GET probe is a `Probe`: a status, a timeout or another
  exception.
- The clock readings are parameters.
- `random.seed(t)` followed by `random.sample` is given as the seeded
  `Draws`: the `randbelow` results of the sample. The i-th draw is below
  15 - i. `Search.Picks` is the selection loop `random.sample` runs on a
  population this small: take the drawn entry, then move the last live
  entry into its place.
- A Redis transport failure is a `Fault`. `FailsAt(k)` means the k-th
  command of the call raises and has no effect; the commands before it
  stay done.

A `World` gives these per attempt and per candidate.

The model follows the code, also where it does something other than its
comments or its purpose suggest:

- The path loses every trailing `/`, because `rstrip('/')` removes them
  all. The comment at main.py:87 speaks of one trailing slash.
- Only one leading `www.` is removed. Normalization is meant to give one
  form per URL for duplicate detection (main.py:75), but it is not
  idempotent for hosts starting with `www.www.`.
  `Urls.NormalizeIdempotentIff` states exactly when it is idempotent, and
  `Urls.DoubleWwwNotIdempotent` gives the counterexample.
- The relevance keywords are searched for in the whole lower-cased URL,
  not only in its host.
- The first `max_results` matches are taken before filtering. The
  relevant hits can therefore be fewer than `max_results` even when more
  relevant matches exist.
- Validation is the lenient variant: a timeout or any other exception
  accepts the URL. The trusted-domain test is a substring test on the
  lower-cased host.

## Model

| member | source | states |
|---|---|---|
| Text.RStripSlash | main.py:88 | `rstrip('/')`: the result has no trailing slash, and the input is the result followed by nothing but slashes |
| Text.RStripSlashSameIff | main.py:88 | two paths strip to the same result exactly when one is the other padded with slashes |
| Text.ContainsIff | main.py:146 | Python's `in` on strings, as used by the trusted-domain and relevance tests, holds exactly when the pattern occurs at some position |
| Text.DecimalRoundTrip | main.py:286 | the decimal text of a number, as written into the curated titles, reads back as that number |
| Text.NatToStringInjective | main.py:286 | distinct numbers get distinct decimal texts |
| Urls.NormalizePartsShape | main.py:79-99 | the normalized components are https with no fragment, keep params and query, and have a lower-case host with at most one leading `www.` removed (removed exactly when present) and a path without trailing slashes that the original path pads |
| Urls.NormalizeEqualIff | main.py:74-102 | two parsed URLs normalize to the same components exactly when they differ only in scheme, host letter case, one leading `www.`, trailing slashes and fragment |
| Urls.NormalizeExample | main.py:74-102 | `http://WWW.X.org/a/#top` and `https://x.org/a` normalize to the same components |
| Urls.NormalizeIdempotentIff | main.py:79-88 | normalizing twice equals normalizing once exactly when the lower-cased host does not start with `www.www.` |
| Urls.DoubleWwwNotIdempotent | main.py:81-82 | host `www.www.x` becomes `www.x` after one pass and `x` after two |
| Urls.NormalizedIsHttps | main.py:85-100 | a URL that parses normalizes to a string starting with `https://` |
| Urls.NormalizedIdempotent | main.py:74-106 | the normalized string normalizes to itself when `urlparse` reads back what `urlunparse` wrote and the host does not start with `www.www.`; an unparsable input comes back unchanged both times |
| Fingerprints.Fingerprint | main.py:111 | the fingerprint is 16 hex characters and a prefix of the digest |
| Fingerprints.UrlHash | main.py:108-111 | the URL hash is 16 hex characters, a prefix of the digest of the normalized URL |
| Validation.Validate | main.py:130-169 | validation issues at most two HTTP requests |
| Validation.ValidateVerdict | main.py:130-169 | a URL is rejected exactly when it parses with an empty scheme or host, or when it is untrusted and the probing ends on a status of 400 or more; no request is made for unparsable, malformed or trusted URLs; GET is retried exactly when HEAD answers 405; a timeout or failure accepts |
| Validation.GithubShortCut | main.py:139-147 | a `github.com` URL is accepted with no request, whatever the network does |
| Validation.SubstringShortCut | main.py:146-147 | a host that merely contains a trusted name (`github.com.example.net`) is also accepted with no request |
| KeyValue.Db.SIsMember | main.py:122 | SISMEMBER answers membership in the set, an absent key reading as empty, and is refused exactly when the key holds another type |
| KeyValue.Db.SAdd | main.py:179 | SADD succeeds exactly when the key is absent or a set, and then adds the member; every other key keeps its value |
| KeyValue.Db.HSet | main.py:187 | HSET succeeds exactly when the key is absent or a hash, and then merges the fields over the old ones; every other key keeps its value |
| KeyValue.Db.ZAdd | main.py:191 | ZADD succeeds exactly when the key is absent or a sorted set, and then sets the member's score; every other key keeps its value |
| KeyValue.Db.Set | main.py:194 | SET always succeeds: the key then holds the string, whatever it held before, and every other key keeps its value |
| KeyValue.Redis.Exists | main.py:118 | the client's EXISTS reports whether the key is present |
| KeyValue.Redis.SIsMember | main.py:122 | the client's SISMEMBER reports the reply and whether it was refused |
| KeyValue.Redis.SAdd | main.py:179 | the client's keyspace becomes SADD's result, or is unchanged when SADD is refused |
| KeyValue.Redis.HSet | main.py:187 | the client's keyspace becomes HSET's result, or is unchanged when HSET is refused |
| KeyValue.Redis.ZAdd | main.py:191 | the client's keyspace becomes ZADD's result, or is unchanged when ZADD is refused |
| KeyValue.Redis.Set | main.py:194 | the client's keyspace becomes SET's result |
| Persistence.DuplicateCheck | main.py:113-128 | a reply of the duplicate check is true exactly when the lookup key exists or the normalized URL is in the set; there is no reply exactly when one of the two reads raises |
| Persistence.Stamp | main.py:182-185 | the stored metadata is the caller's with `url`, `collected_at` and `hash` set, and every other field kept |
| Persistence.KeysDistinct | main.py:117-194 | with a 16-character fingerprint, the four keys have distinct lengths and so are distinct |
| Persistence.PersistOkIff | main.py:171-201 | `store_url` succeeds exactly when no transport fault hits its four writes and none of its keys holds the wrong type |
| Persistence.PersistEffect | main.py:177-197 | after a successful store, the URL is in the set, the stamped metadata is merged into the hash, the timeline scores the fingerprint with the timestamp and the lookup key holds the URL; no other key changes, and the URL now reads as a duplicate |
| Persistence.PersistHealthy | main.py:177-194 | with well-typed keys and no fault, the four writes produce exactly the keyspace `AllWritten` describes |
| Persistence.AllWrittenFixpoint | main.py:177-194 | doing the four writes again with the same arguments leaves the keyspace unchanged |
| Persistence.AllWrittenKeepsOthers | main.py:177-194 | a store of one URL leaves every URL with another normalized form and another fingerprint exactly as known as before, and keeps the keys a store of it would write of the right types |
| Persistence.PersistIdempotent | main.py:171-201 | storing a URL again, with the same metadata and timestamp, right after a successful store succeeds and changes nothing |
| Persistence.PersistUrlBounds | main.py:177-194 | whatever fault strikes, a store only adds its own URL to the set and deletes no key |
| Persistence.PersistTimelineBounds | main.py:189-191 | whatever fault strikes, a store only adds its own fingerprint to the timeline and removes nothing from it |
| Persistence.StoreAgainKeepsCounts | main.py:171-201 | storing the same URL a second time, with any metadata, timestamp or fault, keeps the set size and the number of fingerprints on the timeline |
| Persistence.PersistMonotone | main.py:171-201 | no store makes a URL that read as a duplicate stop reading as one |
| Persistence.FailedStoreStillBlocks | main.py:171-201 | when the metadata, timeline or lookup write raises, the store reports failure, yet the URL already reads as a duplicate |
| Search.Window | main.py:222-230 | the filter sees only a 200 response's matches, and of those exactly the first `min(len(matches), max_results)`, in order; any other response or status gives no matches |
| Search.Hits | main.py:230-247 | the search path yields no more records than matches in its window |
| Search.HitsIff | main.py:230-247 | every search record is a relevant match of the window under the query's title, and every relevant match in the window becomes a record |
| Search.HitsAppend | main.py:230-247 | the filter keeps the order of the matches: the records of two stretches of matches, one after the other, are the records of the first followed by those of the second |
| Search.Pool | main.py:260-276 | the curated pool has fifteen entries |
| Search.PoolDistinct | main.py:260-276 | the fifteen curated URLs are pairwise distinct, whatever the timestamp |
| Search.Picks | main.py:281 | `random.sample`'s selection loop makes one pick per draw |
| Search.PicksDistinct | main.py:281 | picks drawn from a list without repeats are entries of that list and pairwise distinct |
| Search.Sample | main.py:279-281 | the sample has `min(max_results, 15)` entries |
| Search.FallbackUrlsDistinct | main.py:279-289 | the fallback records carry pool URLs, pairwise distinct |
| Search.CuratedTitlesDistinct | main.py:286 | curated records at different positions have different titles |
| Search.FallbackShape | main.py:255-289 | the fallback has `min(max_results, 15)` records, each a pool URL labelled as curated and numbered by position, with distinct URLs and titles |
| Search.SearchResultsShape | main.py:203-291 | search results number at most `max_results`; on the search path they are relevant matches of the window labelled `Web Search`; the fallback is used exactly when the search path found nothing |
| Runs.Metadata | main.py:337-342 | the metadata handed to `store_url` has exactly the four keys title, description, source and search query |
| Runs.Extend | main.py:320-355 | processing one more candidate moves exactly one tally and appends to the stored URLs only when it was stored |
| Runs.TallyPartition | main.py:325-355 | every discovered URL ends as exactly one of duplicate, rejected, stored or failed store |
| Runs.AllDuplicatesStoreNothing | main.py:328-331 | a run that sees only duplicates stores nothing |
| Runs.TallyAppend | main.py:309-370 | tallies and stored URLs of consecutive attempts add up |
| Runs.TallyPrefixMonotone | main.py:309-370 | tallies only grow along the run |
| Runs.BelowTargetThroughout | main.py:309-359 | the target had not been reached before any processed candidate |
| Runs.HandleErrorsOutcome | main.py:113-201 | the errors appended for one candidate hold a storage error exactly when it ends as a failed store, a duplicate-check error exactly when the duplicate check has no reply, a normalization error exactly when the URL does not parse, and never a web-search error |
| Runs.DuplicateCheckErrorsKinds | main.py:113-128 | the duplicate check appends a normalization error exactly when the URL does not parse, a duplicate-check error exactly when it has no reply, and nothing else |
| Runs.HandleOutcome | main.py:325-355 | a candidate is a duplicate exactly when the duplicate check replies true; otherwise it is rejected exactly when validation fails, and stored exactly when the four writes succeed; a duplicate or a rejection leaves Redis untouched; no URL stops reading as a duplicate |
| Runs.StoredThenDuplicate | main.py:325-355 | once a candidate is stored, the same URL met again in any record is filtered as a duplicate, as long as the duplicate check's reads go through |
| Runs.AskedInOrder | main.py:309-311 | the query of the k-th attempt (from 0) is the query at position k modulo the number of queries |
| Runs.Rounds | main.py:309-318 | entry k-1 of the records of the first n attempts is what attempt k's search returns, for each k up to n |
| Runs.AttemptsStay | main.py:309-359 | once the target is reached, no further attempt is made and nothing changes |
| Runs.AttemptsBalanced | main.py:309-370 | over the attempts made, the counters and the collected URLs match the tallies of the log, no candidate after the first target-reaching one is processed, and the count does not pass 5 when it started at or below it |
| Runs.AccountBalanced | main.py:320-355 | handling one more candidate below the target keeps the counters and the collected URLs in step with the log |
| Runs.ScanLast | main.py:320-355 | the loop over the first i records is the loop over the first i-1 followed by one turn for record i-1: nothing when the target is reached or the URL is empty, else that candidate handled and accounted |
| Runs.ScanFrom | main.py:320-355 | what one search's loop does to Redis and the counters does not depend on the candidates processed before; it only appends to their log |
| Runs.ScanBalanced | main.py:320-355 | the loop over one search's records keeps the counters and the collected URLs equal to the tallies of the processed candidates, processes at most one candidate per record, never has reached the target before a candidate, and does not carry the count past 5 |
| Runs.ScanStopped | main.py:345-359 | once the target is reached within a search, its remaining records change nothing |
| Runs.ScanCapped | main.py:345-359 | a search that starts at or below 5 new URLs ends at or below 5 |
| Runs.FirstSearchSuffices | main.py:309-359 | when the first search alone brings the count to the target, the run stops after one search with exactly 5 new URLs |
| Runs.HandleStoresUnseen | main.py:325-355 | a URL Redis has never seen, whose duplicate check and writes go through and which validation accepts, is stored |
| Runs.HandleKeepsUnseen | main.py:325-355 | storing such a URL leaves every other unseen URL with another fingerprint unseen |
| Runs.StoredFirstShape | main.py:345-351 | storing the first i records adds i to the count, nothing to the duplicates, and appends each of them in order to the log (as stored) and to the collected URLs |
| Runs.ScanStoresNext | main.py:320-355 | when the loop has stored every record before the current one and the current one is unseen and goes through, the loop stores it too |
| Runs.ScanKeepsUnseen | main.py:320-355 | in that case the turn for the current record leaves every unseen URL of another fingerprint unseen |
| Runs.ScanStoresUnseen | main.py:320-355 | a loop over records whose leading ones are unseen, of distinct fingerprints and go through stores each of them in order while below the target |
| Runs.ScanStoresFive | main.py:320-359 | from a count of zero, a search whose first five records are unseen, of distinct fingerprints and go through stores exactly those five, in order, and nothing after them |
| Runs.FiveUnseenStopAfterOneSearch | main.py:309-359 | in that case the whole run stops after the first search, with exactly 5 new URLs |
| Collector.ClaudeCodeSDKCollector.constructor | main.py:28-43 | a new collector has the eight queries, no collected URLs, zero counters and no errors |
| Collector.ClaudeCodeSDKCollector.NormalizeUrl | main.py:74-106 | returns the normalized URL, or the input unchanged with one normalization error appended when `urlparse` raises |
| Collector.ClaudeCodeSDKCollector.GetUrlHash | main.py:108-111 | returns the 16-hex-character hash of the normalized URL, with the error of the normalization it runs |
| Collector.ClaudeCodeSDKCollector.IsDuplicate | main.py:113-128 | reports a duplicate exactly when the duplicate check replies true; on a failed read reports false and appends one error; Redis is only read |
| Collector.ClaudeCodeSDKCollector.ReadDuplicate | main.py:117-128 | the two reads after the hash: EXISTS, a second normalization, then SISMEMBER, with the reply and errors of the duplicate check |
| Collector.ClaudeCodeSDKCollector.WriteRecord | main.py:177-194 | the four writes leave the keyspace as `Persist` describes and report whether all of them succeeded |
| Collector.ClaudeCodeSDKCollector.StoreUrl | main.py:171-201 | the keyspace and the result are those of the four ordered writes; the counter goes up on success only; one storage error is appended on failure; after a success every URL with the same normalization reads as a duplicate; nothing that read as a duplicate stops reading as one |
| Collector.ClaudeCodeSDKCollector.CuratedResults | main.py:283-289 | builds the curated records numbered from 1 in sample order |
| Collector.ClaudeCodeSDKCollector.RelevantResults | main.py:230-247 | the scan over the window yields exactly the relevant matches as search records |
| Collector.ClaudeCodeSDKCollector.SearchWeb | main.py:203-291 | returns the search results of the response, the clock and the seeded draws, and appends one web-search error exactly when the request raises |
| Collector.ClaudeCodeSDKCollector.ProcessCandidate | main.py:320-355 | the fate of the candidate, the new keyspace and the entries appended to `errors` are those `Handle` gives for the keyspace before and the environment (`Runs.HandleOutcome` and `Runs.HandleErrorsOutcome` say what they mean); the counters and the collected URLs move by that fate and nothing else; no URL stops reading as a duplicate |
| Collector.ClaudeCodeSDKCollector.AdmitCandidate | main.py:333-355 | for a candidate past the duplicate check, the fate, the new keyspace and the appended errors are those `Admit` gives: rejected with Redis untouched and nothing appended exactly when validation fails, otherwise stored exactly when the four writes succeed, with the store's errors; the counters and the collected URLs move by that fate; no URL stops reading as a duplicate |
| Collector.ClaudeCodeSDKCollector.ProcessRecord | main.py:320-355 | one turn of the loop over the records: the state after it is the `Scan` of the records up to and including this one; a record is counted exactly when its URL is non-empty, and then it adds one entry to the log; the errors are those `Scan` gives |
| Collector.ClaudeCodeSDKCollector.ProcessResults | main.py:320-351 | the keyspace, the counters, the collected URLs, the errors and the log of processed URLs and fates are those `Scan` gives for the search's records: empty URLs are skipped, every other record is handled in order, and the loop stops at the target; the counters follow the tallies |
| Collector.ClaudeCodeSDKCollector.RunAttempt | main.py:310-359 | one attempt searches its query at its clock reading and scans the results: the new state (errors included, with the web-search error when the request raises) and the log extend `Scan` of that attempt's records from the state before |
| Collector.ClaudeCodeSDKCollector.QueryRound | main.py:309-365 | one turn of the loop: when the earlier attempts were all made and left the current state, this attempt is made too and leaves the state `Attempts` gives for one more attempt |
| Collector.ClaudeCodeSDKCollector.QueryRounds | main.py:309-370 | the final state (keyspace, counters, collected URLs, log and errors) and the number of attempts are those `Attempts` gives from the starting state: the queries are tried in order, wrapping round, until the target is reached or every query has been tried twice |
| Collector.ClaudeCodeSDKCollector.CollectFromSources | main.py:293-377 | the final state (keyspace, counters, collected URLs, log and errors) and the number of searches are those `Attempts` gives over the records `Rounds` lists; at most 16 searches, in query order; the run ends with the target reached or both passes done; the count never passes 5 when it started below; every discovered URL is exactly one of duplicate, rejected, stored or failed store; the counters and collected URLs match the tallies; a run of duplicates only does both passes and adds nothing |

## Left out

- `_init_redis` (main.py:45-72): the environment, the connection and `ping` are not modelled. The collector is given a connected client.
- Console output is not modelled: every `print`, `print_summary` (main.py:379-408), `main` and the argument parsing (main.py:421 on).
- The statistics write at the end of `print_summary` (main.py:410-418) is not modelled. It happens after the collection loop and nothing in the core reads it.
- The `mode` parameter of `collect_from_sources` is only printed, so it is not modelled.
- `verify_collection.py` is not part of this model.
- `time.sleep(2)` between searches is not modelled. It has no effect on state.
- The HTTP requests, the HTML regex and `unquote` are not modelled. The provider's response is given as its decoded matches, and a failing `unquote` is not distinguished.
- The outer `Search error` handler (main.py:361-363) is not modelled. The helper methods called inside that `try` catch their own exceptions, and the model takes it that the `print` calls there (such as main.py:329 and 334) never raise, so the handler is never reached.
- Error entries are modelled by kind only. The exception text is not.
- `Text.Lower` lower-cases ASCII letters only. Python's `str.lower` also folds non-ASCII letters.
- Urls.Unparse: follows `urlunsplit` as in CPython up to 3.12.3, before the gh-67693 change (from 3.12.4 and 3.13, a path starting with `//` and no host is written differently; and with an empty host and a path not starting with `/`, the newer `urlunsplit` writes `https:a` where this model writes `https:///a`, which `Urls.NormalizedIsHttps` relies on). It is stated for the components the normalizer produces (scheme `https`).
- The Redis client is modelled without connection loss between commands beyond the `Fault` of one call, and without other clients writing concurrently.
- `store_url` writes the three stamped fields into the caller's dictionary in place. The model builds the stamped map as a new value, and the caller's map is not observed afterwards.
- `datetime.utcnow()` is given as the two clock readings (`collectedAt`, `now`) of each store and the timestamp of each search.
- Collector.ClaudeCodeSDKCollector.CollectFromSources: states "nothing that read as a duplicate stops reading as one" per store (in `StoreUrl`), not over the whole run.
- `random.sample` is modelled by the selection loop it runs on a list of 15 (its list-based path). The draws are given; the Mersenne Twister behind them is not modelled.
