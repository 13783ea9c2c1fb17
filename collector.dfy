/** The collector object of main.py (`ClaudeCodeSDKCollector`): its run
    counters and error list, the Redis client it writes through, and the
    collection loop that drives normalize, deduplicate, validate and store over
    the search results. The library calls it depends on (`urlparse`,
    `hashlib.sha256`) are given to it; the network, the clock and the seeded draws of
    `random.sample` are given to each call as a `World`. */
module Collector {

  import opened Wrappers
  import opened Urls
  import opened Fingerprints
  import opened Validation
  import opened KeyValue
  import opened Persistence
  import opened Search
  import opened Runs

  const SearchQueries: seq<string> := [
    "Claude Code SDK documentation",
    "Claude Code SDK tutorial",
    "Claude Code SDK guide",
    "Claude Code SDK API",
    "Claude Code SDK examples",
    "Anthropic Claude Code SDK",
    "Claude Code SDK newsletter",
    "Claude Code SDK articles"
  ]

  class ClaudeCodeSDKCollector {

    const redis: Redis
    const parse: string -> Option<Url>
    const sha256: string -> Digest
    const searchQueries: seq<string>

    var collectedUrls: seq<string>
    var duplicatesFiltered: int
    var newUrlsAdded: int
    var errors: seq<Error>

    /** The collector over an already connected client. */
    constructor (redis: Redis, parse: string -> Option<Url>, sha256: string -> Digest)
      ensures this.redis == redis && this.parse == parse && this.sha256 == sha256
      ensures searchQueries == SearchQueries
      ensures collectedUrls == [] && duplicatesFiltered == 0 && newUrlsAdded == 0 && errors == []
    {
      this.redis := redis;
      this.parse := parse;
      this.sha256 := sha256;
      searchQueries := SearchQueries;
      collectedUrls := [];
      duplicatesFiltered := 0;
      newUrlsAdded := 0;
      errors := [];
    }

    /** The keyspace and the three counters, with `log` as the candidates
        processed so far. */
    ghost function State(log: seq<Processed>): Progress
      reads this, redis
    {
      Progress(redis.db, newUrlsAdded, duplicatesFiltered, collectedUrls, log, errors)
    }

    /** `normalize_url`: the normalized URL, or the input unchanged with one
        error appended when `urlparse` raises. */
    method NormalizeUrl(url: string) returns (n: string)
      modifies this`errors
      ensures n == Normalized(parse(url), url)
      ensures parse(url).None? ==> n == url
      ensures errors == old(errors) + ParseErrors(parse(url))
    {
      match parse(url)
      case None =>
        errors := errors + [NormalizationError];
        n := url;
      case Some(u) =>
        n := Unparse(NormalizeParts(u));
    }

    /** `get_url_hash`: 16 hex characters that depend on the normalized URL only. */
    method GetUrlHash(url: string) returns (h: string)
      modifies this`errors
      ensures h == UrlHash(sha256, parse(url), url)
      ensures |h| == FingerprintLength && IsHex(h)
      ensures errors == old(errors) + ParseErrors(parse(url))
    {
      var n := NormalizeUrl(url);
      h := Fingerprint(sha256(n));
    }

    /** `is_duplicate`: the OR of the lookup key existing and the URL being in
        the set; false, with an error appended, when either read raises. Redis is
        only read. */
    method IsDuplicate(url: string, fault: Fault) returns (dup: bool)
      modifies this`errors
      ensures var n := Normalized(parse(url), url);
        var r := DuplicateCheck(redis.db, n, UrlHash(sha256, parse(url), url), fault);
        && dup == (r == Some(true))
        && errors == old(errors) + DuplicateCheckErrors(parse(url), r, fault)
      ensures old(errors) <= errors
    {
      var h := GetUrlHash(url);
      ghost var e0 := errors;
      dup := ReadDuplicate(url, h, fault);
      ghost var pe := ParseErrors(parse(url));
      if fault == FailsAt(1) {
        assert errors == e0 + [DuplicateCheckError];
      } else if DuplicateCheck(redis.db, Normalized(parse(url), url), h, fault).None? {
        assert errors == e0 + (pe + [DuplicateCheckError]);
      } else {
        assert errors == e0 + pe;
      }
    }

    /** The reads of `is_duplicate` once the hash `h` is known: EXISTS on its
        lookup key, the URL normalized again, then SISMEMBER. */
    method ReadDuplicate(url: string, h: string, fault: Fault) returns (dup: bool)
      modifies this`errors
      ensures var r := DuplicateCheck(redis.db, Normalized(parse(url), url), h, fault);
        && dup == (r == Some(true))
        && errors == old(errors) +
             (if fault == FailsAt(1) then [DuplicateCheckError]
              else if r.None? then ParseErrors(parse(url)) + [DuplicateCheckError]
              else ParseErrors(parse(url)))
    {
      if fault == FailsAt(1) {
        errors := errors + [DuplicateCheckError];
        return false;
      }
      var hashKnown := redis.Exists(UrlKey(h));
      var n := NormalizeUrl(url);
      if fault == FailsAt(2) {
        errors := errors + [DuplicateCheckError];
        return false;
      }
      var replied, inSet := redis.SIsMember(UrlsKey, n);
      if !replied {
        errors := errors + [DuplicateCheckError];
        return false;
      }
      dup := hashKnown || inSet;
    }

    /** The four writes of `store_url` in order, stopping at the first that
        fails. */
    method WriteRecord(n: string, h: string, fields: map<string, string>, now: int, fault: Fault)
      returns (ok: bool)
      modifies redis
      ensures redis.db == Persist(old(redis.db), n, h, fields, now, fault).db
      ensures ok == Persist(old(redis.db), n, h, fields, now, fault).ok
    {
      ok := false;
      if fault != FailsAt(1) {
        var added := redis.SAdd(UrlsKey, n);
        if added && fault != FailsAt(2) {
          var merged := redis.HSet(MetadataKey(h), fields);
          if merged && fault != FailsAt(3) {
            var scored := redis.ZAdd(TimelineKey, h, now);
            if scored && fault != FailsAt(4) {
              redis.Set(UrlKey(h), n);
              ok := true;
            }
          }
        }
      }
    }

    /** `store_url`: the four writes of `Persist` in order, the counter bumped on
        success only, one error appended on failure. After a success every URL
        with the same normalization is reported as a duplicate, and nothing
        reported as a duplicate before stops being one. */
    method StoreUrl(url: string, metadata: map<string, string>, collectedAt: string, now: int, fault: Fault)
      returns (ok: bool)
      modifies this, redis
      ensures var n := Normalized(parse(url), url);
        var h := UrlHash(sha256, parse(url), url);
        var w := Persist(old(redis.db), n, h, Stamp(metadata, n, collectedAt, h), now, fault);
        redis.db == w.db && ok == w.ok
      ensures newUrlsAdded == old(newUrlsAdded) + (if ok then 1 else 0)
      ensures errors == old(errors) + (ParseErrors(parse(url)) + ParseErrors(parse(url)) + (if ok then [] else [StorageError]))
      ensures old(errors) <= errors
      ensures collectedUrls == old(collectedUrls) && duplicatesFiltered == old(duplicatesFiltered)
      ensures ok ==> forall v :: Normalized(parse(v), v) == Normalized(parse(url), url) ==>
        DuplicateCheck(redis.db, Normalized(parse(v), v), UrlHash(sha256, parse(v), v), Healthy) == Some(true)
      ensures forall n, h :: Known(old(redis.db), n, h) ==> Known(redis.db, n, h)
    {
      ghost var e0, pe := errors, ParseErrors(parse(url));
      var n := NormalizeUrl(url);
      var h := GetUrlHash(url);
      var fields := Stamp(metadata, n, collectedAt, h);
      ghost var db0 := redis.db;
      ok := WriteRecord(n, h, fields, now, fault);
      if ok {
        newUrlsAdded := newUrlsAdded + 1;
        PersistEffect(db0, n, h, fields, now, fault);
      } else {
        errors := errors + [StorageError];
      }
      PersistMonotone(db0, n, h, fields, now, fault);
      AppendAssoc(e0, pe, pe);
      AppendAssoc(e0, pe + pe, if ok then [] else [StorageError]);
    }

    /** The fallback branch of `search_web`: the sampled curated URLs as
        search records, numbered from 1. */
    method CuratedResults(selected: seq<string>) returns (results: seq<Candidate>)
      ensures results == Numbered(selected)
    {
      results := [];
      var idx := 0;
      while idx < |selected|
        invariant 0 <= idx <= |selected| && |results| == idx
        invariant forall k :: 0 <= k < idx ==> results[k] == CuratedHit(selected[k], k)
      {
        results := results + [CuratedHit(selected[idx], idx)];
        idx := idx + 1;
      }
    }

    /** The scan of `search_web` over the first `maxResults` matches: the
        relevant ones become search records, and the scan stops once it holds
        `maxResults` of them. */
    method RelevantResults(query: string, window: seq<string>, maxResults: nat) returns (results: seq<Candidate>)
      requires |window| <= maxResults
      ensures results == Hits(query, window)
    {
      results := [];
      var i := 0;
      while i < |window|
        invariant 0 <= i <= |window|
        invariant results == Hits(query, window[..i])
      {
        var decoded := window[i];
        assert window[..i + 1][..i] == window[..i];
        if Relevant(decoded) {
          results := results + [SearchHit(query, decoded)];
          if |results| >= maxResults {
            assert window[..i + 1] == window;
            return;
          }
        }
        i := i + 1;
      }
      assert window[..i] == window;
    }

    /** `search_web`: the relevant matches among the first `maxResults`, or,
        when there are none, the curated fallback sampled with the seeded draws. */
    method SearchWeb(query: string, maxResults: nat, fetch: Fetch, now: int, draws: Draws)
      returns (results: seq<Candidate>)
      modifies this`errors
      ensures results == SearchResults(query, fetch, now, draws, maxResults)
      ensures errors == old(errors) + (if fetch.FetchFailed? then [WebSearchError] else [])
    {
      var window: seq<string> := [];
      match fetch {
      case FetchFailed =>
        errors := errors + [WebSearchError];
      case Page(status, matches) =>
        if status == 200 {
          window := if |matches| <= maxResults then matches else matches[..maxResults];
        }
      }
      assert window == Window(fetch, maxResults);
      results := RelevantResults(query, window, maxResults);
      if |results| == 0 {
        results := CuratedResults(Sample(now, draws, maxResults));
      }
    }

    /** One pass of the loop over a search's results in `collect_from_sources`,
        for a non-empty URL: a duplicate is counted and skipped, a URL that fails
        validation is skipped, any other is stored and, when the store succeeds,
        appended to the collected URLs. */
    method ProcessCandidate(result: Candidate, query: string, env: CandidateWorld) returns (fate: Fate)
      modifies this, redis
      ensures var o := Handle(parse, sha256, old(redis.db), result, query, env);
        fate == o.0 && redis.db == o.1 && errors == old(errors) + o.2
      ensures newUrlsAdded == old(newUrlsAdded) + (if fate == Stored then 1 else 0)
      ensures duplicatesFiltered == old(duplicatesFiltered) + (if fate == Duplicate then 1 else 0)
      ensures collectedUrls == old(collectedUrls) + (if fate == Stored then [result.url] else [])
      ensures forall n, h :: Known(old(redis.db), n, h) ==> Known(redis.db, n, h)
    {
      ghost var e0, db0 := errors, redis.db;
      var dup := IsDuplicate(result.url, env.duplicateCheck);
      if dup {
        duplicatesFiltered := duplicatesFiltered + 1;
        fate := Duplicate;
      } else {
        ghost var url := result.url;
        ghost var reply := DuplicateCheck(db0, Normalized(parse(url), url), UrlHash(sha256, parse(url), url), env.duplicateCheck);
        fate := AdmitCandidate(result, query, env);
        AppendAssoc(e0, DuplicateCheckErrors(parse(url), reply, env.duplicateCheck),
                    Admit(parse, sha256, db0, result, query, env).2);
      }
    }

    /** The part of that pass after the duplicate check: a URL that fails
        validation is rejected with the keyspace untouched, any other goes
        through `store_url` and joins the collected URLs when that succeeds. */
    method AdmitCandidate(result: Candidate, query: string, env: CandidateWorld) returns (fate: Fate)
      modifies this, redis
      ensures var a := Admit(parse, sha256, old(redis.db), result, query, env);
        fate == a.0 && redis.db == a.1 && errors == old(errors) + a.2
      ensures newUrlsAdded == old(newUrlsAdded) + (if fate == Stored then 1 else 0)
      ensures duplicatesFiltered == old(duplicatesFiltered)
      ensures collectedUrls == old(collectedUrls) + (if fate == Stored then [result.url] else [])
      ensures forall n, h :: Known(old(redis.db), n, h) ==> Known(redis.db, n, h)
    {
      var url := result.url;
      if Validate(parse(url), env.head, env.get).accepted {
        var ok := StoreUrl(url, Metadata(result, query), env.collectedAt, env.now, env.storage);
        if ok {
          collectedUrls := collectedUrls + [url];
          fate := Stored;
        } else {
          fate := StoreFailed;
        }
      } else {
        fate := Rejected;
      }
    }

    /** One pass of the loop over a search's records, for record `i`: skipped
        when its URL is empty, else processed; the state moves on as `Scan` says. */
    method ProcessRecord(results: seq<Candidate>, i: nat, query: string, attempt: nat, world: World,
                         ghost start: Progress, ghost batch: seq<Processed>)
      returns (counted: bool, ghost batch': seq<Processed>)
      requires i < |results| && newUrlsAdded < TargetUrls
      requires State(batch) == Scan(parse, sha256, start, results[..i], query, attempt, world)
      modifies this, redis
      ensures State(batch') == Scan(parse, sha256, start, results[..i + 1], query, attempt, world)
      ensures counted <==> results[i].url != ""
      ensures |batch'| == |batch| + (if counted then 1 else 0)
    {
      var result := results[i];
      assert results[..i + 1][..i] == results[..i];
      batch' := batch;
      counted := result.url != "";
      if counted {
        var fate := ProcessCandidate(result, query, world.candidate(attempt, i));
        batch' := batch + [Processed(result.url, fate)];
      }
    }

    /** The loop over one search's records in `collect_from_sources`: records
        without a URL are skipped, every other one is processed in order, and the
        loop stops as soon as the target number of new URLs is reached. */
    method ProcessResults(results: seq<Candidate>, query: string, attempt: nat, world: World)
      returns (discovered: nat, ghost batch: seq<Processed>)
      requires newUrlsAdded < TargetUrls
      modifies this, redis
      ensures discovered == |batch| <= |results|
      ensures State(batch) == Scan(parse, sha256, old(State([])), results, query, attempt, world)
      ensures BelowTargetBeforeLast(batch, old(newUrlsAdded))
      ensures newUrlsAdded == old(newUrlsAdded) + Tally(batch, Stored) <= TargetUrls
      ensures duplicatesFiltered == old(duplicatesFiltered) + Tally(batch, Duplicate)
      ensures collectedUrls == old(collectedUrls) + StoredUrls(batch)
    {
      discovered, batch := 0, [];
      var i := 0;
      while i < |results| && newUrlsAdded < TargetUrls
        invariant 0 <= i <= |results|
        invariant discovered == |batch|
        invariant State(batch) == Scan(parse, sha256, old(State([])), results[..i], query, attempt, world)
      {
        var counted;
        counted, batch := ProcessRecord(results, i, query, attempt, world, old(State([])), batch);
        if counted {
          discovered := discovered + 1;
        }
        i := i + 1;
      }
      if i < |results| {
        ScanStopped(parse, sha256, old(State([])), results, i, query, attempt, world);
      } else {
        assert results[..i] == results;
      }
      assert old(collectedUrls) + [] == old(collectedUrls);
      ScanBalanced(parse, sha256, old(State([])), old(State([])), results, query, attempt, world);
    }

    /** One attempt of `collect_from_sources`: a search for the attempt's query,
        at the clock reading of this attempt, then the loop over its records; it
        scans the attempt's records on from the keyspace, the count and the log
        `log` the earlier attempts left. */
    method RunAttempt(query: string, attempt: nat, world: World, ghost rounds: seq<seq<Candidate>>,
                      ghost log: seq<Processed>)
      returns (discovered: nat, ghost batch: seq<Processed>)
      requires 1 <= attempt <= |rounds| && |searchQueries| > 0 && query == AttemptQuery(searchQueries, attempt)
      requires RoundsOf(searchQueries, world, rounds)
      requires newUrlsAdded < TargetUrls
      modifies this, redis
      ensures State(log + batch) == Scan(parse, sha256, Searched(old(State(log)), world.fetch(attempt)), rounds[attempt - 1], query, attempt, world)
      ensures discovered == |batch|
      ensures BelowTargetBeforeLast(batch, old(newUrlsAdded))
      ensures newUrlsAdded == old(newUrlsAdded) + Tally(batch, Stored) <= TargetUrls
      ensures duplicatesFiltered == old(duplicatesFiltered) + Tally(batch, Duplicate)
      ensures collectedUrls == old(collectedUrls) + StoredUrls(batch)
    {
      var timestamp := world.clock(attempt);
      var results := SearchWeb(query, ResultsPerQuery, world.fetch(attempt), timestamp, world.draws(timestamp));
      assert results == AttemptResults(searchQueries, world, attempt);
      ghost var before := State(log);
      discovered, batch := ProcessResults(results, query, attempt, world);
      ScanFrom(parse, sha256, before, results, query, attempt, world);
    }

    /** One turn of the loop of `collect_from_sources`: the attempt's search
        and its records take the progress of the earlier attempts to that of
        this one, and keep the counters in step with the log. */
    method QueryRound(query: string, attempt: nat, world: World, ghost rounds: seq<seq<Candidate>>,
                      ghost base: Progress, ghost log: seq<Processed>)
      returns (discovered: nat, ghost batch: seq<Processed>)
      requires 1 <= attempt <= |rounds| && |searchQueries| > 0 && query == AttemptQuery(searchQueries, attempt)
      requires RoundsOf(searchQueries, world, rounds)
      requires newUrlsAdded < TargetUrls
      requires Made(parse, sha256, searchQueries, world, rounds, base, attempt - 1, State(log))
      modifies this, redis
      ensures Made(parse, sha256, searchQueries, world, rounds, base, attempt, State(log + batch))
      ensures discovered == |batch|
    {
      ghost var before := State(log);
      discovered, batch := RunAttempt(query, attempt, world, rounds, log);
      AttemptFrom(parse, sha256, searchQueries, world, rounds, base, attempt, before);
      AttemptsNext(parse, sha256, searchQueries, world, rounds, base, attempt);
    }

    /** The loop of `collect_from_sources`: the queries in order, wrapping round,
        until five new URLs are in or every query has been tried twice; attempt
        k searches the records `rounds[k - 1]`. */
    method QueryRounds(world: World, ghost rounds: seq<seq<Candidate>>)
      returns (sourcesQueried: nat, urlsDiscovered: nat,
               ghost queried: seq<string>, ghost log: seq<Processed>)
      requires |rounds| == 2 * |searchQueries| && RoundsOf(searchQueries, world, rounds)
      modifies this, redis
      ensures sourcesQueried <= 2 * |searchQueries|
      ensures |queried| == sourcesQueried
      ensures queried == Asked(searchQueries, sourcesQueried)
      ensures (State(log), sourcesQueried) == Attempts(parse, sha256, searchQueries, world, rounds, old(State([])), sourcesQueried)
      ensures newUrlsAdded >= TargetUrls || sourcesQueried == 2 * |searchQueries|
      ensures old(newUrlsAdded) < TargetUrls ==> newUrlsAdded <= TargetUrls
      ensures BelowTargetBeforeLast(log, old(newUrlsAdded))
      ensures newUrlsAdded == old(newUrlsAdded) + Tally(log, Stored)
      ensures duplicatesFiltered == old(duplicatesFiltered) + Tally(log, Duplicate)
      ensures urlsDiscovered == |log|
      ensures collectedUrls == old(collectedUrls) + StoredUrls(log)
    {
      sourcesQueried, urlsDiscovered := 0, 0;
      var maxAttempts := 2 * |searchQueries|;
      var attempt, queryIndex := 0, 0;
      queried, log := [], [];
      assert old(collectedUrls) + [] == old(collectedUrls);
      while newUrlsAdded < TargetUrls && attempt < maxAttempts
        invariant 0 <= attempt <= maxAttempts
        invariant queryIndex == attempt && sourcesQueried == attempt && |queried| == attempt
        invariant queried == Asked(searchQueries, attempt)
        invariant Made(parse, sha256, searchQueries, world, rounds, old(State([])), attempt, State(log))
        invariant old(newUrlsAdded) < TargetUrls ==> newUrlsAdded < TargetUrls
        invariant urlsDiscovered == |log|
        decreases maxAttempts - attempt
      {
        var query := searchQueries[queryIndex % |searchQueries|];
        sourcesQueried := sourcesQueried + 1;
        attempt := attempt + 1;
        queried := queried + [query];
        var discovered, batch := QueryRound(query, attempt, world, rounds, old(State([])), log);
        urlsDiscovered := urlsDiscovered + discovered;
        log := log + batch;
        if newUrlsAdded >= TargetUrls {
          break;
        }
        queryIndex := queryIndex + 1;
      }
      AttemptsBalanced(parse, sha256, searchQueries, world, rounds, old(State([])), attempt);
    }

    /** `collect_from_sources`: up to twice round the query list, each search's
        candidates deduplicated, validated and stored until five new URLs are in. */
    method CollectFromSources(world: World)
      returns (sourcesQueried: nat, urlsDiscovered: nat,
               ghost queried: seq<string>, ghost log: seq<Processed>)
      modifies this, redis
      ensures sourcesQueried <= 2 * |searchQueries|
      ensures |queried| == sourcesQueried
      ensures forall k :: 0 <= k < sourcesQueried ==> queried[k] == searchQueries[k % |searchQueries|]
      ensures (State(log), sourcesQueried)
        == Attempts(parse, sha256, searchQueries, world, Rounds(searchQueries, world, 2 * |searchQueries|), old(State([])), 2 * |searchQueries|)
      ensures newUrlsAdded >= TargetUrls || sourcesQueried == 2 * |searchQueries|
      ensures old(newUrlsAdded) < TargetUrls ==> newUrlsAdded <= TargetUrls
      ensures forall j :: 0 <= j < |log| ==> old(newUrlsAdded) + Tally(log[..j], Stored) < TargetUrls
      ensures newUrlsAdded == old(newUrlsAdded) + Tally(log, Stored)
      ensures duplicatesFiltered == old(duplicatesFiltered) + Tally(log, Duplicate)
      ensures urlsDiscovered == |log|
        == Tally(log, Duplicate) + Tally(log, Rejected) + Tally(log, Stored) + Tally(log, StoreFailed)
      ensures collectedUrls == old(collectedUrls) + StoredUrls(log)
      ensures (forall j :: 0 <= j < |log| ==> log[j].fate == Duplicate) && old(newUrlsAdded) < TargetUrls ==>
        sourcesQueried == 2 * |searchQueries| && newUrlsAdded == old(newUrlsAdded)
    {
      ghost var rounds := Rounds(searchQueries, world, 2 * |searchQueries|);
      sourcesQueried, urlsDiscovered, queried, log := QueryRounds(world, rounds);
      AskedInOrder(searchQueries, sourcesQueried);
      if sourcesQueried < 2 * |searchQueries| {
        AttemptsStay(parse, sha256, searchQueries, world, rounds, old(State([])), sourcesQueried, 2 * |searchQueries|);
      }
      TallyPartition(log);
      BelowTargetThroughout(log, old(newUrlsAdded));
      if forall j :: 0 <= j < |log| ==> log[j].fate == Duplicate {
        AllDuplicatesStoreNothing(log);
      }
    }
  }
}
