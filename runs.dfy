/** The collection loop of `collect_from_sources` (main.py:293-377) as
    functions of what the environment does: what becomes of one candidate, the
    loop over one search's records, and the attempts over the query list. The
    collector's methods are proved to follow these. */
module Runs {

  import opened Wrappers
  import opened Urls
  import opened Fingerprints
  import opened Validation
  import opened KeyValue
  import opened Persistence
  import opened Search

  /** The entries of `self.errors`, by kind; the exception text is not modelled. */
  datatype Error = NormalizationError | DuplicateCheckError | StorageError | WebSearchError

  /** The error `normalize_url` appends when `urlparse` raises. */
  function ParseErrors(parsed: Option<Url>): seq<Error>
  {
    if parsed.None? then [NormalizationError] else []
  }

  /** Regrouping appended error lists, stated once so that the methods that
      append in several steps need not rediscover it. */
  lemma AppendAssoc(a: seq<Error>, b: seq<Error>, c: seq<Error>)
    ensures a + (b + c) == (a + b) + c
  {
  }

  const TargetUrls := 5
  const ResultsPerQuery := 10

  /** What the environment does while one candidate is processed: whether a
      Redis command of the duplicate check or of the store raises, what the HEAD
      and GET probes return, and the two clock readings of `store_url`. */
  datatype CandidateWorld = CandidateWorld(
    duplicateCheck: Fault, head: Probe, get: Probe,
    storage: Fault, collectedAt: string, now: int)

  /** The environment of a collection run, indexed by attempt number (from 1)
      and by position in that attempt's results. */
  datatype World = World(
    fetch: nat -> Fetch,
    clock: nat -> int,
    draws: int -> Draws,
    candidate: (nat, nat) -> CandidateWorld)

  /** What became of one candidate URL in the collection loop. */
  datatype Fate = Duplicate | Rejected | Stored | StoreFailed

  datatype Processed = Processed(url: string, fate: Fate)

  /** The number of candidates in the log with the given fate. */
  function Tally(log: seq<Processed>, f: Fate): nat
  {
    if log == [] then 0
    else Tally(log[..|log| - 1], f) + (if log[|log| - 1].fate == f then 1 else 0)
  }

  /** The URLs stored, in order. */
  function StoredUrls(log: seq<Processed>): seq<string>
  {
    if log == [] then []
    else StoredUrls(log[..|log| - 1]) + (if log[|log| - 1].fate == Stored then [log[|log| - 1].url] else [])
  }

  /** Appending one entry moves exactly one tally and keeps every earlier prefix. */
  lemma Extend(log: seq<Processed>, p: Processed)
    ensures forall f :: Tally(log + [p], f) == Tally(log, f) + (if p.fate == f then 1 else 0)
    ensures StoredUrls(log + [p]) == StoredUrls(log) + (if p.fate == Stored then [p.url] else [])
    ensures forall j :: 0 <= j <= |log| ==> (log + [p])[..j] == log[..j]
  {
    assert (log + [p])[..|log|] == log;
  }

  /** Every logged candidate has exactly one of the four fates. */
  lemma {:induction false} TallyPartition(log: seq<Processed>)
    ensures |log| == Tally(log, Duplicate) + Tally(log, Rejected) + Tally(log, Stored) + Tally(log, StoreFailed)
  {
    if log != [] {
      TallyPartition(log[..|log| - 1]);
    }
  }

  /** A log of duplicates only stores nothing. */
  lemma {:induction false} AllDuplicatesStoreNothing(log: seq<Processed>)
    requires forall j :: 0 <= j < |log| ==> log[j].fate == Duplicate
    ensures Tally(log, Stored) == 0 && StoredUrls(log) == []
  {
    if log != [] {
      AllDuplicatesStoreNothing(log[..|log| - 1]);
    }
  }

  /** Tallies and stored URLs of a concatenation add up. */
  lemma {:induction false} TallyAppend(a: seq<Processed>, b: seq<Processed>)
    ensures forall f :: Tally(a + b, f) == Tally(a, f) + Tally(b, f)
    ensures StoredUrls(a + b) == StoredUrls(a) + StoredUrls(b)
  {
    if b == [] {
      assert a + b == a;
    } else {
      var b' := b[..|b| - 1];
      TallyAppend(a, b');
      assert (a + b)[..|a + b| - 1] == a + b';
    }
  }

  /** Tallies only grow along a log. */
  lemma {:induction false} TallyPrefixMonotone(log: seq<Processed>, j: nat, f: Fate)
    requires j <= |log|
    ensures Tally(log[..j], f) <= Tally(log, f)
  {
    if j < |log| {
      var init := log[..|log| - 1];
      TallyPrefixMonotone(init, j, f);
      assert init[..j] == log[..j];
    } else {
      assert log[..j] == log;
    }
  }

  /** The target had not been reached before the last entry of the log was
      processed (`base` is the count the log started from). */
  predicate BelowTargetBeforeLast(log: seq<Processed>, base: int)
  {
    log != [] ==> base + Tally(log[..|log| - 1], Stored) < TargetUrls
  }

  /** Since tallies only grow, the target had not been reached before any
      entry of the log was processed. */
  lemma BelowTargetThroughout(log: seq<Processed>, base: int)
    requires BelowTargetBeforeLast(log, base)
    ensures forall j :: 0 <= j < |log| ==> base + Tally(log[..j], Stored) < TargetUrls
  {
    forall j | 0 <= j < |log|
      ensures base + Tally(log[..j], Stored) < TargetUrls
    {
      var init := log[..|log| - 1];
      TallyPrefixMonotone(init, j, Stored);
      assert init[..j] == log[..j];
    }
  }

  /** The metadata `collect_from_sources` hands to `store_url` for a search record. */
  function Metadata(result: Candidate, query: string): (m: map<string, string>)
    ensures m.Keys == {"title", "description", "source", "search_query"}
    ensures m["search_query"] == query && m["title"] == result.title
  {
    map["title" := result.title, "description" := result.description,
        "source" := result.source, "search_query" := query]
  }

  /** What the collector carries from one candidate to the next: the keyspace,
      its three counters (`new_urls_added`, `duplicates_filtered` and
      `collected_urls`), the log of the candidates processed and its `errors`. */
  datatype Progress = Progress(db: Db, added: int, duplicates: int, collected: seq<string>, log: seq<Processed>,
                               errors: seq<Error>)

  /** The entries `is_duplicate` appends: a normalization error for each of
      its two normalizations that runs (`get_url_hash` first, then the one
      before SISMEMBER, which a failing EXISTS skips), and a duplicate-check
      error when a read raises or is refused. */
  function DuplicateCheckErrors(parsed: Option<Url>, reply: Option<bool>, fault: Fault): seq<Error>
  {
    var pe := ParseErrors(parsed);
    if fault == FailsAt(1) then pe + [DuplicateCheckError]
    else if reply.None? then pe + pe + [DuplicateCheckError]
    else pe + pe
  }

  /** One candidate with a non-empty URL: it is a duplicate when the duplicate
      check replies true; any other is admitted as `Admit` says. Gives the
      fate, the keyspace afterwards and the entries appended to `errors`:
      those of the duplicate check, then those of admitting it. */
  function Handle(parse: string -> Option<Url>, sha256: string -> Digest, db: Db,
                  result: Candidate, query: string, env: CandidateWorld): (Fate, Db, seq<Error>)
  {
    var url := result.url;
    var reply := DuplicateCheck(db, Normalized(parse(url), url), UrlHash(sha256, parse(url), url), env.duplicateCheck);
    var checked := DuplicateCheckErrors(parse(url), reply, env.duplicateCheck);
    if reply == Some(true) then (Duplicate, db, checked)
    else
      var a := Admit(parse, sha256, db, result, query, env);
      (a.0, a.1, checked + a.2)
  }

  /** A candidate past the duplicate check: rejected when validation fails,
      with the keyspace untouched and nothing appended; any other goes through
      the four writes of `store_url`, which append a normalization error for
      each of its two normalizations when the URL does not parse and a
      storage error when a write fails. */
  function Admit(parse: string -> Option<Url>, sha256: string -> Digest, db: Db,
                 result: Candidate, query: string, env: CandidateWorld): (Fate, Db, seq<Error>)
  {
    var url := result.url;
    var n := Normalized(parse(url), url);
    var h := UrlHash(sha256, parse(url), url);
    if !Validate(parse(url), env.head, env.get).accepted then (Rejected, db, [])
    else
      var w := Persist(db, n, h, Stamp(Metadata(result, query), n, env.collectedAt, h), env.now, env.storage);
      var pe := ParseErrors(parse(url));
      (if w.ok then Stored else StoreFailed, w.db, pe + pe + (if w.ok then [] else [StorageError]))
  }

  /** What the errors of one candidate say: a storage error exactly when it
      ends as a failed store, a duplicate-check error exactly when the check
      has no reply, a normalization error exactly when the URL does not parse,
      and never a web-search error. */
  lemma HandleErrorsOutcome(parse: string -> Option<Url>, sha256: string -> Digest, db: Db,
                            result: Candidate, query: string, env: CandidateWorld)
    ensures var e := Handle(parse, sha256, db, result, query, env).2;
      var url := result.url;
      && (StorageError in e <==> Handle(parse, sha256, db, result, query, env).0 == StoreFailed)
      && (DuplicateCheckError in e <==>
            DuplicateCheck(db, Normalized(parse(url), url), UrlHash(sha256, parse(url), url), env.duplicateCheck).None?)
      && (NormalizationError in e <==> parse(url).None?)
      && WebSearchError !in e
  {
    var url := result.url;
    var n := Normalized(parse(url), url);
    var h := UrlHash(sha256, parse(url), url);
    DuplicateCheckErrorsKinds(parse(url), DuplicateCheck(db, n, h, env.duplicateCheck), env.duplicateCheck);
  }

  /** The duplicate check's own errors: a normalization error exactly when the
      URL does not parse, a duplicate-check error exactly when there is no
      reply, and nothing else. */
  lemma DuplicateCheckErrorsKinds(parsed: Option<Url>, reply: Option<bool>, fault: Fault)
    requires fault == FailsAt(1) ==> reply.None?
    ensures var e := DuplicateCheckErrors(parsed, reply, fault);
      && (NormalizationError in e <==> parsed.None?)
      && (DuplicateCheckError in e <==> reply.None?)
      && StorageError !in e && WebSearchError !in e
  {
  }

  /** A candidate is a duplicate exactly when the duplicate check replies true,
      and is then left alone; otherwise it is rejected exactly when validation
      fails, again with the keyspace untouched; any other is stored exactly
      when the four writes succeed. No URL that read as a duplicate stops
      reading as one. */
  lemma HandleOutcome(parse: string -> Option<Url>, sha256: string -> Digest, db: Db,
                      result: Candidate, query: string, env: CandidateWorld)
    ensures var o := Handle(parse, sha256, db, result, query, env);
      var url := result.url;
      var n := Normalized(parse(url), url);
      var h := UrlHash(sha256, parse(url), url);
      var w := Persist(db, n, h, Stamp(Metadata(result, query), n, env.collectedAt, h), env.now, env.storage);
      && (o.0 == Duplicate <==> DuplicateCheck(db, n, h, env.duplicateCheck) == Some(true))
      && (o.0 == Rejected <==> o.0 != Duplicate && !Validate(parse(url), env.head, env.get).accepted)
      && (o.0 == Stored <==> o.0 != Duplicate && o.0 != Rejected && w.ok)
      && (o.0 == Duplicate || o.0 == Rejected ==> o.1 == db)
      && (forall n', h' :: Known(db, n', h') ==> Known(o.1, n', h'))
  {
    var url := result.url;
    var n := Normalized(parse(url), url);
    var h := UrlHash(sha256, parse(url), url);
    PersistMonotone(db, n, h, Stamp(Metadata(result, query), n, env.collectedAt, h), env.now, env.storage);
  }

  /** Once a candidate is stored, the same URL met again, whatever its record,
      is filtered as a duplicate as long as the duplicate check's reads go
      through. */
  lemma StoredThenDuplicate(parse: string -> Option<Url>, sha256: string -> Digest, db: Db,
                            result: Candidate, query: string, env: CandidateWorld,
                            again: Candidate, query': string, env': CandidateWorld)
    requires Handle(parse, sha256, db, result, query, env).0 == Stored
    requires again.url == result.url && env'.duplicateCheck == Healthy
    ensures Handle(parse, sha256, Handle(parse, sha256, db, result, query, env).1, again, query', env').0 == Duplicate
  {
    var url := result.url;
    var n := Normalized(parse(url), url);
    var h := UrlHash(sha256, parse(url), url);
    PersistEffect(db, n, h, Stamp(Metadata(result, query), n, env.collectedAt, h), env.now, env.storage);
  }

  /** The loop over one search's records, at attempt `attempt`: a record with an
      empty URL is skipped, and once the target is reached the remaining
      records are left alone. */
  function Scan(parse: string -> Option<Url>, sha256: string -> Digest, p: Progress,
                results: seq<Candidate>, query: string, attempt: nat, world: World): Progress
    decreases |results|
  {
    if results == [] then p
    else
      var q := Scan(parse, sha256, p, results[..|results| - 1], query, attempt, world);
      var r := results[|results| - 1];
      if q.added >= TargetUrls || r.url == "" then q
      else
        Account(q, r.url, Handle(parse, sha256, q.db, r, query, world.candidate(attempt, |results| - 1)))
  }

  /** The progress after a record with URL `url` was handled with outcome `o`
      (its fate, the keyspace after it and the errors it logged). */
  function Account(q: Progress, url: string, o: (Fate, Db, seq<Error>)): Progress
  {
    Progress(o.1, q.added + (if o.0 == Stored then 1 else 0), q.duplicates + (if o.0 == Duplicate then 1 else 0),
             q.collected + (if o.0 == Stored then [url] else []), q.log + [Processed(url, o.0)],
             q.errors + o.2)
  }

  /** Handling one more record below the target keeps the counters in step
      with the log. */
  lemma AccountBalanced(base: Progress, q: Progress, url: string, o: (Fate, Db, seq<Error>))
    requires Balanced(base, q) && q.added < TargetUrls
    ensures Balanced(base, Account(q, url, o))
  {
    var x := Processed(url, o.0);
    Extend(q.log, x);
    assert (q.log + [x])[..|q.log + [x]| - 1] == q.log;
    assert base.collected + StoredUrls(q.log) + (if o.0 == Stored then [url] else [])
        == base.collected + (StoredUrls(q.log) + (if o.0 == Stored then [url] else []));
  }

  /** The query of attempt k (counted from 1): the list is walked round in order. */
  function AttemptQuery(queries: seq<string>, k: nat): string
    requires 1 <= k && |queries| > 0
  {
    queries[(k - 1) % |queries|]
  }

  /** The queries of the first `n` attempts, in order. */
  function Asked(queries: seq<string>, n: nat): (r: seq<string>)
    requires n == 0 || |queries| > 0
    ensures |r| == n
  {
    if n == 0 then [] else Asked(queries, n - 1) + [AttemptQuery(queries, n)]
  }

  /** The k-th attempt (from 0) asks the query at position k modulo the
      number of queries. */
  lemma {:induction false} AskedInOrder(queries: seq<string>, n: nat)
    requires n == 0 || |queries| > 0
    ensures forall k :: 0 <= k < n ==> Asked(queries, n)[k] == queries[k % |queries|]
  {
    if n > 0 {
      AskedInOrder(queries, n - 1);
    }
  }

  /** The records attempt k searches, at that attempt's clock reading. */
  function AttemptResults(queries: seq<string>, world: World, k: nat): seq<Candidate>
    requires 1 <= k && |queries| > 0
  {
    var t := world.clock(k);
    SearchResults(AttemptQuery(queries, k), world.fetch(k), t, world.draws(t), ResultsPerQuery)
  }

  /** The entry `search_web` appends: one error when the request raises. */
  function SearchErrors(fetch: Fetch): seq<Error>
  {
    if fetch.FetchFailed? then [WebSearchError] else []
  }

  /** The progress after an attempt's search, before its records are scanned. */
  function Searched(p: Progress, fetch: Fetch): (r: Progress)
    ensures SameCounters(r, p) && r.db == p.db
  {
    p.(errors := p.errors + SearchErrors(fetch))
  }

  /** The records searched by the first `n` attempts, in order. An attempt's
      search depends on its number alone (its query, clock reading, response
      and draws), not on what earlier attempts stored. */
  function Rounds(queries: seq<string>, world: World, n: nat): (r: seq<seq<Candidate>>)
    requires n == 0 || |queries| > 0
    ensures |r| == n && RoundsOf(queries, world, r)
  {
    if n == 0 then [] else Rounds(queries, world, n - 1) + [AttemptResults(queries, world, n)]
  }

  /** Entry k - 1 of `rounds` holds the records attempt k searches. */
  predicate RoundsOf(queries: seq<string>, world: World, rounds: seq<seq<Candidate>>)
  {
    forall k {:trigger AttemptResults(queries, world, k)} :: 1 <= k <= |rounds| ==>
      |queries| > 0 && rounds[k - 1] == AttemptResults(queries, world, k)
  }

  /** The run of `collect_from_sources` over its first `n` attempts, from the
      progress `p`, where attempt k searches the records `rounds[k - 1]`: the
      progress at the end and the number of attempts made. An attempt is made
      only while fewer than `TargetUrls` new URLs are in. */
  function Attempts(parse: string -> Option<Url>, sha256: string -> Digest, queries: seq<string>,
                    world: World, rounds: seq<seq<Candidate>>, p: Progress, n: nat): (Progress, nat)
    requires n <= |rounds| && (n == 0 || |queries| > 0)
    decreases n, 1
  {
    if n == 0 then (p, 0)
    else
      var before := Attempts(parse, sha256, queries, world, rounds, p, n - 1);
      if before.0.added >= TargetUrls then before
      else (Attempt(parse, sha256, queries, world, rounds, p, n), before.1 + 1)
  }

  /** Attempt `n` (counted from 1), made from where the earlier attempts left
      the run: its search's failure is logged, and the records it found are
      scanned. */
  function Attempt(parse: string -> Option<Url>, sha256: string -> Digest, queries: seq<string>,
                   world: World, rounds: seq<seq<Candidate>>, p: Progress, n: nat): Progress
    requires 1 <= n <= |rounds| && |queries| > 0
    decreases n, 0
  {
    var q := Attempts(parse, sha256, queries, world, rounds, p, n - 1).0;
    Scan(parse, sha256, Searched(q, world.fetch(n)), rounds[n - 1], AttemptQuery(queries, n), n, world)
  }

  /** The first `n` attempts, from the progress `p`, are all made and leave
      the progress `s`. */
  predicate Made(parse: string -> Option<Url>, sha256: string -> Digest, queries: seq<string>,
                 world: World, rounds: seq<seq<Candidate>>, p: Progress, n: nat, s: Progress)
  {
    n <= |rounds| && (n == 0 || |queries| > 0) && Attempts(parse, sha256, queries, world, rounds, p, n) == (s, n)
  }

  /** While the earlier attempts left the count below the target, attempt `n`
      is made, and it is made on the progress they left. */
  lemma AttemptsNext(parse: string -> Option<Url>, sha256: string -> Digest, queries: seq<string>,
                     world: World, rounds: seq<seq<Candidate>>, p: Progress, n: nat)
    requires |queries| > 0 && 1 <= n <= |rounds|
    requires Attempts(parse, sha256, queries, world, rounds, p, n - 1).0.added < TargetUrls
    ensures Attempts(parse, sha256, queries, world, rounds, p, n)
      == (Attempt(parse, sha256, queries, world, rounds, p, n), Attempts(parse, sha256, queries, world, rounds, p, n - 1).1 + 1)
  {
  }

  /** Attempt `n` scans its records on from the progress the earlier
      attempts left, with its search's failure logged. */
  lemma AttemptFrom(parse: string -> Option<Url>, sha256: string -> Digest, queries: seq<string>,
                    world: World, rounds: seq<seq<Candidate>>, p: Progress, n: nat, q: Progress)
    requires |queries| > 0 && 1 <= n <= |rounds|
    requires Attempts(parse, sha256, queries, world, rounds, p, n - 1).0 == q
    ensures Attempt(parse, sha256, queries, world, rounds, p, n)
      == Scan(parse, sha256, Searched(q, world.fetch(n)), rounds[n - 1], AttemptQuery(queries, n), n, world)
  {
  }

  /** Once the target is reached, later attempts are not made. */
  lemma {:induction false} AttemptsStay(parse: string -> Option<Url>, sha256: string -> Digest, queries: seq<string>,
                                        world: World, rounds: seq<seq<Candidate>>, p: Progress, k: nat, n: nat)
    requires |queries| > 0 && k <= n <= |rounds|
    requires Attempts(parse, sha256, queries, world, rounds, p, k).0.added >= TargetUrls
    ensures Attempts(parse, sha256, queries, world, rounds, p, n) == Attempts(parse, sha256, queries, world, rounds, p, k)
    decreases n - k
  {
    if k < n {
      AttemptsStay(parse, sha256, queries, world, rounds, p, k, n - 1);
    }
  }

  /** Over the attempts made, the counters stay in step with the log: the new
      URLs are the stored entries, the duplicates the duplicate entries, and
      every entry but the last was processed below the target. */
  lemma {:induction false} AttemptsBalanced(parse: string -> Option<Url>, sha256: string -> Digest, queries: seq<string>,
                                            world: World, rounds: seq<seq<Candidate>>, p: Progress, n: nat)
    requires n <= |rounds| && (n == 0 || |queries| > 0) && p.log == []
    ensures var s := Attempts(parse, sha256, queries, world, rounds, p, n).0;
      && Balanced(p, s)
      && (p.added <= TargetUrls ==> s.added <= TargetUrls)
  {
    if n > 0 {
      AttemptsBalanced(parse, sha256, queries, world, rounds, p, n - 1);
      var before := Attempts(parse, sha256, queries, world, rounds, p, n - 1).0;
      if before.added < TargetUrls {
        ScanBalanced(parse, sha256, p, Searched(before, world.fetch(n)), rounds[n - 1], AttemptQuery(queries, n), n, world);
        AttemptFrom(parse, sha256, queries, world, rounds, p, n, before);
      }
    }
  }

  /** The log a scan starts from is only extended: the keyspace, the counters
      and the new entries do not depend on it. */
  lemma {:induction false} ScanFrom(parse: string -> Option<Url>, sha256: string -> Digest, p: Progress,
                                    results: seq<Candidate>, query: string, attempt: nat, world: World)
    ensures var s := Scan(parse, sha256, p.(log := []), results, query, attempt, world);
      Scan(parse, sha256, p, results, query, attempt, world) == s.(log := p.log + s.log)
    decreases |results|
  {
    if results != [] {
      var init := results[..|results| - 1];
      ScanFrom(parse, sha256, p, init, query, attempt, world);
      var q := Scan(parse, sha256, p.(log := []), init, query, attempt, world);
      var r := results[|results| - 1];
      if !(q.added >= TargetUrls || r.url == "") {
        var o := Handle(parse, sha256, q.db, r, query, world.candidate(attempt, |results| - 1));
        assert p.log + q.log + [Processed(r.url, o.0)] == p.log + (q.log + [Processed(r.url, o.0)]);
      }
    }
  }

  /** The counters of `p` are those of `base` moved by the entries of its log,
      and the target had not been reached before the last entry. */
  predicate Balanced(base: Progress, p: Progress)
  {
    && p.added == base.added + Tally(p.log, Stored)
    && p.duplicates == base.duplicates + Tally(p.log, Duplicate)
    && p.collected == base.collected + StoredUrls(p.log)
    && BelowTargetBeforeLast(p.log, base.added)
  }

  /** A scan keeps the counters in step with its log, logs at most one entry
      per record, and does not overshoot the target. */
  lemma {:induction false} ScanBalanced(parse: string -> Option<Url>, sha256: string -> Digest, base: Progress, p: Progress,
                                        results: seq<Candidate>, query: string, attempt: nat, world: World)
    requires Balanced(base, p)
    ensures var s := Scan(parse, sha256, p, results, query, attempt, world);
      && Balanced(base, s)
      && |s.log| <= |p.log| + |results|
      && (p.added <= TargetUrls ==> s.added <= TargetUrls)
    decreases |results|
  {
    if results != [] {
      var init := results[..|results| - 1];
      ScanBalanced(parse, sha256, base, p, init, query, attempt, world);
      var q := Scan(parse, sha256, p, init, query, attempt, world);
      var r := results[|results| - 1];
      if !(q.added >= TargetUrls || r.url == "") {
        AccountBalanced(base, q, r.url, Handle(parse, sha256, q.db, r, query, world.candidate(attempt, |results| - 1)));
      }
    }
  }

  /** Once a prefix of the records has brought the count to the target, the
      rest of the records change nothing. */
  lemma {:induction false} ScanStopped(parse: string -> Option<Url>, sha256: string -> Digest, p: Progress,
                                       results: seq<Candidate>, i: nat, query: string, attempt: nat, world: World)
    requires i <= |results|
    requires Scan(parse, sha256, p, results[..i], query, attempt, world).added >= TargetUrls
    ensures Scan(parse, sha256, p, results, query, attempt, world) == Scan(parse, sha256, p, results[..i], query, attempt, world)
    decreases |results|
  {
    if i < |results| {
      var init := results[..|results| - 1];
      assert init[..i] == results[..i];
      ScanStopped(parse, sha256, p, init, i, query, attempt, world);
    } else {
      assert results[..i] == results;
    }
  }

  /** A search never carries the count past the target when it starts at or
      below it. */
  lemma ScanCapped(parse: string -> Option<Url>, sha256: string -> Digest, p: Progress,
                   results: seq<Candidate>, query: string, attempt: nat, world: World)
    requires p.added <= TargetUrls
    ensures Scan(parse, sha256, p, results, query, attempt, world).added <= TargetUrls
  {
    var base := p.(log := []);
    assert base.collected + [] == base.collected;
    ScanBalanced(parse, sha256, base, base, results, query, attempt, world);
    ScanFrom(parse, sha256, p, results, query, attempt, world);
  }

  /** When the first search alone brings the count to the target, the run
      stops after that one search with exactly five new URLs. */
  lemma FirstSearchSuffices(parse: string -> Option<Url>, sha256: string -> Digest, queries: seq<string>,
                            world: World, rounds: seq<seq<Candidate>>, p: Progress, max: nat)
    requires |queries| > 0 && 1 <= max <= |rounds| && p.added < TargetUrls
    requires Attempt(parse, sha256, queries, world, rounds, p, 1).added >= TargetUrls
    ensures var s := Attempt(parse, sha256, queries, world, rounds, p, 1);
      Attempts(parse, sha256, queries, world, rounds, p, max) == (s, 1) && s.added == TargetUrls
  {
    ScanCapped(parse, sha256, Searched(p, world.fetch(1)), rounds[0], AttemptQuery(queries, 1), 1, world);
    AttemptsStay(parse, sha256, queries, world, rounds, p, 1, max);
  }
  /** A URL the keyspace `db` has never seen (neither its fingerprint's lookup
      key nor its normalized form is there), with the keys `store_url` writes
      for it holding the types its commands expect. */
  predicate Unseen(parse: string -> Option<Url>, sha256: string -> Digest, db: Db, url: string)
  {
    var n := Normalized(parse(url), url);
    var h := UrlHash(sha256, parse(url), url);
    !Known(db, n, h) && WellTyped(db, h)
  }

  /** The environment lets a candidate through: the duplicate check's reads
      and the four writes go through, and validation accepts the URL. */
  predicate Smooth(parse: string -> Option<Url>, env: CandidateWorld, url: string)
  {
    env.duplicateCheck == Healthy && env.storage == Healthy && Validate(parse(url), env.head, env.get).accepted
  }

  /** An unseen URL in a smooth environment is stored. */
  lemma HandleStoresUnseen(parse: string -> Option<Url>, sha256: string -> Digest, db: Db,
                           result: Candidate, query: string, env: CandidateWorld)
    requires Unseen(parse, sha256, db, result.url) && Smooth(parse, env, result.url)
    ensures Handle(parse, sha256, db, result, query, env).0 == Stored
  {
    var url := result.url;
    var n := Normalized(parse(url), url);
    var h := UrlHash(sha256, parse(url), url);
    PersistHealthy(db, n, h, Stamp(Metadata(result, query), n, env.collectedAt, h), env.now, Healthy);
  }

  /** Storing an unseen URL in a smooth environment leaves every other unseen
      URL with another fingerprint unseen. */
  lemma HandleKeepsUnseen(parse: string -> Option<Url>, sha256: string -> Digest, db: Db,
                          result: Candidate, query: string, env: CandidateWorld)
    requires Unseen(parse, sha256, db, result.url) && Smooth(parse, env, result.url)
    ensures forall url {:trigger Unseen(parse, sha256, Handle(parse, sha256, db, result, query, env).1, url)} ::
      Unseen(parse, sha256, db, url) && UrlHash(sha256, parse(url), url) != UrlHash(sha256, parse(result.url), result.url) ==>
      Unseen(parse, sha256, Handle(parse, sha256, db, result, query, env).1, url)
  {
    var url := result.url;
    var n := Normalized(parse(url), url);
    var h := UrlHash(sha256, parse(url), url);
    var fields := Stamp(Metadata(result, query), n, env.collectedAt, h);
    PersistHealthy(db, n, h, fields, env.now, Healthy);
    forall url' | Unseen(parse, sha256, db, url') && UrlHash(sha256, parse(url'), url') != h
      ensures Unseen(parse, sha256, AllWritten(db, n, h, fields, env.now), url')
    {
      AllWrittenKeepsOthers(db, n, h, fields, env.now, Normalized(parse(url'), url'), UrlHash(sha256, parse(url'), url'));
    }
  }

  /** Two progresses agree on the counters, the collected URLs and the log. */
  predicate SameCounters(a: Progress, b: Progress)
  {
    a.added == b.added && a.duplicates == b.duplicates && a.collected == b.collected && a.log == b.log
  }

  /** The counters and the log after the first `i` records are stored one
      after another (the keyspace is left as in `p`). */
  function StoredFirst(p: Progress, results: seq<Candidate>, i: nat): Progress
    requires i <= |results|
  {
    if i == 0 then p
    else
      var q := StoredFirst(p, results, i - 1);
      var url := results[i - 1].url;
      q.(added := q.added + 1, collected := q.collected + [url], log := q.log + [Processed(url, Stored)])
  }

  /** Storing the first `i` records adds `i` to the count, logs each of them
      as stored in order, and appends their URLs in order to the collected ones. */
  lemma {:induction false} StoredFirstShape(p: Progress, results: seq<Candidate>, i: nat)
    requires i <= |results|
    ensures var s := StoredFirst(p, results, i);
      && s.db == p.db && s.added == p.added + i && s.duplicates == p.duplicates
      && |s.log| == |p.log| + i && s.log[..|p.log|] == p.log
      && (forall j :: 0 <= j < i ==> s.log[|p.log| + j] == Processed(results[j].url, Stored))
      && |s.collected| == |p.collected| + i && s.collected[..|p.collected|] == p.collected
      && (forall j :: 0 <= j < i ==> s.collected[|p.collected| + j] == results[j].url)
  {
    if i > 0 {
      StoredFirstShape(p, results, i - 1);
    }
  }

  /** The scan of the first `i` records is the scan of the first i-1 followed
      by the loop body for record i-1. */
  lemma ScanLast(parse: string -> Option<Url>, sha256: string -> Digest, p: Progress,
                 results: seq<Candidate>, i: nat, query: string, attempt: nat, world: World)
    requires 0 < i <= |results|
    ensures var q := Scan(parse, sha256, p, results[..i - 1], query, attempt, world);
      var r := results[i - 1];
      Scan(parse, sha256, p, results[..i], query, attempt, world)
        == if q.added >= TargetUrls || r.url == "" then q
           else Account(q, r.url, Handle(parse, sha256, q.db, r, query, world.candidate(attempt, i - 1)))
  {
    assert results[..i][..i - 1] == results[..i - 1];
  }

  /** When the scan has stored the records before record i-1 and that record
      is unseen and smooth, it stores that one too. */
  lemma ScanStoresNext(parse: string -> Option<Url>, sha256: string -> Digest, p: Progress,
                       results: seq<Candidate>, i: nat, query: string, attempt: nat, world: World)
    requires 0 < i <= |results| && p.added + i <= TargetUrls
    requires var q := Scan(parse, sha256, p, results[..i - 1], query, attempt, world);
      && SameCounters(q, StoredFirst(p, results, i - 1)) && results[i - 1].url != ""
      && Unseen(parse, sha256, q.db, results[i - 1].url) && Smooth(parse, world.candidate(attempt, i - 1), results[i - 1].url)
    ensures SameCounters(Scan(parse, sha256, p, results[..i], query, attempt, world), StoredFirst(p, results, i))
  {
    var q := Scan(parse, sha256, p, results[..i - 1], query, attempt, world);
    var r := results[i - 1];
    var o := Handle(parse, sha256, q.db, r, query, world.candidate(attempt, i - 1));
    StoredFirstShape(p, results, i - 1);
    assert q.added < TargetUrls;
    HandleStoresUnseen(parse, sha256, q.db, r, query, world.candidate(attempt, i - 1));
    ScanLast(parse, sha256, p, results, i, query, attempt, world);
    assert Scan(parse, sha256, p, results[..i], query, attempt, world) == Account(q, r.url, o);
  }

  /** Storing record i-1 leaves every unseen URL of another fingerprint
      unseen. */
  lemma ScanKeepsUnseen(parse: string -> Option<Url>, sha256: string -> Digest, p: Progress,
                        results: seq<Candidate>, i: nat, query: string, attempt: nat, world: World)
    requires 0 < i <= |results| && p.added + i <= TargetUrls
    requires var q := Scan(parse, sha256, p, results[..i - 1], query, attempt, world);
      && SameCounters(q, StoredFirst(p, results, i - 1)) && results[i - 1].url != ""
      && Unseen(parse, sha256, q.db, results[i - 1].url) && Smooth(parse, world.candidate(attempt, i - 1), results[i - 1].url)
    ensures var q := Scan(parse, sha256, p, results[..i - 1], query, attempt, world);
      var s := Scan(parse, sha256, p, results[..i], query, attempt, world);
      var url := results[i - 1].url;
      forall u {:trigger Unseen(parse, sha256, s.db, u)} ::
        Unseen(parse, sha256, q.db, u) && UrlHash(sha256, parse(u), u) != UrlHash(sha256, parse(url), url) ==>
        Unseen(parse, sha256, s.db, u)
  {
    var q := Scan(parse, sha256, p, results[..i - 1], query, attempt, world);
    var r, env := results[i - 1], world.candidate(attempt, i - 1);
    StoredFirstShape(p, results, i - 1);
    HandleKeepsUnseen(parse, sha256, q.db, r, query, env);
    ScanLast(parse, sha256, p, results, i, query, attempt, world);
    assert Scan(parse, sha256, p, results[..i], query, attempt, world).db == Handle(parse, sha256, q.db, r, query, env).1;
  }

  /** A scan over records whose first `m` are unseen, pairwise of distinct
      fingerprints and smooth stores each of the first `i` of them in order,
      as long as the count stays at or below the target; the records after
      them are still unseen. */
  lemma {:induction false} ScanStoresUnseen(parse: string -> Option<Url>, sha256: string -> Digest, p: Progress,
                                            results: seq<Candidate>, i: nat, m: nat, query: string, attempt: nat, world: World)
    requires i <= m <= |results| && p.added + i <= TargetUrls
    requires forall j :: 0 <= j < m ==>
      results[j].url != "" && Unseen(parse, sha256, p.db, results[j].url)
      && Smooth(parse, world.candidate(attempt, j), results[j].url)
    requires forall j, k :: 0 <= j < k < m ==>
      UrlHash(sha256, parse(results[j].url), results[j].url) != UrlHash(sha256, parse(results[k].url), results[k].url)
    ensures var s := Scan(parse, sha256, p, results[..i], query, attempt, world);
      && SameCounters(s, StoredFirst(p, results, i))
      && (forall j :: i <= j < m ==> Unseen(parse, sha256, s.db, results[j].url))
  {
    if i == 0 {
      assert results[..i] == [];
    } else {
      ScanStoresUnseen(parse, sha256, p, results, i - 1, m, query, attempt, world);
      ScanStoresNext(parse, sha256, p, results, i, query, attempt, world);
      ScanKeepsUnseen(parse, sha256, p, results, i, query, attempt, world);
    }
  }

  /** A search whose first five records are unseen, of distinct fingerprints
      and smooth, started from a count of zero, stores exactly those five, in
      order, and nothing else. */
  lemma ScanStoresFive(parse: string -> Option<Url>, sha256: string -> Digest, p: Progress,
                       results: seq<Candidate>, query: string, attempt: nat, world: World)
    requires p.added == 0 && |results| >= TargetUrls
    requires forall j :: 0 <= j < TargetUrls ==>
      results[j].url != "" && Unseen(parse, sha256, p.db, results[j].url)
      && Smooth(parse, world.candidate(attempt, j), results[j].url)
    requires forall j, k :: 0 <= j < k < TargetUrls ==>
      UrlHash(sha256, parse(results[j].url), results[j].url) != UrlHash(sha256, parse(results[k].url), results[k].url)
    ensures var s := Scan(parse, sha256, p, results, query, attempt, world);
      && s.added == TargetUrls && s.duplicates == p.duplicates
      && |s.log| == |p.log| + TargetUrls && s.log[..|p.log|] == p.log
      && (forall j :: 0 <= j < TargetUrls ==> s.log[|p.log| + j] == Processed(results[j].url, Stored))
      && |s.collected| == |p.collected| + TargetUrls && s.collected[..|p.collected|] == p.collected
      && (forall j :: 0 <= j < TargetUrls ==> s.collected[|p.collected| + j] == results[j].url)
  {
    ScanStoresUnseen(parse, sha256, p, results, TargetUrls, TargetUrls, query, attempt, world);
    StoredFirstShape(p, results, TargetUrls);
    ScanStopped(parse, sha256, p, results, TargetUrls, query, attempt, world);
  }

  /** The scenario the loop is built for: when the first five records of the
      first search are unseen, of distinct fingerprints and smooth, the run
      stops after that one search, with the progress `ScanStoresFive`
      describes. */
  lemma FiveUnseenStopAfterOneSearch(parse: string -> Option<Url>, sha256: string -> Digest, queries: seq<string>,
                                     world: World, p: Progress, max: nat)
    requires |queries| > 0 && 1 <= max && p.added == 0
    requires var results := AttemptResults(queries, world, 1);
      && |results| >= TargetUrls
      && (forall j :: 0 <= j < TargetUrls ==>
            results[j].url != "" && Unseen(parse, sha256, p.db, results[j].url)
            && Smooth(parse, world.candidate(1, j), results[j].url))
      && (forall j, k :: 0 <= j < k < TargetUrls ==>
            UrlHash(sha256, parse(results[j].url), results[j].url) != UrlHash(sha256, parse(results[k].url), results[k].url))
    ensures var rounds := Rounds(queries, world, max);
      Attempts(parse, sha256, queries, world, rounds, p, max) == (Attempt(parse, sha256, queries, world, rounds, p, 1), 1)
      && Attempts(parse, sha256, queries, world, rounds, p, max).0.added == TargetUrls
  {
    var rounds := Rounds(queries, world, max);
    var results := AttemptResults(queries, world, 1);
    assert rounds[0] == results;
    ScanStoresFive(parse, sha256, Searched(p, world.fetch(1)), results, AttemptQuery(queries, 1), 1, world);
    FirstSearchSuffices(parse, sha256, queries, world, rounds, p, max);
  }
}
