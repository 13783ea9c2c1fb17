/** The candidate source of `search_web` (main.py:203-291): the relevance filter
    over the provider's matches, and the curated fallback used when it yields
    nothing. The provider's response, the clock and the seeded draws of
    `random.sample` are parameters. */
module Search {

  import opened Text

  datatype Candidate = Candidate(url: string, title: string, description: string, source: string)

  /** The provider request: the response status with the decoded `uddg=` matches
      of its body, in order; or an exception. */
  datatype Fetch = Page(status: int, matches: seq<string>) | FetchFailed

  const KeywordCount := 8

  /** Entry k of the relevance keyword list. */
  function RelevanceKeyword(k: int): string
  {
    if k == 0 then "claude"
    else if k == 1 then "anthropic"
    else if k == 2 then "github"
    else if k == 3 then "medium"
    else if k == 4 then "dev.to"
    else if k == 5 then "hackernoon"
    else if k == 6 then "towardsdatascience"
    else "substack"
  }

  /** A keyword occurs anywhere in the lower-cased URL (not only in its host). */
  predicate Relevant(url: string)
  {
    RelevantFrom(Lower(url), 0)
  }

  /** Some keyword from entry k of the list on occurs in `lowered`. */
  predicate RelevantFrom(lowered: string, k: nat)
    decreases KeywordCount - k
  {
    k < KeywordCount && (Contains(lowered, RelevanceKeyword(k)) || RelevantFrom(lowered, k + 1))
  }

  function SearchHit(query: string, url: string): Candidate
  {
    Candidate(url, "Search result for: " + query, "Found via web search", "Web Search")
  }

  /** The matches the filter looks at: those of a 200 response, cut to the
      first `maxResults` before any filtering. */
  function Window(fetch: Fetch, maxResults: nat): (w: seq<string>)
    ensures |w| <= maxResults
    ensures fetch.Page? && fetch.status == 200 ==> w <= fetch.matches && |w| == Min(|fetch.matches|, maxResults)
    ensures !(fetch.Page? && fetch.status == 200) ==> w == []
  {
    if fetch.Page? && fetch.status == 200 then
      if |fetch.matches| <= maxResults then fetch.matches else fetch.matches[..maxResults]
    else []
  }

  /** The relevant matches, in order, as search records. */
  function Hits(query: string, ms: seq<string>): (r: seq<Candidate>)
    ensures |r| <= |ms|
  {
    if ms == [] then []
    else
      var last := ms[|ms| - 1];
      Hits(query, ms[..|ms| - 1]) + (if Relevant(last) then [SearchHit(query, last)] else [])
  }

  /** Every hit is a relevant match of the window, and every relevant match is a hit. */
  lemma {:induction false} HitsIff(query: string, ms: seq<string>)
    ensures forall c :: c in Hits(query, ms) ==> c == SearchHit(query, c.url) && c.url in ms && Relevant(c.url)
    ensures forall u :: u in ms && Relevant(u) ==> SearchHit(query, u) in Hits(query, ms)
  {
    if ms != [] {
      var init := ms[..|ms| - 1];
      HitsIff(query, init);
      assert ms == init + [ms[|ms| - 1]];
    }
  }

  /** The filter keeps the order of the matches: the hits of two stretches
      of matches, one after the other, are the hits of the first stretch
      followed by those of the second. */
  lemma {:induction false} HitsAppend(query: string, a: seq<string>, b: seq<string>)
    ensures Hits(query, a + b) == Hits(query, a) + Hits(query, b)
    decreases |b|
  {
    if b == [] {
      assert a + b == a;
    } else {
      var init := b[..|b| - 1];
      var last := b[|b| - 1];
      var tail := if Relevant(last) then [SearchHit(query, last)] else [];
      HitsAppend(query, a, init);
      assert (a + b)[..|a + b| - 1] == a + init && (a + b)[|a + b| - 1] == last;
      assert Hits(query, a + b) == Hits(query, a + init) + tail;
      assert Hits(query, b) == Hits(query, init) + tail;
    }
  }

  const PoolSize := 15

  /** The fifteen curated URLs, parameterised by the epoch timestamp. */
  function Pool(t: int): (p: seq<string>)
    ensures |p| == PoolSize
  {
    seq(PoolSize, i requires 0 <= i < PoolSize => PoolEntry(i, t))
  }

  /** Entry i of the curated pool: `https://`, a host, then a path that carries
      the timestamp. */
  function PoolEntry(i: nat, t: int): string
    requires i < PoolSize
  {
    "https://" + PoolHost(i) + PoolPath(i, t)
  }

  function PoolHost(i: nat): (host: string)
    requires i < PoolSize
    ensures |host| > 4
  {
    match i
    case 0 => "docs.anthropic.com"
    case 1 => "github.com"
    case 2 => "www.anthropic.com"
    case 3 => "community.anthropic.com"
    case 4 => "news.ycombinator.com"
    case 5 => "reddit.com"
    case 6 => "dev.to"
    case 7 => "medium.com"
    case 8 => "stackoverflow.com"
    case 9 => "twitter.com"
    case 10 => "www.producthunt.com"
    case 11 => "lobste.rs"
    case 12 => "hackernews.algolia.com"
    case 13 => "duckduckgo.com"
    case 14 => "www.youtube.com"
  }

  /** Python's `%` by a positive constant agrees with Dafny's. */
  function PoolPath(i: nat, t: int): string
    requires i < PoolSize
  {
    var ts := IntToString(t);
    match i
    case 0 => "/claude/docs/claude-code-sdk?v=" + ts
    case 1 => "/anthropics/claude-code/discussions?v=" + ts
    case 2 => "/product/claude-code?ref=sdk&v=" + ts
    case 3 => "/c/claude-code/" + IntToString(t % 100)
    case 4 => "/item?id=" + IntToString(30000000 + t % 10000)
    case 5 => "/r/ClaudeAI/comments/claude_code_" + IntToString(t % 1000)
    case 6 => "/t/claude/latest?v=" + ts
    case 7 => "/tag/claude-ai/latest?v=" + ts
    case 8 => "/questions/tagged/claude-code?page=" + IntToString(t % 10 + 1)
    case 9 => "/search?q=claude%20code%20sdk&src=typed_query&f=live&t=" + ts
    case 10 => "/search?q=claude%20code&v=" + ts
    case 11 => "/search?q=claude&what=stories&order=newest&v=" + ts
    case 12 => "/?q=claude%20code&t=" + ts
    case 13 => "/?q=claude+code+sdk+tutorial+" + IntToString(t % 100)
    case 14 => "/results?search_query=claude+code+sdk&sp=CAI%253D&v=" + ts
  }

  /** Two characters of the host that tell the curated URLs apart. */
  function Signature(host: string): (char, char)
    requires |host| > 4
  {
    (host[0], host[4])
  }

  /** Which curated host a signature belongs to; -1 for none. */
  function SignatureIndex(sig: (char, char)): int
  {
    if sig == ('d', '.') then 0
    else if sig == ('g', 'u') then 1
    else if sig == ('w', 'a') then 2
    else if sig == ('c', 'u') then 3
    else if sig == ('n', '.') then 4
    else if sig == ('r', 'i') then 5
    else if sig == ('d', 't') then 6
    else if sig == ('m', 'u') then 7
    else if sig == ('s', 'k') then 8
    else if sig == ('t', 't') then 9
    else if sig == ('w', 'p') then 10
    else if sig == ('l', 't') then 11
    else if sig == ('h', 'e') then 12
    else if sig == ('d', 'd') then 13
    else if sig == ('w', 'y') then 14
    else -1
  }

  lemma SignatureIndexInverse(i: nat)
    requires i < PoolSize
    ensures SignatureIndex(Signature(PoolHost(i))) == i
  {
    var host := PoolHost(i);
    assert SignatureIndex((host[0], host[4])) == i;
  }

  lemma SignaturesDistinct()
    ensures forall i, j :: 0 <= i < j < PoolSize ==> Signature(PoolHost(i)) != Signature(PoolHost(j))
  {
    forall i, j | 0 <= i < j < PoolSize
      ensures Signature(PoolHost(i)) != Signature(PoolHost(j))
    {
      SignatureIndexInverse(i);
      SignatureIndexInverse(j);
    }
  }

  lemma EntryHost(i: nat, t: int)
    requires i < PoolSize
    ensures |PoolEntry(i, t)| > 12 && PoolEntry(i, t)[8..13] == PoolHost(i)[..5]
  {
    var h := PoolHost(i);
    var pre := "https://";
    assert |pre| == 8;
    assert (pre + h + PoolPath(i, t))[8..13] == h[..5];
  }

  /** The curated URLs are pairwise distinct, whatever the timestamp. */
  lemma PoolDistinct(t: int)
    ensures forall i, j :: 0 <= i < j < PoolSize ==> Pool(t)[i] != Pool(t)[j]
  {
    SignaturesDistinct();
    forall i, j | 0 <= i < j < PoolSize
      ensures Pool(t)[i] != Pool(t)[j]
    {
      EntryHost(i, t);
      EntryHost(j, t);
      var hi, hj := PoolHost(i), PoolHost(j);
      assert hi[0] == hi[..5][0] && hi[4] == hi[..5][4];
      assert hj[0] == hj[..5][0] && hj[4] == hj[..5][4];
    }
  }

  /** The `randbelow` results of a seeded `random.sample` over the pool: the
      i-th pick is drawn below the number of entries still in play. With 15
      entries `random.sample` always takes its list-based path. */
  ghost predicate IsDraws(d: seq<nat>)
  {
    && |d| == PoolSize
    && (forall i :: 0 <= i < |d| ==> d[i] < PoolSize - i)
  }

  type Draws = d: seq<nat> | IsDraws(d) witness seq(PoolSize, i => 0)

  /** `random.sample`'s selection loop over a list: take the entry at the
      drawn position, then move the last live entry into its place. */
  function Picks(pool: seq<string>, draws: seq<nat>): (r: seq<string>)
    requires |draws| <= |pool|
    requires forall i :: 0 <= i < |draws| ==> draws[i] < |pool| - i
    ensures |r| == |draws|
    decreases |draws|
  {
    if draws == [] then []
    else
      var j, last := draws[0], |pool| - 1;
      [pool[j]] + Picks(pool[j := pool[last]][..last], draws[1..])
  }

  /** Drawn from a list without repeats, the picks are entries of that list
      and pairwise distinct. */
  lemma {:induction false} PicksDistinct(pool: seq<string>, draws: seq<nat>)
    requires |draws| <= |pool|
    requires forall i :: 0 <= i < |draws| ==> draws[i] < |pool| - i
    requires forall i, j :: 0 <= i < j < |pool| ==> pool[i] != pool[j]
    ensures forall k :: 0 <= k < |draws| ==> Picks(pool, draws)[k] in pool
    ensures forall i, j :: 0 <= i < j < |draws| ==> Picks(pool, draws)[i] != Picks(pool, draws)[j]
    decreases |draws|
  {
    if draws != [] {
      var j, last := draws[0], |pool| - 1;
      var rest := pool[j := pool[last]][..last];
      // Every live entry is an entry of the list at a position other than j.
      assert forall a :: 0 <= a < |rest| ==> rest[a] == pool[if a == j then last else a];
      forall a, b | 0 <= a < b < |rest|
        ensures rest[a] != rest[b]
      {
        var pa, pb := if a == j then last else a, if b == j then last else b;
        assert rest[a] == pool[pa] && rest[b] == pool[pb] && pa != pb;
      }
      forall a | 0 <= a < |rest|
        ensures rest[a] in pool && rest[a] != pool[j]
      {
        var pa := if a == j then last else a;
        assert rest[a] == pool[pa] && pa != j;
      }
      PicksDistinct(rest, draws[1..]);
      var tail := Picks(rest, draws[1..]);
      var r := Picks(pool, draws);
      assert r == [pool[j]] + tail;
      forall k | 0 <= k < |tail|
        ensures tail[k] in pool && tail[k] != pool[j]
      {
        assert tail[k] in rest;
      }
      forall a, b | 0 <= a < b < |r|
        ensures r[a] != r[b]
      {
        if a == 0 {
          assert r[b] == tail[b - 1];
        } else {
          assert r[a] == tail[a - 1] && r[b] == tail[b - 1];
        }
      }
    }
  }

  function Min(a: nat, b: nat): nat
  {
    if a <= b then a else b
  }

  function CuratedHit(url: string, idx: nat): Candidate
  {
    Candidate(url, "Claude Code SDK Resource #" + NatToString(idx + 1),
              "Curated source for Claude Code SDK content", "Curated Sources")
  }

  /** `random.sample(fallback_sources, min(max_results, 15))`. */
  function Sample(t: int, draws: Draws, maxResults: nat): (s: seq<string>)
    ensures |s| == Min(maxResults, PoolSize)
  {
    Picks(Pool(t), draws[..Min(maxResults, PoolSize)])
  }

  /** Curated records for the given URLs, numbered from 1 in order. */
  function Numbered(s: seq<string>): (r: seq<Candidate>)
    ensures |r| == |s|
  {
    seq(|s|, j requires 0 <= j < |s| => CuratedHit(s[j], j))
  }

  /** The fallback records, numbered from 1 in sample order. */
  function Fallback(t: int, draws: Draws, maxResults: nat): (r: seq<Candidate>)
    ensures |r| == Min(maxResults, PoolSize)
  {
    Numbered(Sample(t, draws, maxResults))
  }

  /** The fallback records carry pairwise distinct URLs of the pool. */
  lemma FallbackUrlsDistinct(t: int, draws: Draws, maxResults: nat)
    ensures var r := Fallback(t, draws, maxResults);
      && (forall j :: 0 <= j < |r| ==> r[j].url in Pool(t))
      && (forall i, j :: 0 <= i < j < |r| ==> r[i].url != r[j].url)
  {
    PoolDistinct(t);
    var s := Sample(t, draws, maxResults);
    PicksDistinct(Pool(t), draws[..|s|]);
    var r := Fallback(t, draws, maxResults);
    forall j | 0 <= j < |r|
      ensures r[j].url == s[j]
    {
    }
  }

  /** Titles numbered by position are distinct. */
  lemma CuratedTitlesDistinct(u: string, v: string, i: nat, j: nat)
    requires i != j
    ensures CuratedHit(u, i).title != CuratedHit(v, j).title
  {
    var prefix := "Claude Code SDK Resource #";
    if CuratedHit(u, i).title == CuratedHit(v, j).title {
      assert (prefix + NatToString(i + 1))[|prefix|..] == NatToString(i + 1);
      assert (prefix + NatToString(j + 1))[|prefix|..] == NatToString(j + 1);
      NatToStringInjective(i + 1, j + 1);
    }
  }

  /** The fallback yields min(max_results, 15) distinct curated URLs, with
      distinct titles `#1` to `#n`, all labelled as curated. */
  lemma FallbackShape(t: int, draws: Draws, maxResults: nat)
    ensures var r := Fallback(t, draws, maxResults);
      && |r| == Min(maxResults, PoolSize)
      && (forall j :: 0 <= j < |r| ==> r[j].url in Pool(t) && r[j] == CuratedHit(r[j].url, j))
      && (forall i, j :: 0 <= i < j < |r| ==> r[i].url != r[j].url && r[i].title != r[j].title)
  {
    FallbackUrlsDistinct(t, draws, maxResults);
    var r := Fallback(t, draws, maxResults);
    forall i, j | 0 <= i < j < |r|
      ensures r[i].title != r[j].title
    {
      CuratedTitlesDistinct(r[i].url, r[j].url, i, j);
    }
  }

  /** `search_web`'s result, as a function of what the provider, the clock and
      the seeded draws gave. */
  function SearchResults(query: string, fetch: Fetch, t: int, draws: Draws, maxResults: nat): seq<Candidate>
  {
    var hits := Hits(query, Window(fetch, maxResults));
    if hits != [] then hits else Fallback(t, draws, maxResults)
  }

  /** At most `max_results` records; the search path's records are relevant
      matches among the first `max_results`; the fallback is used exactly when
      the search path found nothing. */
  lemma {:induction false} SearchResultsShape(query: string, fetch: Fetch, t: int, draws: Draws, maxResults: nat)
    ensures var r := SearchResults(query, fetch, t, draws, maxResults);
      var w := Window(fetch, maxResults);
      && |r| <= maxResults
      && (Hits(query, w) != [] ==> forall c :: c in r ==> c.url in w && Relevant(c.url) && c.source == "Web Search")
      && (Hits(query, w) == [] <==> (r == [] || r[0].source == "Curated Sources"))
  {
    var w := Window(fetch, maxResults);
    HitsIff(query, w);
    var r := SearchResults(query, fetch, t, draws, maxResults);
    if Hits(query, w) != [] {
      assert r[0] in Hits(query, w);
    } else {
      FallbackShape(t, draws, maxResults);
    }
  }
}
