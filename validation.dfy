/** The validator of `validate_url` (main.py:130-169): a structure check, the
    trusted-domain short cut, then a HEAD probe with a GET retry on 405.
    The network is a parameter: the outcome each probe would have. */
module Validation {

  import opened Wrappers
  import opened Text
  import opened Urls

  /** What one `requests` call yields: a response status, `requests.Timeout`,
      or any other exception. */
  datatype Probe = Status(code: int) | Timeout | Failure

  /** The decision, and how many HTTP requests were issued to reach it. */
  datatype Verdict = Verdict(accepted: bool, requests: nat)

  const TrustedCount := 13

  /** Entry k of the trusted-domain list. */
  function TrustedDomain(k: int): string
  {
    if k == 0 then "anthropic.com"
    else if k == 1 then "claude.ai"
    else if k == 2 then "docs.anthropic.com"
    else if k == 3 then "github.com"
    else if k == 4 then "medium.com"
    else if k == 5 then "dev.to"
    else if k == 6 then "hackernoon.com"
    else if k == 7 then "stackoverflow.com"
    else if k == 8 then "reddit.com"
    else if k == 9 then "twitter.com"
    else if k == 10 then "youtube.com"
    else if k == 11 then "producthunt.com"
    else "news.ycombinator.com"
  }

  const MethodNotAllowed := 405

  /** A trusted-domain string occurs anywhere in the lower-cased host. */
  predicate Trusted(netloc: string)
  {
    TrustedFrom(Lower(netloc), 0)
  }

  /** Some domain from entry k of the list on occurs in `lowered`. */
  predicate TrustedFrom(lowered: string, k: nat)
    decreases TrustedCount - k
  {
    k < TrustedCount && (Contains(lowered, TrustedDomain(k)) || TrustedFrom(lowered, k + 1))
  }

  predicate Malformed(u: Url)
  {
    u.scheme == "" || u.netloc == ""
  }

  /** The status the probing ends with: HEAD's, or GET's when HEAD answered 405;
      None when the deciding request timed out or failed. */
  function FinalStatus(head: Probe, get: Probe): Option<int>
  {
    match head
    case Status(c) =>
      if c != MethodNotAllowed then Some(c)
      else if get.Status? then Some(get.code) else None
    case _ => None
  }

  /** `validate_url`. A failure of `urlparse` itself lands in the generic
      handler, which accepts. */
  function Validate(parsed: Option<Url>, head: Probe, get: Probe): (v: Verdict)
    ensures v.requests <= 2
  {
    match parsed
    case None => Verdict(true, 0)
    case Some(u) =>
      if Malformed(u) then Verdict(false, 0)
      else if Trusted(u.netloc) then Verdict(true, 0)
      else
        match head
        case Timeout => Verdict(true, 1)
        case Failure => Verdict(true, 1)
        case Status(c) =>
          if c != MethodNotAllowed then Verdict(c < 400, 1)
          else
            match get
            case Timeout => Verdict(true, 2)
            case Failure => Verdict(true, 2)
            case Status(c2) => Verdict(c2 < 400, 2)
  }

  /** A URL is rejected exactly when it parses with an empty scheme or host,
      or when it is untrusted and the probing ends on a status of 400 or more; a
      timeout or failure of the deciding request accepts. No request is issued
      for an unparsable, malformed or trusted URL, and the GET retry exactly
      when HEAD answers 405. */
  lemma ValidateVerdict(parsed: Option<Url>, head: Probe, get: Probe)
    ensures !Validate(parsed, head, get).accepted <==>
      (parsed.Some? && (Malformed(parsed.value) ||
        (!Trusted(parsed.value.netloc) && FinalStatus(head, get).Some? && FinalStatus(head, get).value >= 400)))
    ensures Validate(parsed, head, get).requests == 0 <==>
      (parsed.None? || Malformed(parsed.value) || Trusted(parsed.value.netloc))
    ensures Validate(parsed, head, get).requests == 2 <==>
      (parsed.Some? && !Malformed(parsed.value) && !Trusted(parsed.value.netloc) && head == Status(MethodNotAllowed))
    ensures parsed.Some? && !Malformed(parsed.value) && Trusted(parsed.value.netloc) ==>
      Validate(parsed, head, get) == Verdict(true, 0)
    ensures parsed.Some? && !Malformed(parsed.value) && FinalStatus(head, get).None? ==>
      Validate(parsed, head, get).accepted
  {
  }

  /** A `github.com` URL is accepted without any request, whatever the network would do. */
  lemma GithubShortCut(head: Probe, get: Probe)
    ensures Validate(Some(Url("https", "github.com", "/anthropics", "", "", "")), head, get) == Verdict(true, 0)
  {
    assert Lower("github.com") == "github.com";
    assert Contains("github.com", TrustedDomain(3));
  }

  /** The trusted test is a substring test: a host that merely contains a
      trusted name is accepted without any request as well. */
  lemma SubstringShortCut(head: Probe, get: Probe)
    ensures Validate(Some(Url("https", "github.com.example.net", "", "", "", "")), head, get) == Verdict(true, 0)
  {
    var host := "github.com.example.net";
    assert Lower(host) == host;
    assert host[..10] == TrustedDomain(3);
    StartsWithContains(host, TrustedDomain(3));
  }
}
