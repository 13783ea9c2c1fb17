/** The fingerprint of `get_url_hash` (main.py:108-111): the first 16 hex
    characters of the SHA-256 digest of the normalized URL. */
module Fingerprints {

  import opened Wrappers
  import opened Urls

  predicate IsHexDigit(c: char)
  {
    '0' <= c <= '9' || 'a' <= c <= 'f'
  }

  predicate IsHex(s: string)
  {
    forall i :: 0 <= i < |s| ==> IsHexDigit(s[i])
  }

  /** What `hashlib.sha256(...).hexdigest()` returns: 64 lower-case hex characters.
      The hash function itself is a parameter of the model. */
  type Digest = s: string | |s| == 64 && IsHex(s)
    witness seq(64, _ => '0')

  const FingerprintLength := 16

  /** `hexdigest()[:16]`. */
  function Fingerprint(d: Digest): (h: string)
    ensures |h| == FingerprintLength && IsHex(h)
    ensures h <= d
  {
    d[..FingerprintLength]
  }

  /** `get_url_hash` without its error side effect: the fingerprint of the normalized URL. */
  function UrlHash(sha256: string -> Digest, parsed: Option<Url>, raw: string): (h: string)
    ensures |h| == FingerprintLength && IsHex(h)
    ensures h <= sha256(Normalized(parsed, raw))
  {
    Fingerprint(sha256(Normalized(parsed, raw)))
  }
}
