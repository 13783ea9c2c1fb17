/** String helpers with the meaning of the Python string operations the
    collector uses: `str.lower`, `str.startswith`, `in` on strings,
    `str.rstrip('/')` and `str(int)`. */
module Text {

  /** ASCII lower-casing of one character. */
  function LowerChar(c: char): char
  {
    if 'A' <= c <= 'Z' then (c as int + 32) as char else c
  }

  predicate IsLowerChar(c: char)
  {
    !('A' <= c <= 'Z')
  }

  /** `s.lower()`, restricted to ASCII letters. */
  function Lower(s: string): (r: string)
  {
    seq(|s|, i requires 0 <= i < |s| => LowerChar(s[i]))
  }

  predicate IsLower(s: string)
  {
    forall i :: 0 <= i < |s| ==> IsLowerChar(s[i])
  }

  /** Lower-casing yields a lower-case string and leaves one unchanged. */
  lemma LowerIsLower(s: string)
    ensures IsLower(Lower(s))
    ensures IsLower(s) ==> Lower(s) == s
  {
  }

  /** `s.startswith(p)`. */
  predicate StartsWith(s: string, p: string)
  {
    |p| <= |s| && s[..|p|] == p
  }

  /** `t in s`: t occurs in s as a contiguous substring. */
  predicate Contains(s: string, t: string)
    decreases |s|
  {
    StartsWith(s, t) || (s != [] && Contains(s[1..], t))
  }

  lemma StartsWithContains(s: string, t: string)
    requires StartsWith(s, t)
    ensures Contains(s, t)
  {
  }

  /** The positional definition of a substring occurrence. */
  ghost predicate OccursAt(s: string, t: string, i: int)
  {
    0 <= i && i + |t| <= |s| && s[i..i + |t|] == t
  }

  /** `Contains` agrees with the positional definition, in both directions. */
  lemma {:induction false} ContainsIff(s: string, t: string)
    ensures Contains(s, t) <==> exists i :: OccursAt(s, t, i)
    decreases |s|
  {
    if StartsWith(s, t) {
      assert OccursAt(s, t, 0);
    } else if s != [] {
      ContainsIff(s[1..], t);
      if exists i :: OccursAt(s[1..], t, i) {
        var i :| OccursAt(s[1..], t, i);
        assert s[1..][i..i + |t|] == s[i + 1..i + 1 + |t|];
        assert OccursAt(s, t, i + 1);
      }
      if exists i :: OccursAt(s, t, i) {
        var i :| OccursAt(s, t, i);
        assert i != 0;
        assert s[1..][i - 1..i - 1 + |t|] == s[i..i + |t|];
        assert OccursAt(s[1..], t, i - 1);
      }
    }
  }

  predicate EndsWithSlash(s: string)
  {
    s != [] && s[|s| - 1] == '/'
  }

  /** p is q followed by nothing but slashes. */
  ghost predicate SlashPadded(p: string, q: string)
  {
    |q| <= |p| && p[..|q|] == q && forall i :: |q| <= i < |p| ==> p[i] == '/'
  }

  /** `s.rstrip('/')`: every trailing slash is removed, not only one. */
  function RStripSlash(s: string): (r: string)
    ensures !EndsWithSlash(r)
    ensures SlashPadded(s, r)
    decreases |s|
  {
    if EndsWithSlash(s) then RStripSlash(s[..|s| - 1]) else s
  }

  /** Stripping is determined by what remains once the slashes are gone:
      a string padded with slashes strips to the same result. */
  lemma {:induction false} RStripSlashPadded(p: string, q: string)
    requires SlashPadded(p, q)
    ensures RStripSlash(p) == RStripSlash(q)
    decreases |p|
  {
    if |p| > |q| {
      assert EndsWithSlash(p);
      assert SlashPadded(p[..|p| - 1], q) by {
        assert p[..|p| - 1][..|q|] == p[..|q|];
      }
      RStripSlashPadded(p[..|p| - 1], q);
    } else {
      assert p == q;
    }
  }

  /** Two strings with the same stripped form are slash paddings of one another. */
  lemma RStripSlashSameIff(p: string, q: string)
    ensures RStripSlash(p) == RStripSlash(q) <==> (SlashPadded(p, q) || SlashPadded(q, p))
  {
    if RStripSlash(p) == RStripSlash(q) {
      var r := RStripSlash(p);
      assert SlashPadded(p, r) && SlashPadded(q, r);
      if |q| <= |p| {
        assert p[..|q|] == q by {
          forall i | 0 <= i < |q|
            ensures p[i] == q[i]
          {
            if i < |r| {
              assert p[..|r|][i] == q[..|r|][i];
            }
          }
        }
      } else {
        assert q[..|p|] == p by {
          forall i | 0 <= i < |p|
            ensures q[i] == p[i]
          {
            if i < |r| {
              assert p[..|r|][i] == q[..|r|][i];
            }
          }
        }
      }
    }
    if SlashPadded(p, q) {
      RStripSlashPadded(p, q);
    }
    if SlashPadded(q, p) {
      RStripSlashPadded(q, p);
    }
  }

  function DigitChar(d: nat): char
    requires d < 10
  {
    "0123456789"[d]
  }

  predicate IsDigitChar(c: char)
  {
    '0' <= c <= '9'
  }

  /** `str(n)` for a natural number. */
  function NatToString(n: nat): (r: string)
    ensures r != []
    ensures forall i :: 0 <= i < |r| ==> IsDigitChar(r[i])
    decreases n
  {
    if n < 10 then [DigitChar(n)] else NatToString(n / 10) + [DigitChar(n % 10)]
  }

  /** `str(i)` for any integer. */
  function IntToString(i: int): string
  {
    if i < 0 then "-" + NatToString(-i) else NatToString(i)
  }

  /** The value of a string of decimal digits, the inverse of `NatToString`. */
  function DecimalValue(s: string): int
    requires forall i :: 0 <= i < |s| ==> IsDigitChar(s[i])
  {
    if s == [] then 0 else 10 * DecimalValue(s[..|s| - 1]) + (s[|s| - 1] as int - '0' as int)
  }

  /** Reading back the decimal form of n gives n. */
  lemma {:induction false} DecimalRoundTrip(n: nat)
    ensures DecimalValue(NatToString(n)) == n
    decreases n
  {
    var s := NatToString(n);
    if n >= 10 {
      DecimalRoundTrip(n / 10);
      assert s[..|s| - 1] == NatToString(n / 10);
    }
  }

  /** Distinct naturals have distinct decimal forms. */
  lemma NatToStringInjective(m: nat, n: nat)
    requires NatToString(m) == NatToString(n)
    ensures m == n
  {
    DecimalRoundTrip(m);
    DecimalRoundTrip(n);
  }
}
