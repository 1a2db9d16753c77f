/** The rewrite of the database URL for the asynchronous driver: a URL with
    the plain PostgreSQL scheme gets the asyncpg scheme instead. */
module DbUrl {
  import opened Common

  const Scheme := "postgresql://"
  const AsyncScheme := "postgresql+asyncpg://"

  /** `pattern` occurs in `s` at index k. */
  predicate OccursAt(s: string, pattern: string, k: nat) {
    k + |pattern| <= |s| && s[k..k + |pattern|] == pattern
  }

  /** Dropping the first character moves every occurrence one place left. */
  lemma OccursShifted(s: string, pattern: string, j: nat)
    requires |s| > 0
    ensures OccursAt(s[1..], pattern, j) <==> OccursAt(s, pattern, j + 1)
  {
    if j + |pattern| <= |s[1..]| {
      assert s[1..][j..j + |pattern|] == s[j + 1..j + 1 + |pattern|];
    }
  }

  /** `s.replace(pattern, replacement, 1)` for a non-empty pattern: the
      leftmost occurrence is replaced, and only that one. */
  function ReplaceFirst(s: string, pattern: string, replacement: string): string
    requires |pattern| > 0
  {
    if |s| < |pattern| then s
    else if s[..|pattern|] == pattern then replacement + s[|pattern|..]
    else [s[0]] + ReplaceFirst(s[1..], pattern, replacement)
  }

  /** Without an occurrence at the front, the first character is kept and
      the search goes on in the rest. */
  lemma ReplaceFirstStep(s: string, pattern: string, replacement: string)
    requires |pattern| > 0 && |s| >= |pattern| && !OccursAt(s, pattern, 0)
    ensures ReplaceFirst(s, pattern, replacement) == [s[0]] + ReplaceFirst(s[1..], pattern, replacement)
  {
    assert s[..|pattern|] == s[0..|pattern|];
  }

  /** No occurrence before k in s means none before k - 1 in the rest. */
  lemma NoEarlierShifted(s: string, pattern: string, k: nat)
    requires 0 < k <= |s| && forall j: nat :: j < k ==> !OccursAt(s, pattern, j)
    ensures forall j: nat :: j < k - 1 ==> !OccursAt(s[1..], pattern, j)
  {
    forall j: nat | j < k - 1 ensures !OccursAt(s[1..], pattern, j) {
      OccursShifted(s, pattern, j);
    }
  }

  /** Putting the first character back in front of a cut of the rest. */
  lemma ConsSlices(s: string, k: nat, m: nat, r: string)
    requires 0 < k <= m <= |s|
    ensures [s[0]] + (s[1..][..k - 1] + r + s[1..][m - 1..]) == s[..k] + r + s[m..]
  {
    assert s[..k] == [s[0]] + s[1..][..k - 1];
    assert s[m..] == s[1..][m - 1..];
  }

  /** Reference definition: the leftmost occurrence is replaced, and the
      text before it and everything after it, later occurrences included,
      are kept as they were. */
  lemma {:induction false} ReplaceFirstLeftmost(s: string, pattern: string, replacement: string, k: nat)
    requires |pattern| > 0
    requires OccursAt(s, pattern, k) && forall j: nat :: j < k ==> !OccursAt(s, pattern, j)
    ensures ReplaceFirst(s, pattern, replacement) == s[..k] + replacement + s[k + |pattern|..]
  {
    if k > 0 {
      var t := s[1..];
      ReplaceFirstStep(s, pattern, replacement);
      OccursShifted(s, pattern, k - 1);
      NoEarlierShifted(s, pattern, k);
      ReplaceFirstLeftmost(t, pattern, replacement, k - 1);
      ConsSlices(s, k, k + |pattern|, replacement);
    } else {
      assert s[..|pattern|] == s[0..|pattern|];
      assert s[..0] + replacement == replacement;
    }
  }

  /** Without an occurrence the string is unchanged. */
  lemma {:induction false} ReplaceFirstAbsent(s: string, pattern: string, replacement: string)
    requires |pattern| > 0
    requires forall j: nat :: !OccursAt(s, pattern, j)
    ensures ReplaceFirst(s, pattern, replacement) == s
  {
    if |s| >= |pattern| {
      assert !OccursAt(s, pattern, 0);
      assert s[..|pattern|] == s[0..|pattern|];
      forall j: nat ensures !OccursAt(s[1..], pattern, j) {
        OccursShifted(s, pattern, j);
      }
      ReplaceFirstAbsent(s[1..], pattern, replacement);
      assert s == [s[0]] + s[1..];
    }
  }

  /** The module-level rewrite of `DATABASE_URL` (None when unset). */
  function Rewrite(url: Option<string>): Option<string> {
    if url.Some? && Truthy(url.value) && StartsWith(url.value, Scheme)
    then Some(ReplaceFirst(url.value, Scheme, AsyncScheme))
    else url
  }

  /** A URL with the plain scheme gets the asyncpg scheme and keeps the rest
      as it was, even when the rest contains the plain scheme again. */
  lemma RewriteScheme(url: string)
    requires StartsWith(url, Scheme)
    ensures Rewrite(Some(url)) == Some(AsyncScheme + url[|Scheme|..])
  {
  }

  /** An unset URL, or one with another scheme, is left as it is. */
  lemma RewriteOtherwiseUnchanged(url: Option<string>)
    requires url.None? || !StartsWith(url.value, Scheme)
    ensures Rewrite(url) == url
  {
  }

  /** The rewritten URL no longer has the plain scheme, so rewriting again
      changes nothing. */
  lemma RewriteIdempotent(url: Option<string>)
    ensures Rewrite(Rewrite(url)) == Rewrite(url)
    ensures Rewrite(url).Some? && StartsWith(url.value, Scheme) ==> !StartsWith(Rewrite(url).value, Scheme)
  {
    if url.Some? && StartsWith(url.value, Scheme) {
      var r := AsyncScheme + url.value[|Scheme|..];
      assert r[10] == '+' && Scheme[10] == ':';
      assert !StartsWith(r, Scheme);
    }
  }

  /** The plain scheme appearing twice is replaced once. */
  lemma OnlyFirstOccurrence(rest: string)
    ensures Rewrite(Some(Scheme + Scheme + rest)) == Some(AsyncScheme + Scheme + rest)
  {
    var url := Scheme + Scheme + rest;
    assert url == Scheme + (Scheme + rest);
    assert url[..|Scheme|] == Scheme;
    assert url[|Scheme|..] == Scheme + rest;
    RewriteScheme(url);
    assert AsyncScheme + (Scheme + rest) == AsyncScheme + Scheme + rest;
  }
}
