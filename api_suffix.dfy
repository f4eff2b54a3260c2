/**
 * The one string rewrite of the factory: `baseURL.replace(/\/api$/, '')`.
 *
 * `String.prototype.replace` with a regular expression that has no `g` flag
 * searches for the LEFTMOST match and replaces only that one. The pattern
 * `/\/api$/` is the literal `/api` followed by the anchor `$`, which (without
 * the `m` flag) matches only at the very end of the input. The search is
 * modelled as it is run, position by position from the left; the lemmas
 * then characterise the result as "drop one trailing `/api`".
 */
module ApiSuffix {
  import opened Wrappers

  /** The literal part of the pattern. */
  const Suffix: string := "/api"

  /** The pattern `/\/api$/` matches at position `i` of `s`: `/api` starts at `i` and ends the input. */
  predicate MatchesAt(s: string, i: nat)
  {
    i <= |s| && s[i..] == Suffix
  }

  /** `s` ends with the four characters `/api`. */
  predicate EndsWithApi(s: string)
  {
    |s| >= |Suffix| && s[|s| - |Suffix|..] == Suffix
  }

  /**
   * The leftmost position at or after `i` where the pattern matches, scanning
   * left to right as a regular-expression search does (the empty tail at
   * position |s| is tried too).
   */
  function FirstMatchFrom(s: string, i: nat): (r: Option<nat>)
    requires i <= |s|
    ensures r.Some? ==> i <= r.value <= |s| && MatchesAt(s, r.value)
    ensures forall j :: i <= j <= |s| && (r.None? || j < r.value) ==> !MatchesAt(s, j)
    decreases |s| - i
  {
    if MatchesAt(s, i) then Some(i)
    else if i == |s| then None
    else FirstMatchFrom(s, i + 1)
  }

  /** `s.replace(/\/api$/, '')`: only the leftmost match is removed. */
  function RemoveFirstMatch(s: string): string
  {
    match FirstMatchFrom(s, 0)
    case None => s
    case Some(i) => s[..i] + s[i + |Suffix|..]
  }

  /** The pattern can only ever match at one place: four characters before the end. */
  lemma MatchOnlyAtEnd(s: string, i: nat)
    ensures MatchesAt(s, i) <==> EndsWithApi(s) && i == |s| - |Suffix|
  {
  }

  /**
   * The Ollama base URL rewrite. When the URL ends with `/api`, the result is
   * the URL with exactly that one `/api` removed; otherwise the URL is
   * returned unchanged.
   */
  function StripApiSuffix(url: string): (r: string)
    ensures EndsWithApi(url) ==> r + Suffix == url && |r| == |url| - |Suffix|
    ensures !EndsWithApi(url) ==> r == url
  {
    var r := RemoveFirstMatch(url);
    if EndsWithApi(url) then
      var k := |url| - |Suffix|;
      MatchOnlyAtEnd(url, k);
      assert FirstMatchFrom(url, 0) == Some(k) by {
        var m := FirstMatchFrom(url, 0);
        if m.Some? { MatchOnlyAtEnd(url, m.value); }
      }
      assert r == url[..k];
      r
    else
      assert FirstMatchFrom(url, 0).None? by {
        var m := FirstMatchFrom(url, 0);
        if m.Some? { MatchOnlyAtEnd(url, m.value); }
      }
      r
  }

  /** Appending `/api` and stripping gives back the original, even if it already ended with `/api`. */
  lemma StripUndoesAppend(u: string)
    ensures StripApiSuffix(u + Suffix) == u
  {
  }

  /** Only one trailing occurrence goes: `h/api/api` becomes `h/api`. */
  lemma StripRemovesOnlyOne(h: string)
    ensures StripApiSuffix(h + Suffix + Suffix) == h + Suffix
  {
  }

  /** A trailing `/api/` is not the pattern: such a URL is left unchanged. */
  lemma StripKeepsTrailingSlash(u: string)
    ensures StripApiSuffix(u + Suffix + "/") == u + Suffix + "/"
  {
    var s := u + Suffix + "/";
    assert s[|s| - 1] == '/';
  }

  /** The result is always a prefix of the input and never longer. */
  lemma StripIsPrefix(url: string)
    ensures |StripApiSuffix(url)| <= |url|
    ensures StripApiSuffix(url) == url[..|StripApiSuffix(url)|]
  {
  }
}
