/** `formatLensImageURL`: rewrites a `lens://<hash>` locator to the storage gateway. */
module UrlHelper {
  import opened Lens

  const LensScheme := "lens://"
  /** The Lens storage gateway, `https://storage-api.testnet.lens.dev/content/lens/`. */
  // Written as two literals so that its leading `https://` is visible to the verifier.
  const Gateway := "https://" + "storage-api.testnet.lens.dev/content/lens/"

  predicate MatchAt(s: string, pattern: string, i: nat)
  {
    i + |pattern| <= |s| && s[i..i + |pattern|] == pattern
  }

  /** The first position at or after `from` where `pattern` occurs in `s`. */
  function IndexOf(s: string, pattern: string, from: nat): (r: Option<nat>)
    requires from <= |s|
    ensures r.Some? ==> from <= r.value && MatchAt(s, pattern, r.value)
    ensures r.Some? ==> forall j :: from <= j < r.value ==> !MatchAt(s, pattern, j)
    ensures r.None? ==> forall j :: from <= j <= |s| ==> !MatchAt(s, pattern, j)
    decreases |s| - from
  {
    if MatchAt(s, pattern, from) then Some(from)
    else if from == |s| then None
    else IndexOf(s, pattern, from + 1)
  }

  /** `replace` with a string pattern: without an occurrence the string is unchanged;
      otherwise the first occurrence alone is replaced and the rest is kept in place. */
  function ReplaceFirst(s: string, pattern: string, replacement: string): (r: string)
    ensures (forall j :: 0 <= j <= |s| ==> !MatchAt(s, pattern, j)) ==> r == s
    ensures forall i :: 0 <= i <= |s| && MatchAt(s, pattern, i) && (forall j :: 0 <= j < i ==> !MatchAt(s, pattern, j)) ==>
              |r| == |s| - |pattern| + |replacement| && r[..i] == s[..i] &&
              r[i..i + |replacement|] == replacement && r[i + |replacement|..] == s[i + |pattern|..]
  {
    match IndexOf(s, pattern, 0)
    case None => s
    case Some(i) => s[..i] + replacement + s[i + |pattern|..]
  }

  /** When `s` starts with the pattern, the first occurrence is that prefix, so
      `replace` drops exactly the prefix and keeps any later occurrence. */
  lemma ReplaceLeading(s: string, pattern: string, replacement: string)
    requires StartsWith(s, pattern)
    ensures ReplaceFirst(s, pattern, replacement) == replacement + s[|pattern|..]
  {
    assert MatchAt(s, pattern, 0);
  }

  /** `null` and `''` give `undefined`; a `lens://` locator gives the gateway URL of the text
      after the scheme; any other URL is returned as it is. */
  function FormatLensImageUrl(url: Option<string>): (r: Option<string>)
    ensures !Present(url) ==> r.None?
    ensures Present(url) && StartsWith(url.value, LensScheme) ==> r == Some(Gateway + url.value[|LensScheme|..])
    ensures Present(url) && !StartsWith(url.value, LensScheme) ==> r == url
    ensures r.Some? ==> r.value != "" && !StartsWith(r.value, LensScheme)
  {
    if !Present(url) then None
    else if StartsWith(url.value, LensScheme) then
      ReplaceLeading(url.value, LensScheme, "");
      var hash := ReplaceFirst(url.value, LensScheme, "");
      assert hash == url.value[|LensScheme|..] by { assert "" + url.value[|LensScheme|..] == url.value[|LensScheme|..]; }
      assert (Gateway + hash)[0] == 'h' && LensScheme[0] == 'l';
      Some(Gateway + hash)
    else url
  }

  /** A rewritten URL is left alone by a second rewrite. */
  lemma FormatIdempotent(url: Option<string>)
    ensures FormatLensImageUrl(FormatLensImageUrl(url)) == FormatLensImageUrl(url)
  {
  }

  /** Only the leading scheme is removed: a `lens://` inside the hash survives. */
  lemma InnerSchemeKept(hash: string)
    ensures FormatLensImageUrl(Some(LensScheme + hash)) == Some(Gateway + hash)
  {
    assert (LensScheme + hash)[..|LensScheme|] == LensScheme;
    assert (LensScheme + hash)[|LensScheme|..] == hash;
  }
}
