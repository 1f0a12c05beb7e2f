/**
 * GetCleanURL: the URL the proxy hands to the remote player. Local file URLs
 * lose their query string; every other URL passes through unchanged. URLs of
 * the app:// scheme are refused outright (a CHECK in the source).
 */
module CleanUrl {
  import opened Wrappers

  const AppScheme: string := "app://"
  const FileScheme: string := "file://"

  predicate StartsWith(s: string, prefix: string) {
    |prefix| <= |s| && s[..|prefix|] == prefix
  }

  /** std::string::find for one character: the first index holding `c`. */
  function Find(s: string, c: char): (r: Option<nat>)
    ensures r.Some? ==> r.value < |s| && s[r.value] == c && c !in s[..r.value]
    ensures r.None? <==> c !in s
  {
    if |s| == 0 then None
    else if s[0] == c then Some(0)
    else
      match Find(s[1..], c)
      case None => None
      case Some(i) =>
        assert s[..i + 1] == [s[0]] + s[1..][..i];
        Some(i + 1)
  }

  /**
   * Truncates a file:// URL at its first '?'. The result is the longest
   * prefix without '?', and what was cut off is empty or begins with '?'.
   */
  function GetCleanURL(url: string): (r: string)
    requires !StartsWith(url, AppScheme)
    ensures !StartsWith(url, FileScheme) ==> r == url
    ensures StartsWith(url, FileScheme) ==> StartsWith(url, r) && '?' !in r
    ensures StartsWith(url, FileScheme) ==> |r| == |url| || url[|r|] == '?'
  {
    if StartsWith(url, FileScheme) then
      match Find(url, '?')
      case None => url
      case Some(position) => url[..position]
    else url
  }

  /** A cleaned file URL keeps its scheme: '?' never occurs within "file://". */
  lemma CleanKeepsFileScheme(url: string)
    requires StartsWith(url, FileScheme)
    ensures !StartsWith(url, AppScheme) && StartsWith(GetCleanURL(url), FileScheme)
  {
    assert url[..|AppScheme|][0] == 'f';
    var r := GetCleanURL(url);
    assert '?' !in FileScheme;
    assert r[..|FileScheme|] == url[..|FileScheme|];
  }

  /** Cleaning is idempotent: a cleaned URL is already clean. */
  lemma CleanIdempotent(url: string)
    requires !StartsWith(url, AppScheme)
    ensures !StartsWith(GetCleanURL(url), AppScheme)
    ensures GetCleanURL(GetCleanURL(url)) == GetCleanURL(url)
  {
    var r := GetCleanURL(url);
    if StartsWith(url, FileScheme) {
      CleanKeepsFileScheme(url);
      assert r[..|AppScheme|][0] == 'f';
      assert !StartsWith(r, AppScheme);
      assert Find(r, '?').None?;
    }
  }

  /** Nothing but the query is dropped: url == clean + removed query. */
  lemma CleanSplitsOffQuery(url: string)
    requires !StartsWith(url, AppScheme)
    ensures var r := GetCleanURL(url);
            var rest := url[|r|..];
            url == r + rest && (rest == [] || rest[0] == '?')
  {
    var r := GetCleanURL(url);
    assert StartsWith(url, r);
  }
}
