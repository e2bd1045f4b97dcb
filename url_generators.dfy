/**
 * The application's URL builders (frontend/src/routing/urlGenerators.ts).
 * `createSearchParams(search).toString()` is a foreign encoder: its output,
 * the query string, is a parameter, and so is `window.location.origin`.
 */
module UrlGenerators {
  import opened Wrappers

  /** `UrlGenOptions`; a missing options object is `None`, a missing `absolute` is `false`. */
  datatype UrlGenOptions = UrlGenOptions(absolute: bool)

  /** `appendQueryString(url, queryString)` */
  function AppendQueryString(url: string, queryString: string): (r: string)
    ensures queryString == [] ==> r == url
    ensures queryString != [] ==> |r| == |url| + 1 + |queryString|
  {
    if queryString == [] then url else url + "?" + queryString
  }

  /** The part of `s` before its first "?" and the part after it ("" when there is none). */
  function SplitQuery(s: string): (r: (string, string))
    ensures '?' !in r.0
    ensures '?' !in s ==> r == (s, "")
  {
    if s == [] then ("", "")
    else if s[0] == '?' then ("", s[1..])
    else
      var rest := SplitQuery(s[1..]);
      assert s == [s[0]] + s[1..];
      ([s[0]] + rest.0, rest.1)
  }

  /** Splitting `prefix + "?" + rest` at its first "?" gives back both parts when `prefix` has no "?". */
  lemma {:induction false} SplitQueryAt(prefix: string, rest: string)
    requires '?' !in prefix
    ensures SplitQuery(prefix + "?" + rest) == (prefix, rest)
  {
    if prefix == [] {
      assert prefix + "?" + rest == ['?'] + rest;
    } else {
      var s := prefix + "?" + rest;
      SplitQueryAt(prefix[1..], rest);
      assert s[0] == prefix[0] != '?';
      assert s[1..] == prefix[1..] + "?" + rest;
      assert [prefix[0]] + prefix[1..] == prefix;
    }
  }

  /** The path and query string come back out of the URL whenever the path has no "?". */
  lemma AppendQueryStringRoundTrip(url: string, queryString: string)
    requires '?' !in url
    ensures SplitQuery(AppendQueryString(url, queryString)) == (url, queryString)
  {
    if queryString != [] {
      SplitQueryAt(url, queryString);
    }
  }

  /** `generateUrl(path, options)`: the origin in front exactly when `absolute` is set. */
  function GenerateUrl(path: string, options: Option<UrlGenOptions>, origin: string): (r: string)
    ensures options.Some? && options.value.absolute ==> r == origin + path
    ensures !(options.Some? && options.value.absolute) ==> r == path
  {
    if options.Some? && options.value.absolute then origin + path else path
  }

  /** `urlGenerator.root(options)` */
  function Root(options: Option<UrlGenOptions>, origin: string): (r: string)
    ensures |r| >= 1 && r[|r| - 1] == '/'
    ensures !(options.Some? && options.value.absolute) ==> r == "/"
  {
    GenerateUrl("/", options, origin)
  }

  /** `urlGenerator.trackList(search, options)`, with `queryString` the encoded `search`. */
  function TrackList(queryString: string, options: Option<UrlGenOptions>, origin: string): (r: string)
    ensures options.Some? && options.value.absolute ==> |r| >= |origin| && r[..|origin|] == origin
  {
    GenerateUrl(AppendQueryString("/tracks", queryString), options, origin)
  }

  /** `urlGenerator.trackDetail({ id }, search, options)`, with `queryString` the encoded `search`. */
  function TrackDetail(id: string, queryString: string, options: Option<UrlGenOptions>, origin: string): (r: string)
    ensures options.Some? && options.value.absolute ==> |r| >= |origin| && r[..|origin|] == origin
  {
    GenerateUrl(AppendQueryString("/tracks/" + id, queryString), options, origin)
  }

  /** A relative track list URL is "/tracks" followed by its query string, if any. */
  lemma TrackListParts(queryString: string, options: Option<UrlGenOptions>, origin: string)
    ensures var url := TrackList(queryString, options, origin);
      var relative := if options.Some? && options.value.absolute then url[|origin|..] else url;
      SplitQuery(relative) == ("/tracks", queryString)
  {
    AppendQueryStringRoundTrip("/tracks", queryString);
    var url := TrackList(queryString, options, origin);
    if options.Some? && options.value.absolute {
      assert url[|origin|..] == AppendQueryString("/tracks", queryString);
    }
  }

  /** A relative track detail URL is "/tracks/" + id followed by its query string, for an id with no "?". */
  lemma TrackDetailParts(id: string, queryString: string, options: Option<UrlGenOptions>, origin: string)
    requires '?' !in id
    ensures var url := TrackDetail(id, queryString, options, origin);
      var relative := if options.Some? && options.value.absolute then url[|origin|..] else url;
      SplitQuery(relative) == ("/tracks/" + id, queryString)
  {
    var path := "/tracks/" + id;
    assert '?' !in path;
    AppendQueryStringRoundTrip(path, queryString);
    var url := TrackDetail(id, queryString, options, origin);
    if options.Some? && options.value.absolute {
      assert url[|origin|..] == AppendQueryString(path, queryString);
    }
  }
}
