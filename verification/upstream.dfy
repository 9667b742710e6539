/** The upstream request URL of `osuResults`: a template literal over the fixed API base,
    the resolved resource and the inbound `q` parameter, with no escaping at all. */
module Upstream {
  import opened Wrappers
  import opened Js
  import opened Errors
  import opened Endpoint

  const ApiBase: string := "https://api.oregonstate.edu/v1/"
  const QueryMarker: string := "?q="

  /** `https://api.oregonstate.edu/v1/${dest}?q=${query.q}`. Reading `query.q` throws a
      TypeError when the event carries no query string parameters (`null`); otherwise the
      text of `dest` and of `q` is spliced in verbatim — `null` becomes the segment "null"
      and a missing `q` the text "undefined". */
  function UpstreamUrl(dest: JsValue, query: JsValue): (r: Result<string, Fault>)
    ensures r.Failure? <==> query.IsNullish()
    ensures r.Failure? ==> r.error == TypeFault
    ensures r.Success? ==> ApiBase <= r.value
    ensures r.Success? ==> r.value[|ApiBase|..] == ToText(dest) + QueryMarker + ToText(Prop(query, "q"))
  {
    if query.IsNullish() then Failure(TypeFault)
    else
      var url := ApiBase + ToText(dest) + QueryMarker + ToText(Prop(query, "q"));
      assert url[..|ApiBase|] == ApiBase;
      Success(url)
  }

  /** Position of the first `c` in `s`, or `|s|` when there is none. */
  function IndexOf(s: string, c: char): (r: nat)
    ensures r <= |s|
    ensures r < |s| ==> s[r] == c
    ensures forall j :: 0 <= j < r ==> s[j] != c
    decreases |s|
  {
    if |s| == 0 then 0
    else if s[0] == c then 0
    else 1 + IndexOf(s[1..], c)
  }

  /** Left inverse of the template literal: recovers the two spliced texts from the URL
      string — the segment up to the first `?` after the base, and everything after `?q=`.
      It does not split at `&` or `#` as a server would. */
  function ParseUrl(url: string): Option<(string, string)> {
    if |url| < |ApiBase| || url[..|ApiBase|] != ApiBase then None
    else
      var rest := url[|ApiBase|..];
      var i := IndexOf(rest, '?');
      if i + |QueryMarker| <= |rest| && rest[i..i + |QueryMarker|] == QueryMarker then
        Some((rest[..i], rest[i + |QueryMarker|..]))
      else
        None
  }

  /** Any `?`-free segment and any `q` can be read back from the URL string: `q` in
      particular is spliced in without re-encoding. */
  lemma UrlRoundTrip(segment: string, q: string)
    requires '?' !in segment
    ensures ParseUrl(ApiBase + segment + QueryMarker + q) == Some((segment, q))
  {
    var url := ApiBase + segment + QueryMarker + q;
    assert url[..|ApiBase|] == ApiBase;
    var rest := url[|ApiBase|..];
    assert rest == segment + QueryMarker + q;
    var i := IndexOf(rest, '?');
    assert rest[|segment|] == '?';
    assert forall j :: 0 <= j < |segment| ==> rest[j] == segment[j];
    assert i == |segment|;
    assert rest[i..i + |QueryMarker|] == QueryMarker;
    assert rest[..i] == segment;
    assert rest[i + |QueryMarker|..] == q;
  }

  /** The three segments a resolved endpoint can produce. */
  lemma ResolvedSegments(path: string)
    ensures ToText(GetEndpoint(path)) in {"locations", "directory", "null"}
    ensures '?' !in ToText(GetEndpoint(path))
  {
  }

  /** Whatever the path, the URL built from its resolution names the resource (or "null")
      as the path segment and carries `q` back out unchanged. */
  lemma UpstreamUrlRoundTrip(path: string, query: JsValue)
    requires !query.IsNullish()
    ensures UpstreamUrl(GetEndpoint(path), query).Success?
    ensures ParseUrl(UpstreamUrl(GetEndpoint(path), query).value)
      == Some((ToText(GetEndpoint(path)), ToText(Prop(query, "q"))))
  {
    var dest := GetEndpoint(path);
    ResolvedSegments(path);
    var url := UpstreamUrl(dest, query).value;
    assert url == ApiBase + ToText(dest) + QueryMarker + ToText(Prop(query, "q"));
    UrlRoundTrip(ToText(dest), ToText(Prop(query, "q")));
  }

  /** An unknown path is forwarded as the segment "null". */
  lemma UnknownPathUrl()
    ensures UpstreamUrl(GetEndpoint("/unknown"), Obj(map["q" := Str("x")]))
      == Success("https://api.oregonstate.edu/v1/null?q=x")
  {
    assert Prop(Obj(map["q" := Str("x")]), "q") == Str("x");
    assert ApiBase + "null" + QueryMarker + "x" == "https://api.oregonstate.edu/v1/null?q=x";
  }

  /** A missing `q` becomes the text "undefined". */
  lemma MissingQueryUrl()
    ensures UpstreamUrl(GetEndpoint("/locations"), Obj(map[]))
      == Success("https://api.oregonstate.edu/v1/locations?q=undefined")
  {
    assert Prop(Obj(map[]), "q") == Undefined;
    assert ApiBase + "locations" + QueryMarker + "undefined"
      == "https://api.oregonstate.edu/v1/locations?q=undefined";
  }

  /** An `&` inside `q` is passed on unescaped, so it adds a parameter upstream. */
  lemma UnescapedQueryUrl()
    ensures UpstreamUrl(GetEndpoint("/people"), Obj(map["q" := Str("a&b=c")]))
      == Success("https://api.oregonstate.edu/v1/directory?q=a&b=c")
  {
    assert Prop(Obj(map["q" := Str("a&b=c")]), "q") == Str("a&b=c");
    assert ApiBase + "directory" + QueryMarker + "a&b=c"
      == "https://api.oregonstate.edu/v1/directory?q=a&b=c";
  }
}
