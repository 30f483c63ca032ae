/**
  `URLParser` of index.js: the route descriptor derived from a request URL.
  The URL constructor's own work (percent-decoding, dot segments) is taken
  as done: its pathname, raw search string, decoded query pairs and href are
  the inputs here.
*/
module Route {
  import opened Js
  import opened Text

  /** What `new URL(req.url, base)` hands to the request layer. */
  datatype ParsedUrl = ParsedUrl(
    pathname: string,
    search: string,
    searchParams: seq<(string, string)>,
    href: string)

  /** The route descriptor; `typ` and `resource` are `undefined` when the path is too short. */
  datatype Route = Route(
    isApiRequest: bool,
    typ: Option<string>,
    resource: Option<string>,
    queries: map<string, string>,
    href: string)

  /** `pathname.split("/").slice(1)`. */
  function Segments(pathname: string): (segs: seq<string>)
    ensures forall k :: 0 <= k < |segs| ==> '/' !in segs[k]
  {
    Split(pathname, '/')[1..]
  }

  /** A pathname that begins with a slash is that slash followed by its segments joined by slashes. */
  lemma SegmentsRebuildPath(pathname: string)
    requires StartsWith(pathname, "/")
    ensures |Segments(pathname)| >= 1
    ensures pathname == "/" + Join(Segments(pathname), "/")
  {
    var rest := pathname[1..];
    assert pathname == [] + ['/'] + rest;
    SplitCons([], rest, '/');
    assert Segments(pathname) == Split(rest, '/');
    JoinSplit(rest, '/');
  }

  /** `segs[i]`, or `undefined` past the end. */
  function SegmentAt(segs: seq<string>, i: nat): Option<string> {
    if i < |segs| then Some(segs[i]) else None
  }

  /** `Object.fromEntries(pairs)`: entries are stored in order, so a later entry overwrites an earlier one. */
  function FromEntries(pairs: seq<(string, string)>): (m: map<string, string>)
    ensures forall k :: k in m <==> exists i :: 0 <= i < |pairs| && pairs[i].0 == k
    decreases |pairs|
  {
    if |pairs| == 0 then map[]
    else
      var prefix := pairs[..|pairs| - 1];
      var last := pairs[|pairs| - 1];
      assert forall i :: 0 <= i < |prefix| ==> prefix[i] == pairs[i];
      FromEntries(prefix)[last.0 := last.1]
  }

  /** For a repeated query key, the value of its last occurrence is the one kept. */
  lemma {:induction false} FromEntriesLastWins(pairs: seq<(string, string)>, i: nat)
    requires i < |pairs|
    requires forall j :: i < j < |pairs| ==> pairs[j].0 != pairs[i].0
    ensures pairs[i].0 in FromEntries(pairs)
    ensures FromEntries(pairs)[pairs[i].0] == pairs[i].1
    decreases |pairs|
  {
    if i < |pairs| - 1 {
      var prefix := pairs[..|pairs| - 1];
      assert prefix[i] == pairs[i];
      FromEntriesLastWins(prefix, i);
    }
  }

  /** `URLSearchParams.get(key)`: the value of the first occurrence of the key, or none. */
  function FirstValue(pairs: seq<(string, string)>, key: string): (r: Option<string>)
    ensures r.None? <==> forall i :: 0 <= i < |pairs| ==> pairs[i].0 != key
    ensures r.Some? ==> exists i :: 0 <= i < |pairs| && pairs[i] == (key, r.value) &&
                                    forall j :: 0 <= j < i ==> pairs[j].0 != key
    decreases |pairs|
  {
    if |pairs| == 0 then None
    else if pairs[0].0 == key then Some(pairs[0].1)
    else
      var r := FirstValue(pairs[1..], key);
      assert forall i :: 1 <= i < |pairs| ==> pairs[i] == pairs[1..][i - 1];
      if r.Some? then
        var i :| 0 <= i < |pairs[1..]| && pairs[1..][i] == (key, r.value) &&
                 forall j :: 0 <= j < i ==> pairs[1..][j].0 != key;
        assert pairs[i + 1] == (key, r.value);
        r
      else r
  }

  /**
    `URLParser(url)`: the api flag from the first segment, the type and the
    resource from the next two, each free of slashes and absent when the path
    is too short, and one query entry per distinct parameter name.
  */
  function ParseRoute(url: ParsedUrl): (r: Route)
    ensures var segs := Segments(url.pathname);
            && (r.isApiRequest <==> |segs| >= 1 && segs[0] == "api")
            && (r.typ.Some? <==> |segs| >= 2)
            && (r.resource.Some? <==> |segs| >= 3)
    ensures var segs := Segments(url.pathname);
            r.typ == SegmentAt(segs, 1) && r.resource == SegmentAt(segs, 2)
    ensures r.typ.Some? ==> '/' !in r.typ.value
    ensures r.resource.Some? ==> '/' !in r.resource.value
    ensures r.queries == FromEntries(url.searchParams)
    ensures forall k :: k in r.queries <==> exists i :: 0 <= i < |url.searchParams| && url.searchParams[i].0 == k
    ensures r.href == url.href
  {
    var segs := Segments(url.pathname);
    Route(
      SegmentAt(segs, 0) == Some("api"),
      SegmentAt(segs, 1),
      SegmentAt(segs, 2),
      FromEntries(url.searchParams),
      url.href)
  }

  /** A request is an API request exactly when its path is `/api` or lies below `/api/`. */
  lemma ApiRequestIffApiPath(url: ParsedUrl)
    requires StartsWith(url.pathname, "/")
    ensures ParseRoute(url).isApiRequest <==> url.pathname == "/api" || StartsWith(url.pathname, "/api/")
  {
    var p := url.pathname;
    if p == "/api" {
      ApiPathSegments(p, "api");
    } else if StartsWith(p, "/api/") {
      ApiBelowSegments(p);
    } else if ParseRoute(url).isApiRequest {
      ApiSegmentGivesPath(p);
    }
  }

  lemma ApiPathSegments(p: string, name: string)
    requires p == "/" + name && '/' !in name
    ensures Segments(p) == [name]
  {
    assert p == [] + ['/'] + name;
    SplitCons([], name, '/');
    SplitPlain(name, '/');
  }

  lemma ApiBelowSegments(p: string)
    requires StartsWith(p, "/api/")
    ensures |Segments(p)| >= 1 && Segments(p)[0] == "api"
  {
    var t := p[5..];
    assert p == [] + ['/'] + ("api" + ['/'] + t);
    SplitCons([], "api" + ['/'] + t, '/');
    SplitCons("api", t, '/');
  }

  lemma ApiSegmentGivesPath(p: string)
    requires StartsWith(p, "/")
    requires |Segments(p)| >= 1 && Segments(p)[0] == "api"
    ensures p == "/api" || StartsWith(p, "/api/")
  {
    var segs := Segments(p);
    SegmentsRebuildPath(p);
    if |segs| > 1 {
      assert p == "/api/" + Join(segs[1..], "/");
      assert p[..5] == "/api/";
    }
  }

  /** A path `/api/<type>/<resource>` yields exactly that type and that resource. */
  lemma ApiPathParts(url: ParsedUrl, typ: string, resource: string)
    requires '/' !in typ && '/' !in resource
    requires url.pathname == "/api/" + typ + "/" + resource
    ensures var r := ParseRoute(url);
            r.isApiRequest && r.typ == Some(typ) && r.resource == Some(resource)
  {
    assert url.pathname == [] + ['/'] + ("api" + ['/'] + (typ + ['/'] + resource));
    SplitCons([], "api" + ['/'] + (typ + ['/'] + resource), '/');
    SplitCons("api", typ + ['/'] + resource, '/');
    SplitCons(typ, resource, '/');
    SplitPlain(resource, '/');
    assert Segments(url.pathname) == ["api", typ, resource];
  }

  /** A path `/api/<type>` yields that type and no resource. */
  lemma ApiPathType(url: ParsedUrl, typ: string)
    requires '/' !in typ
    requires url.pathname == "/api/" + typ
    ensures var r := ParseRoute(url);
            r.isApiRequest && r.typ == Some(typ) && r.resource.None?
  {
    assert url.pathname == [] + ['/'] + ("api" + ['/'] + typ);
    SplitCons([], "api" + ['/'] + typ, '/');
    SplitCons("api", typ, '/');
    SplitPlain(typ, '/');
    assert Segments(url.pathname) == ["api", typ];
  }

  /** A query parameter with no later parameter of the same name reaches the handlers with its own value. */
  lemma QueryValueIsLast(url: ParsedUrl, i: nat)
    requires i < |url.searchParams|
    requires forall j :: i < j < |url.searchParams| ==> url.searchParams[j].0 != url.searchParams[i].0
    ensures Lookup(ParseRoute(url).queries, url.searchParams[i].0) == Some(url.searchParams[i].1)
  {
    FromEntriesLastWins(url.searchParams, i);
  }

  /** The trailing-slash path `/api/` carries an empty type. */
  lemma TrailingSlashHasEmptyType(url: ParsedUrl)
    requires url.pathname == "/api/"
    ensures ParseRoute(url).isApiRequest && ParseRoute(url).typ == Some("")
  {
    assert url.pathname == [] + ['/'] + ("api" + ['/'] + []);
    SplitCons([], "api" + ['/'] + [], '/');
    SplitCons("api", [], '/');
    assert Segments(url.pathname) == ["api", ""];
  }
}
