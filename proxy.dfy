/**
  The listener of proxy.mjs: API paths are served through `handleRequest`,
  `/proxy` paths are forwarded upstream with one HTTPS request whose
  response is piped back, and every other path is a 404.
*/
module Proxy {
  import opened Js
  import opened Text
  import opened Route
  import opened Envelopes
  import opened Services
  import opened Requests
  import opened Http
  import opened ApiServer

  /** An incoming request: its raw target (`req.url`, possibly absent), its headers, and the parse of the target. */
  datatype IncomingRequest = IncomingRequest(rawUrl: Option<string>, headers: map<string, string>, url: ParsedUrl)

  /** An outgoing HTTPS request: the URL it is made to and the headers sent with it. */
  datatype Outbound = Outbound(target: string, headers: map<string, string>)

  /** What the upstream server answers: a status and the bytes of its body. */
  datatype UpstreamResponse = UpstreamResponse(status: int, body: seq<bv8>)

  /** The HTTPS client: every request it is asked to make, in order, and the answer each one gets. */
  class Upstream {
    var sent: seq<Outbound>
    const respond: Outbound -> UpstreamResponse

    constructor(respond: Outbound -> UpstreamResponse)
      ensures sent == [] && this.respond == respond
    {
      sent := [];
      this.respond := respond;
    }

    /** `https.request(target, { headers }, callback)` followed by `end()`. */
    method Request(o: Outbound) returns (resp: UpstreamResponse)
      modifies this
      ensures sent == old(sent) + [o]
      ensures resp == respond(o)
    {
      sent := sent + [o];
      resp := respond(o);
    }
  }

  const MissingParameterMessage := "Required parameter missing."
  const NotFoundText := "Not found."
  const UrlParam := "?url="

  /** Which branch of the listener a request takes: by the raw target's prefix, `/api` before `/proxy`. */
  datatype Branch = ApiBranch | ProxyBranch | OtherBranch

  function BranchOf(rawUrl: Option<string>): (b: Branch)
    ensures b == ApiBranch <==> rawUrl.Some? && StartsWith(rawUrl.value, "/api")
    ensures b == ProxyBranch <==> rawUrl.Some? && !StartsWith(rawUrl.value, "/api") && StartsWith(rawUrl.value, "/proxy")
    ensures rawUrl.None? ==> b == OtherBranch
  {
    if rawUrl.Some? && StartsWith(rawUrl.value, "/api") then ApiBranch
    else if rawUrl.Some? && StartsWith(rawUrl.value, "/proxy") then ProxyBranch
    else OtherBranch
  }

  /** The upstream URL: the search string with its first `?url=` removed, so the rest of the query goes along. */
  function UpstreamTarget(search: string): (t: string)
    ensures StartsWith(search, UrlParam) ==> t == search[|UrlParam|..]
    ensures IndexOf(search, UrlParam) < 0 ==> t == search
    ensures forall i :: OccursAt(search, UrlParam, i) && (forall j :: 0 <= j < i ==> !OccursAt(search, UrlParam, j)) ==>
                        t == search[..i] + search[i + |UrlParam|..]
  {
    ReplaceFirst(search, UrlParam, "")
  }

  /**
    A `?url=` after other parameters is cut out where it stands, so the
    query before it is glued to what follows. The listener only gets this
    far when some `&`-separated `url` pair is non-empty: for
    `?a&url=y&z?url=x` the target is `?a&url=y&zx`. Such a target starts
    with `?`, which `https.request` refuses as a URL and throws on (see
    `Listener`). For `?a=1?url=https://x` the only pair is `a`, so the
    listener answers 400 before any target is computed.
  */
  lemma UrlParamCutMidQuery(before: string, after: string)
    requires |before| >= 1 && before[0] == '?' && '?' !in before[1..]
    requires !StartsWith(before, UrlParam)
    ensures UpstreamTarget(before + UrlParam + after) == before + after
    ensures |before + after| >= 1 && (before + after)[0] == '?'
  {
    var search := before + UrlParam + after;
    assert search[|before|..|before| + |UrlParam|] == UrlParam;
    var i := |before|;
    assert OccursAt(search, UrlParam, i);
    forall j | 0 <= j < i ensures !OccursAt(search, UrlParam, j) {
      if j == 0 {
        if |before| >= |UrlParam| {
          assert search[..|UrlParam|] == before[..|UrlParam|];
        } else {
          assert search[i] == '?' != UrlParam[i];
        }
      } else {
        assert search[j] == before[1..][j - 1] != UrlParam[0];
      }
    }
    assert search[..i] == before;
    assert search[i + |UrlParam|..] == after;
  }

  /** `?a&url=y&z?url=x` carries the non-empty `url` pair `y`, and its target `?a&url=y&zx` starts with `?`. */
  lemma MidQueryTargetExample()
    ensures UpstreamTarget("?a&url=y&z?url=x") == "?a&url=y&zx"
  {
    var before := "?a&url=y&z";
    assert "?a&url=y&z?url=x" == before + UrlParam + "x";
    assert before[1..] == "a&url=y&z";
    assert before[..|UrlParam|][1] == 'a' != UrlParam[1];
    UrlParamCutMidQuery(before, "x");
  }

  /** The headers sent upstream: every incoming header, with `host` emptied. */
  function OutboundHeaders(incoming: map<string, string>): (h: map<string, string>)
    ensures "host" in h && h["host"] == ""
    ensures forall k :: k != "host" ==> (k in h <==> k in incoming)
    ensures forall k :: k != "host" && k in incoming ==> h[k] == incoming[k]
  {
    incoming["host" := ""]
  }

  /** The `url` parameter is present and non-empty. */
  predicate HasUrlParam(url: ParsedUrl) {
    Present(FirstValue(url.searchParams, "url"))
  }

  /**
    The request the proxy branch makes for a request that carries its `url`
    parameter: to the search string without its first `?url=`, with the
    incoming headers and `host` emptied.
  */
  function ForwardedRequest(req: IncomingRequest): (o: Outbound)
    ensures o.target == UpstreamTarget(req.url.search)
    ensures StartsWith(req.url.search, UrlParam) ==> o.target == req.url.search[|UrlParam|..]
    ensures IndexOf(req.url.search, UrlParam) < 0 ==> o.target == req.url.search
    ensures "host" in o.headers && o.headers["host"] == ""
    ensures forall k :: k != "host" ==> (k in o.headers <==> k in req.headers)
    ensures forall k :: k != "host" && k in req.headers ==> o.headers[k] == req.headers[k]
  {
    Outbound(UpstreamTarget(req.url.search), OutboundHeaders(req.headers))
  }

  /** The upstream requests one call of the listener makes. */
  function ListenerRequests(req: IncomingRequest): (out: seq<Outbound>)
    ensures |out| <= 1
    ensures |out| == 1 <==> BranchOf(req.rawUrl) == ProxyBranch && HasUrlParam(req.url)
    ensures |out| == 1 ==> out[0].headers == OutboundHeaders(req.headers)
    ensures |out| == 1 ==> out[0].target == UpstreamTarget(req.url.search)
  {
    if BranchOf(req.rawUrl) == ProxyBranch && HasUrlParam(req.url) then [ForwardedRequest(req)] else []
  }

  /** The reply the listener leaves, given the reply before it and the upstream's answers. */
  function ListenerReply(apiBase: string, sv: Services, req: IncomingRequest, before: ReplyState,
                         respond: Outbound -> UpstreamResponse): (s: ReplyState)
    ensures BranchOf(req.rawUrl) == ApiBranch ==>
              && s.status in {200, 400, 404, 500}
              && s.body.Some? && ContentType in s.headers
              && (s.body.value.Text? <==> s.headers[ContentType] == "text/plain")
    ensures BranchOf(req.rawUrl) == ApiBranch ==>
              s == EnvelopeReply(before, Dispatch(apiBase, sv, ParseRoute(req.url)), "text/plain", "application/json")
    ensures BranchOf(req.rawUrl) == ApiBranch ==>
              var e := Dispatch(apiBase, sv, ParseRoute(req.url));
              && s.status == e.status && s.body == Some(EnvelopeBody(e.data))
              && CacheControl in s.headers && s.headers[CacheControl] == MaxAge
              && AllowOrigin in s.headers && s.headers[AllowOrigin] == "*"
    ensures BranchOf(req.rawUrl) == ProxyBranch && !HasUrlParam(req.url) ==>
              s == before.(status := 400, body := Some(Text(MissingParameterMessage)))
    ensures BranchOf(req.rawUrl) == ProxyBranch && HasUrlParam(req.url) ==>
              var answer := respond(ForwardedRequest(req));
              && s.status == answer.status
              && s.body == Some(Piped(answer.body))
              && s.headers == before.headers["access-control-allow-origin" := "*"]
    ensures BranchOf(req.rawUrl) == OtherBranch ==> s == before.(status := 404, body := Some(Text(NotFoundText)))
  {
    match BranchOf(req.rawUrl)
    case ApiBranch =>
      EnvelopeReply(before, Dispatch(apiBase, sv, ParseRoute(req.url)), "text/plain", "application/json")
    case ProxyBranch =>
      if !HasUrlParam(req.url) then before.(status := 400, body := Some(Text(MissingParameterMessage)))
      else
        var answer := respond(ForwardedRequest(req));
        WithHeader(before.(status := answer.status), "access-control-allow-origin", "*").(body := Some(Piped(answer.body)))
    case OtherBranch =>
      before.(status := 404, body := Some(Text(NotFoundText)))
  }

  /** `listener(req, res)` of proxy.mjs. */
  method Listener(apiBase: string, sv: Services, req: IncomingRequest, reply: Reply, upstream: Upstream)
    modifies reply, upstream
    ensures upstream.sent == old(upstream.sent) + ListenerRequests(req)
    ensures reply.State() == ListenerReply(apiBase, sv, req, old(reply.State()), upstream.respond)
  {
    if req.rawUrl.Some? && StartsWith(req.rawUrl.value, "/api") {
      var route := ParseRoute(req.url);
      var e := HandleRequest(apiBase, sv, route);
      SendEnvelope(reply, e, "text/plain", "application/json");
    } else if req.rawUrl.Some? && StartsWith(req.rawUrl.value, "/proxy") {
      var urlToGet := FirstValue(req.url.searchParams, "url");
      if !Present(urlToGet) {
        reply.SetStatus(400);
        reply.End(Text(MissingParameterMessage));
        return;
      }
      var headers := OutboundHeaders(req.headers);
      var answer := upstream.Request(Outbound(UpstreamTarget(req.url.search), headers));
      reply.SetStatus(answer.status);
      reply.SetHeader("access-control-allow-origin", "*");
      reply.End(Piped(answer.body));
    } else {
      reply.SetStatus(404);
      reply.End(Text(NotFoundText));
    }
  }

  /**
    The proxy server dispatches on the raw prefix `/api`, not on the first
    path segment: `/apix/videos/...` is served as a videos request although
    index.js's own listener would answer it with a 404.
  */
  lemma PrefixDispatchesBeyondApiSegment(apiBase: string, sv: Services, headers: map<string, string>, before: ReplyState)
    ensures var url := ParsedUrl("/apix/videos/x", "", [], "http://localhost/apix/videos/x");
            var req := IncomingRequest(Some("/apix/videos/x"), headers, url);
            && BranchOf(req.rawUrl) == ApiBranch
            && !ParseRoute(url).isApiRequest
            && ListenerReply(apiBase, sv, req, before, r => UpstreamResponse(0, [])) ==
               EnvelopeReply(before, Dispatch(apiBase, sv, ParseRoute(url)), "text/plain", "application/json")
            && IndexEnvelope(apiBase, sv, url) == NotFound(ErrorBody(NotFoundMessage))
  {
  }
}
