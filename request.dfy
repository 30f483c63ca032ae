/**
  `handleRequest` of index.js: the switch over the route type, with every
  exception a handler throws turned into the generic 500 envelope.
*/
module Requests {
  import opened Js
  import opened Route
  import opened Envelopes
  import opened Services
  import opened Handlers

  const NoTypeMessage := "No type provided."

  /** The route types the switch has a case for. */
  const KnownTypes: set<string> := {"videos", "search", "trending", "channel", "comments", "captions", "playlist"}

  /** The case of the switch selected by a type, before exceptions are caught; an unknown type is `_404()`. */
  function HandlerOutcome(apiBase: string, sv: Services, typ: string, route: Route): (r: Attempt<Envelope>)
    ensures r.Returned? ==> r.value.status in {200, 400, 404}
    ensures (r.Returned? && r.value.status == 404) <==> typ !in KnownTypes
    ensures typ !in KnownTypes ==> r == Returned(NotFound(Undefined))
    ensures typ == "videos" ==> r == VideoOutcome(apiBase, sv, route.resource)
    ensures typ == "search" ==> r == HandleSearchReq(sv, Lookup(route.queries, "q"), Lookup(route.queries, "next"))
    ensures typ == "trending" ==> r == TrendingOutcome(sv, route.queries)
    ensures typ == "channel" ==>
              r == HandleChannelReq(sv, route.resource, Lookup(route.queries, "type"),
                                    Lookup(route.queries, "next"), Lookup(route.queries, "sort"))
    ensures typ == "comments" ==> r == HandleCommentsReq(sv, route.resource, Lookup(route.queries, "next"))
    ensures typ == "captions" ==> r == HandleCaptionsReq(apiBase, sv, route.href)
    ensures typ == "playlist" ==> r == PlaylistOutcome(sv, route.resource, Lookup(route.queries, "next"))
  {
    var q := route.queries;
    match typ
    case "videos" => VideoOutcome(apiBase, sv, route.resource)
    case "search" => HandleSearchReq(sv, Lookup(q, "q"), Lookup(q, "next"))
    case "trending" => TrendingOutcome(sv, q)
    case "channel" => HandleChannelReq(sv, route.resource, Lookup(q, "type"), Lookup(q, "next"), Lookup(q, "sort"))
    case "comments" => HandleCommentsReq(sv, route.resource, Lookup(q, "next"))
    case "captions" => HandleCaptionsReq(apiBase, sv, route.href)
    case "playlist" => PlaylistOutcome(sv, route.resource, Lookup(q, "next"))
    case _ => Returned(NotFound(Undefined))
  }

  /**
    `handleRequest(url)`: a missing or empty type is a 400, an unknown one a
    404, and a handler that throws yields the fixed 500 envelope.
  */
  function Dispatch(apiBase: string, sv: Services, route: Route): (e: Envelope)
    ensures e.status in {200, 400, 404, 500}
    ensures !Present(route.typ) ==> e == BadRequest(ErrorBody(NoTypeMessage))
    ensures e.status == 404 <==> Present(route.typ) && route.typ.value !in KnownTypes
    ensures e.status == 500 <==> Present(route.typ) && HandlerOutcome(apiBase, sv, route.typ.value, route).Thrown?
    ensures e.status == 500 ==> e == ServerError()
    ensures Present(route.typ) && HandlerOutcome(apiBase, sv, route.typ.value, route).Returned? ==>
              e == HandlerOutcome(apiBase, sv, route.typ.value, route).value
  {
    if !Present(route.typ) then BadRequest(ErrorBody(NoTypeMessage))
    else
      var outcome := HandlerOutcome(apiBase, sv, route.typ.value, route);
      if outcome.Thrown? then ServerError() else outcome.value
  }

  /** The trailing-slash path `/api/` names no type and is refused with a 400. */
  lemma TrailingSlashIsBadRequest(apiBase: string, sv: Services, url: ParsedUrl)
    requires url.pathname == "/api/"
    ensures Dispatch(apiBase, sv, ParseRoute(url)) == BadRequest(ErrorBody(NoTypeMessage))
  {
    TrailingSlashHasEmptyType(url);
  }

  /** A videos request without an id is answered with 400 "No video id provided.". */
  lemma VideoRequestWithoutId(apiBase: string, sv: Services, url: ParsedUrl)
    requires url.pathname == "/api/videos"
    ensures Dispatch(apiBase, sv, ParseRoute(url)) == BadRequest(ErrorBody(NoVideoIdMessage))
  {
    ApiPathType(url, "videos");
  }

  /** A videos request whose id the validator refuses is answered with a 400 naming that id. */
  lemma InvalidVideoIdIsNamed(apiBase: string, sv: Services, url: ParsedUrl, id: string)
    requires id != "" && '/' !in id && !sv.videoIdValid(id)
    requires url.pathname == "/api/videos/" + id
    ensures Dispatch(apiBase, sv, ParseRoute(url)) == BadRequest(ErrorBody(id + InvalidVideoSuffix))
  {
    assert url.pathname == "/api/" + "videos" + "/" + id;
    ApiPathParts(url, "videos", id);
  }

  /** A search request with a continuation token is answered from `continueReq`, whatever the query says. */
  lemma SearchTokenTakesContinuation(apiBase: string, sv: Services, route: Route, token: Value)
    requires route.typ == Some("search")
    requires Present(Lookup(route.queries, "next"))
    requires sv.call(ParseJson(route.queries["next"])) == Returned(token)
    ensures var more := sv.call(SearchMore(token));
            Dispatch(apiBase, sv, route) == if more.Thrown? then ServerError() else Ok(more.value)
  {
  }

  /** A playlist request with an id the validator refuses and no token is answered with a 400 naming the id. */
  lemma InvalidPlaylistIdIsNamed(apiBase: string, sv: Services, route: Route)
    requires route.typ == Some("playlist")
    requires !Present(Lookup(route.queries, "next")) && !sv.playlistIdValid(route.resource)
    ensures Dispatch(apiBase, sv, route) == BadRequest(ErrorBody(OptionText(route.resource) + InvalidPlaylistSuffix))
  {
  }

  /** `handleRequest`, running the handlers that work step by step as methods. */
  method HandleRequest(apiBase: string, sv: Services, route: Route) returns (e: Envelope)
    ensures e == Dispatch(apiBase, sv, route)
  {
    if !Present(route.typ) {
      return BadRequest(ErrorBody(NoTypeMessage));
    }
    var q := route.queries;
    var outcome: Attempt<Envelope>;
    match route.typ.value {
    case "videos" =>
      outcome := HandleVideoReq(apiBase, sv, route.resource);
    case "search" =>
      outcome := HandleSearchReq(sv, Lookup(q, "q"), Lookup(q, "next"));
    case "trending" =>
      outcome := HandleTrendingReq(sv, q);
    case "channel" =>
      outcome := HandleChannelReq(sv, route.resource, Lookup(q, "type"), Lookup(q, "next"), Lookup(q, "sort"));
    case "comments" =>
      outcome := HandleCommentsReq(sv, route.resource, Lookup(q, "next"));
    case "captions" =>
      outcome := HandleCaptionsReq(apiBase, sv, route.href);
    case "playlist" =>
      outcome := HandlePlaylistReq(sv, route.resource, Lookup(q, "next"));
    case _ =>
      outcome := Returned(NotFound(Undefined));
    }
    if outcome.Thrown? {
      return ServerError();
    }
    e := outcome.value;
  }
}
