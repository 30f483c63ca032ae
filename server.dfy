/**
  The request listener of `createServer` in index.js, and the way both
  servers write an envelope to the response.
*/
module ApiServer {
  import opened Js
  import opened Route
  import opened Envelopes
  import opened Services
  import opened Requests
  import opened Http

  const NotFoundMessage := "The requested resource could not be found."
  const MaxAge := "max-age=300"

  const ContentType := "Content-Type"
  const CacheControl := "Cache-Control"
  const AllowOrigin := "Access-Control-Allow-Origin"

  /** A string payload is sent as it is; any other value as its JSON text. */
  function EnvelopeBody(data: Value): (b: Body)
    ensures b.Text? <==> data.Str?
    ensures b.Text? ==> b.text == data.s
    ensures b.Json? ==> b.value == data
  {
    if data.Str? then Text(data.s) else Json(data)
  }

  /**
    The reply once an envelope is written: its status, the content type
    chosen by whether the payload is a string, a five-minute cache lifetime,
    any origin allowed, and the body.
  */
  function EnvelopeReply(before: ReplyState, e: Envelope, forString: string, forOther: string): (s: ReplyState)
    ensures s.status == e.status
    ensures s.body == Some(EnvelopeBody(e.data))
    ensures ContentType in s.headers
    ensures s.headers[ContentType] == (if e.data.Str? then forString else forOther)
    ensures CacheControl in s.headers && s.headers[CacheControl] == MaxAge
    ensures AllowOrigin in s.headers && s.headers[AllowOrigin] == "*"
    ensures s.headers.Keys == before.headers.Keys + {ContentType, CacheControl, AllowOrigin}
    ensures forall k :: k in before.headers && k !in {ContentType, CacheControl, AllowOrigin} ==>
                        s.headers[k] == before.headers[k]
  {
    var typed := WithHeader(before.(status := e.status), ContentType, if e.data.Str? then forString else forOther);
    var cached := WithHeader(typed, CacheControl, MaxAge);
    var open := WithHeader(cached, AllowOrigin, "*");
    open.(body := Some(EnvelopeBody(e.data)))
  }

  /** Writes an envelope to the response. */
  method SendEnvelope(reply: Reply, e: Envelope, forString: string, forOther: string)
    modifies reply
    ensures reply.State() == EnvelopeReply(old(reply.State()), e, forString, forOther)
  {
    reply.SetStatus(e.status);
    reply.SetHeader(ContentType, if e.data.Str? then forString else forOther);
    reply.SetHeader(CacheControl, MaxAge);
    reply.SetHeader(AllowOrigin, "*");
    reply.End(EnvelopeBody(e.data));
  }

  /** The envelope of the index.js listener: only a path whose first segment is `api` reaches `handleRequest`. */
  function IndexEnvelope(apiBase: string, sv: Services, url: ParsedUrl): (e: Envelope)
    ensures e.status in {200, 400, 404, 500}
    ensures !ParseRoute(url).isApiRequest ==> e == NotFound(ErrorBody(NotFoundMessage))
    ensures e.status == 404 <==> !ParseRoute(url).isApiRequest || (Present(ParseRoute(url).typ) && ParseRoute(url).typ.value !in KnownTypes)
    ensures ParseRoute(url).isApiRequest ==> e == Dispatch(apiBase, sv, ParseRoute(url))
  {
    var route := ParseRoute(url);
    if route.isApiRequest then Dispatch(apiBase, sv, route) else NotFound(ErrorBody(NotFoundMessage))
  }

  /**
    The index.js listener. Its content type is the reverse of the proxy
    server's: a string payload is labelled `application/json` and any other
    `text/plain`.
  */
  method ServeIndexRequest(apiBase: string, sv: Services, url: ParsedUrl, reply: Reply)
    modifies reply
    ensures reply.State() == EnvelopeReply(old(reply.State()), IndexEnvelope(apiBase, sv, url), "application/json", "text/plain")
  {
    var route := ParseRoute(url);
    var e: Envelope;
    if route.isApiRequest {
      e := HandleRequest(apiBase, sv, route);
    } else {
      e := NotFound(ErrorBody(NotFoundMessage));
    }
    SendEnvelope(reply, e, "application/json", "text/plain");
  }
}
