/**
  The part of Node's `http.ServerResponse` the two servers use: the status
  code, `setHeader`, and `end` with the body.
*/
module Http {
  import opened Js

  /** What `end` sends: a text, the JSON serialisation of a value, or the bytes piped from another response. */
  datatype Body = Text(text: string) | Json(value: Value) | Piped(bytes: seq<bv8>)

  /** A snapshot of a reply: its status, its headers by name, and the body once ended. */
  datatype ReplyState = ReplyState(status: int, headers: map<string, string>, body: Option<Body>)

  /** The state `setHeader(name, value)` leaves: the header is set, every other one is kept. */
  function WithHeader(s: ReplyState, name: string, value: string): (r: ReplyState)
    ensures name in r.headers && r.headers[name] == value
    ensures forall k :: k != name ==> (k in r.headers <==> k in s.headers)
    ensures forall k :: k != name && k in s.headers ==> r.headers[k] == s.headers[k]
    ensures r.status == s.status && r.body == s.body
  {
    s.(headers := s.headers[name := value])
  }

  class Reply {
    var statusCode: int
    var headers: map<string, string>
    var body: Option<Body>

    /** A fresh response: status 200, no headers, nothing sent. */
    constructor()
      ensures statusCode == 200 && headers == map[] && body == None
    {
      statusCode := 200;
      headers := map[];
      body := None;
    }

    function State(): ReplyState
      reads this
    {
      ReplyState(statusCode, headers, body)
    }

    method SetStatus(code: int)
      modifies this
      ensures State() == old(State()).(status := code)
    {
      statusCode := code;
    }

    method SetHeader(name: string, value: string)
      modifies this
      ensures State() == WithHeader(old(State()), name, value)
    {
      headers := headers[name := value];
    }

    /** `end(data)`: the body is sent and the response is finished. */
    method End(b: Body)
      modifies this
      ensures State() == old(State()).(body := Some(b))
    {
      body := Some(b);
    }
  }
}
