/**
 * PSR-7 style requests and responses as plain values, and a scripted transport.
 * JSON text is not modelled: a body is either a decoded JSON value or the reason
 * `json_decode` rejected it.
 */
module Http {
  import opened Json

  /** The body handed to a request: nothing, `json_encode` of a value, or form parameters. */
  datatype Payload =
    | NoBody
    | JsonBody(doc: Json)
    | FormBody(fields: map<string, string>)

  datatype Request = Request(verb: string, url: string, headers: map<string, string>, body: Payload)
  {
    /** `$request->withHeader($name, $value)`: a copy with that one header replaced. */
    function WithHeader(name: string, value: string): (r: Request)
      ensures r.verb == verb && r.url == url && r.body == body
      ensures name in r.headers && r.headers[name] == value
      ensures r.headers.Keys == headers.Keys + {name}
      ensures forall h :: h in headers && h != name ==> h in r.headers && r.headers[h] == headers[h]
    {
      this.(headers := headers[name := value])
    }
  }

  /** A response body after `json_decode($body, true)`. */
  datatype Body =
    | Decoded(doc: Json)
      /** not JSON; `reason` is what `json_last_error_msg()` reports */
    | Malformed(reason: string)

  datatype Response = Response(status: int, body: Body)

  /** `json_decode((string) $response->getBody(), true)`, which gives null on bad JSON. */
  function DecodedBody(r: Response): (j: Json)
    ensures r.body.Decoded? ==> j == r.body.doc
    ensures r.body.Malformed? ==> j == JNull
  {
    match r.body
    case Decoded(doc) => doc
    case Malformed(_) => JNull
  }

  /** What a transport call ends with: a response, or a transport exception and its message. */
  datatype Outcome =
    | Delivered(response: Response)
    | Failed(reason: string)

  /**
   * A transport whose behaviour is left open: the k-th request sent (counting from
   * 0) is answered by `respond(k, request)`. `sent` logs every request in order, so
   * `|sent|` is the number of calls made.
   */
  class Endpoint<T> {
    const respond: (nat, Request) -> T
    var sent: seq<Request>

    constructor (respond: (nat, Request) -> T)
      ensures this.respond == respond && sent == []
    {
      this.respond := respond;
      sent := [];
    }

    method Send(req: Request) returns (o: T)
      modifies this
      ensures sent == old(sent) + [req]
      ensures o == respond(|old(sent)|, req)
    {
      o := respond(|sent|, req);
      sent := sent + [req];
    }
  }
}
