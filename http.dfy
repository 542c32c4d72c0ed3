/**
 * The transport the client talks through. The vendor's service is an oracle:
 * given every exchange so far and a new request, it gives the status code,
 * the access-token header and the body as parsed (absent when it is not JSON).
 */
module Http {
  import opened Wrappers
  import opened Json

  datatype Verb = GET | POST | PUT

  /** What `https.request` is given: host, port, path, verb and headers. */
  datatype RequestOptions = RequestOptions(hostname: string, port: nat, path: string, verb: Verb, headers: map<string, string>)

  /** A request with its JSON body; `None` is the empty body of the GET and PUT requests. */
  datatype Request = Request(options: RequestOptions, body: Option<Json>)

  /** What the service sends back: status code, access-token header, body as parsed. */
  datatype Reply = Reply(status: int, token: string, parsed: Option<Json>)

  /** What the client sees: the body is kept only on a 200 response. */
  datatype Response = Response(status: int, token: string, payload: Option<Json>)

  datatype Exchange = Exchange(request: Request, response: Response)

  /** The service's answer to a request, given every exchange before it. */
  type Responder = (seq<Exchange>, Request) -> Reply

  /** A response carries a payload only when its status is 200 and its body parsed. */
  function Receive(reply: Reply): (r: Response)
    ensures r.status == reply.status && r.token == reply.token
    ensures r.payload.Some? <==> reply.status == 200 && reply.parsed.Some?
    ensures r.payload.Some? ==> r.payload == reply.parsed
  {
    Response(reply.status, reply.token, if reply.status == 200 then reply.parsed else None)
  }

  /** The exchange that results from sending `request` after `history`. */
  function Exchanged(respond: Responder, history: seq<Exchange>, request: Request): Exchange
  {
    Exchange(request, Receive(respond(history, request)))
  }

  /** How many requests of `log` went to `path`. */
  function RequestsTo(log: seq<Exchange>, path: string): (n: nat)
    ensures n <= |log|
  {
    if log == [] then 0
    else RequestsTo(log[..|log| - 1], path) + (if log[|log| - 1].request.options.path == path then 1 else 0)
  }

  /** The service together with the record of every exchange made with it. */
  class Server {
    const respond: Responder
    var log: seq<Exchange>

    constructor (respond: Responder)
      ensures this.respond == respond && log == []
    {
      this.respond := respond;
      log := [];
    }

    /** Sends one request and waits for the whole response. */
    method MakeRequest(request: Request) returns (response: Response)
      modifies this
      ensures log == old(log) + [Exchange(request, response)]
      ensures response == Receive(respond(old(log), request))
    {
      var reply := respond(log, request);
      if reply.status == 200 {
        response := Response(reply.status, reply.token, reply.parsed);
      } else {
        response := Response(reply.status, reply.token, None);
      }
      log := log + [Exchange(request, response)];
    }
  }
}
