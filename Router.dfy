/**
 * The stand-alone request handler of `src/server.js`: GET and POST requests
 * under `/api/` get a fixed acknowledgement, everything else a 404, and an
 * error thrown while routing a 500. The request's `path` may be missing, in
 * which case `path.startsWith` throws a TypeError.
 */
module Router {
  import opened Wrappers
  import opened Json
  import opened Text

  const ApiPrefix := "/api/"
  const StartsWithOfUndefined := "Cannot read properties of undefined (reading 'startsWith')"

  /** The one response the handler writes: its status and JSON body. */
  datatype Response = Response(status: int, body: Value)

  /** `path.startsWith('/api/')`, which throws when the path is undefined. */
  function UnderApi(path: Option<string>): (r: Result<bool>)
    ensures r.Err? <==> path.None?
    ensures r.Err? ==> r.message == StartsWithOfUndefined
    ensures r.Ok? ==> (r.value <==> |path.value| >= 5 && path.value[..5] == ApiPrefix)
  {
    match path
    case None => Err(StartsWithOfUndefined)
    case Some(p) => Ok(StartsWith(p, ApiPrefix))
  }

  /** `{ status: 'ok', message }`. */
  function Acknowledge(message: string): (body: Value)
    ensures Keys(body) == {"status", "message"}
    ensures Get(body, "status") == Str("ok") && Get(body, "message") == Str(message)
  {
    var s := Field("status", Str("ok"));
    var m := Field("message", Str(message));
    PropsLiteral(s, m, m);
    Obj([s, m])
  }

  /** `{ error: 'Not found' }`. */
  function NotFound(): (body: Value)
    ensures Keys(body) == {"error"} && Get(body, "error") == Str("Not found")
  {
    PropsLiteral(Field("error", Str("Not found")), Field("", Undefined), Field("", Undefined));
    Obj([Field("error", Str("Not found"))])
  }

  /** `{ error: 'Failed to process request', details }`. */
  function ProcessingFailed(details: string): (body: Value)
    ensures Keys(body) == {"error", "details"}
    ensures Get(body, "error") == Str("Failed to process request") && Get(body, "details") == Str(details)
  {
    var e := Field("error", Str("Failed to process request"));
    var d := Field("details", Str(details));
    PropsLiteral(e, d, d);
    Obj([e, d])
  }

  /**
   * `handleRequest(req, res)`: the condition of each branch is evaluated
   * left to right and stops early, so the path is only read for GET and
   * POST requests; a throw anywhere in the chain leads to the 500 answer.
   */
  function HandleRequest(verb: string, path: Option<string>): (r: Response)
    ensures r.status == 200 <==> (verb == "GET" || verb == "POST") && UnderApi(path) == Ok(true)
    ensures r.status == 200 && verb == "GET" ==> r.body == Acknowledge("GET request handled successfully")
    ensures r.status == 200 && verb == "POST" ==> r.body == Acknowledge("POST request handled successfully")
    ensures r.status == 404 <==> (verb != "GET" && verb != "POST") || UnderApi(path) == Ok(false)
    ensures r.status == 404 ==> r.body == NotFound()
    ensures r.status == 500 <==> (verb == "GET" || verb == "POST") && path.None?
    ensures r.status == 500 ==> r.body == ProcessingFailed(StartsWithOfUndefined)
  {
    if verb == "GET" && UnderApi(path).Err? then Response(500, ProcessingFailed(UnderApi(path).message))
    else if verb == "GET" && UnderApi(path).value then Response(200, Acknowledge("GET request handled successfully"))
    else if verb == "POST" && UnderApi(path).Err? then Response(500, ProcessingFailed(UnderApi(path).message))
    else if verb == "POST" && UnderApi(path).value then Response(200, Acknowledge("POST request handled successfully"))
    else Response(404, NotFound())
  }
}
