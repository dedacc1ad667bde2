/**
 * The result every tool handler returns: one text content block holding the
 * JSON serialisation of a payload, and `isError: true` on the error path. The
 * model keeps the payload before `JSON.stringify`.
 */
module ToolResult {
  import opened Wrappers
  import opened Json
  import opened Graph

  datatype ToolResult = ToolResult(payload: Value, isError: bool)

  /** `{ content: [{ type: 'text', text: JSON.stringify(payload) }] }`. */
  function Success(payload: Value): (r: ToolResult)
    ensures !r.isError && r.payload == payload
  {
    ToolResult(payload, false)
  }

  /** The error envelope `{ error, details }` with `isError: true`. */
  function Failure(error: string, details: string): (r: ToolResult)
    ensures r.isError
    ensures Keys(r.payload) == {"error", "details"}
    ensures Get(r.payload, "error") == Str(error) && Get(r.payload, "details") == Str(details)
  {
    var fields := [Field("error", Str(error)), Field("details", Str(details))];
    PropsLiteral(fields[0], fields[1], fields[1]);
    ToolResult(Obj(fields), true)
  }

  /** The message of the TypeError `this.#graphClient.api(..)` throws before `initialize` has run. */
  const NoClientMessage := "Cannot read properties of undefined (reading 'api')"

  /** Whether the Graph call throws: no client yet, or the request fails. */
  predicate Fails(client: Option<Client>, req: Request) {
    client.None? || client.value(req).Error?
  }

  /** The message of the error the call throws. */
  function ErrorMessage(client: Option<Client>, req: Request): string
    requires Fails(client, req)
  {
    if client.None? then NoClientMessage else client.value(req).message
  }

  /** The response object the call resolves to. */
  function Answer(client: Option<Client>, req: Request): Value
    requires !Fails(client, req)
  {
    ResponseObject(client.value(req))
  }

  /**
   * `try { const response = await client.api(..)...; return success(response) }
   *  catch (error) { return { error: failure, details: error.message, isError: true } }`.
   */
  function Perform(client: Option<Client>, req: Request, failure: string, success: Value -> Value): (r: ToolResult)
    ensures r.isError <==> Fails(client, req)
    ensures Fails(client, req) ==> r == Failure(failure, ErrorMessage(client, req))
    ensures !Fails(client, req) ==> r == Success(success(Answer(client, req)))
  {
    match client
    case None => Failure(failure, NoClientMessage)
    case Some(graph) =>
      match graph(req)
      case Error(msg) => Failure(failure, msg)
      case Response(fields) => Success(success(Obj(fields)))
  }

  /** `JSON.stringify(response.value)`: a list operation returns the `value` array. */
  function ListValue(response: Value): Value {
    Get(response, "value")
  }

  /** `{ success: true, ...extra }`. */
  function SuccessObject(extra: seq<Field>): Value {
    Obj([Field("success", Bool(true))] + extra)
  }

  /** `{ success: true, [idKey]: response.id, [key]: response }`: what a create operation returns. */
  function Created(idKey: string, key: string, response: Value): Value {
    SuccessObject([Field(idKey, Get(response, "id")), Field(key, response)])
  }

  /** `{ success: true, [key]: response }`: what an update operation returns. */
  function Updated(key: string, response: Value): Value {
    SuccessObject([Field(key, response)])
  }

  /** `{ success: true }`: what a delete operation returns; the response is not read. */
  function Deleted(response: Value): Value {
    SuccessObject([])
  }
}
