/**
 * The Microsoft Graph client as the tools use it:
 * `client.api(path).select(..).top(..).orderby(..).filter(..).get()` and
 * `.post(body)`, `.patch(body)`, `.delete()`. A request records the path,
 * the query options in the order the builder calls were chained, and the
 * body. The Graph service itself is an oracle `Client` that answers every
 * request with a JSON object or an error message.
 */
module Graph {
  import opened Wrappers
  import opened Json

  datatype Method = GET | POST | PATCH | DELETE

  datatype QueryOption =
    | Select(fields: string)
    | Top(n: int)
    | OrderBy(order: string)
    | Filter(expr: string)

  datatype Request = Request(verb: Method, path: string, query: seq<QueryOption>, body: Value)

  /** What `await request` yields: the response object, or the message of the error it throws. */
  datatype Outcome = Response(fields: seq<Field>) | Error(message: string)

  /** The Graph service, answering each request. */
  type Client = Request -> Outcome

  /** The response of an outcome as a JavaScript object. */
  function ResponseObject(o: Outcome): Value
    requires o.Response?
  {
    Obj(o.fields)
  }

  /** The argument of the last `.top(n)` in the chain. */
  function TopOf(q: seq<QueryOption>): Option<int> {
    if |q| == 0 then None
    else if q[|q| - 1].Top? then Some(q[|q| - 1].n)
    else TopOf(q[..|q| - 1])
  }

  /** The argument of the last `.orderby(o)` in the chain. */
  function OrderByOf(q: seq<QueryOption>): Option<string> {
    if |q| == 0 then None
    else if q[|q| - 1].OrderBy? then Some(q[|q| - 1].order)
    else OrderByOf(q[..|q| - 1])
  }

  /** The argument of the last `.filter(f)` in the chain. */
  function FilterOf(q: seq<QueryOption>): Option<string> {
    if |q| == 0 then None
    else if q[|q| - 1].Filter? then Some(q[|q| - 1].expr)
    else FilterOf(q[..|q| - 1])
  }

  /** The argument of the last `.select(s)` in the chain. */
  function SelectOf(q: seq<QueryOption>): Option<string> {
    if |q| == 0 then None
    else if q[|q| - 1].Select? then Some(q[|q| - 1].fields)
    else SelectOf(q[..|q| - 1])
  }

  /**
   * The chain every list operation builds: `.select(fields).top(top).orderby(order)`,
   * then `query = query.filter(filter)` only when a filter is given.
   */
  function ListQuery(fields: string, top: int, order: string, filter: Option<string>): (q: seq<QueryOption>)
    ensures SelectOf(q) == Some(fields)
    ensures TopOf(q) == Some(top)
    ensures OrderByOf(q) == Some(order)
    ensures FilterOf(q) == if Supplied(filter) then filter else None
    ensures |q| == if Supplied(filter) then 4 else 3
  {
    var base := [Select(fields), Top(top), OrderBy(order)];
    assert base[..2] == [Select(fields), Top(top)] && base[..1] == [Select(fields)];
    assert base[..2][..1] == base[..1] && base[..1][..0] == [];
    assert SelectOf(base[..1]) == Some(fields) && SelectOf(base[..2]) == Some(fields);
    assert FilterOf(base[..1]) == None && FilterOf(base[..2]) == None;
    assert TopOf(base[..2]) == Some(top);
    if Supplied(filter) then
      var q := base + [Filter(filter.value)];
      assert q[..3] == base;
      assert SelectOf(base) == Some(fields) && TopOf(base) == Some(top);
      q
    else base
  }
}
