/**
 * The streamable-HTTP front end of the MCP server: one table from session id
 * to the transport and server of that session, and the three `/mcp`
 * handlers. A POST without a session id that carries an `initialize` request
 * opens a session; every other request must name a session in the table.
 *
 * Transports and servers are objects; here each is a handle (a number) that
 * the server allocates in creation order. What the MCP SDK does inside
 * `transport.handleRequest` is an oracle: whether it initialises the session
 * (generating its id and calling `onsessioninitialized`), and whether it then
 * throws an error with a message.
 */
module McpSessions {
  import opened Wrappers
  import opened Json

  const JsonRpcVersion := "2.0"
  const ServerErrorCode := -32000
  const NoValidSession := "Bad Request: No valid session ID provided"
  const InvalidSession := "Invalid or missing session ID"
  const InternalError := "Internal server error"

  /** What a stored session holds: `{ transport, server }`. */
  datatype Session = Session(transport: nat, server: nat)

  /** A transport's state: the session id it was given, and the server it was connected to, if any. */
  datatype Transport = Transport(sessionId: Option<string>, server: Option<nat>)

  /**
   * What the SDK's `transport.handleRequest` does with a request: whether it
   * initialises a new session (a transport that already has a session is
   * never initialised again, so the flag is only consulted for a new one),
   * and the error it throws at the end, if any.
   */
  datatype TransportReply = TransportReply(initializes: bool, thrown: Option<string>)

  /** The HTTP answer: handed to a transport, or an error written by the handler itself. */
  datatype HttpResponse =
    | Delegated(transport: nat)
    | JsonError(status: int, body: Value)
    | TextError(status: int, text: string)

  /** `{ jsonrpc: '2.0', error, id: null }`. */
  function JsonRpcError(error: Value): (body: Value)
    ensures Keys(body) == {"jsonrpc", "error", "id"}
    ensures Get(body, "jsonrpc") == Str(JsonRpcVersion) && Get(body, "id") == Null && Get(body, "error") == error
  {
    PropsLiteral(Field("jsonrpc", Str(JsonRpcVersion)), Field("error", error), Field("id", Null));
    Obj([Field("jsonrpc", Str(JsonRpcVersion)), Field("error", error), Field("id", Null)])
  }

  /** The 400 body of a POST that neither names a session nor initializes one. */
  function BadRequestBody(): (body: Value)
    ensures Get(body, "jsonrpc") == Str(JsonRpcVersion) && Get(body, "id") == Null
    ensures Get(Get(body, "error"), "code") == Num(ServerErrorCode)
    ensures Get(Get(body, "error"), "message") == Str(NoValidSession)
    ensures !Has(Get(body, "error"), "data")
  {
    var c := Field("code", Num(ServerErrorCode));
    var m := Field("message", Str(NoValidSession));
    PropsLiteral(c, m, m);
    JsonRpcError(Obj([c, m]))
  }

  /** The 500 body of a POST whose handling threw: the error's message goes in `data`. */
  function InternalErrorBody(message: string): (body: Value)
    ensures Get(body, "jsonrpc") == Str(JsonRpcVersion) && Get(body, "id") == Null
    ensures Get(Get(body, "error"), "code") == Num(ServerErrorCode)
    ensures Get(Get(body, "error"), "message") == Str(InternalError)
    ensures Get(Get(body, "error"), "data") == Str(message)
  {
    var c := Field("code", Num(ServerErrorCode));
    var m := Field("message", Str(InternalError));
    var d := Field("data", Str(message));
    PropsLiteral(c, m, d);
    JsonRpcError(Obj([c, m, d]))
  }

  /**
   * `createServer(config)` builds the four tools and initializes each with
   * `config`; the first of them reads `config.tenantId`, which throws when the
   * initialize request carried no config.
   */
  function CreateServerError(config: Value): (e: Option<string>)
    ensures e.Some? <==> config.Undefined? || config.Null?
  {
    if config.Undefined? then Some("Cannot read properties of undefined (reading 'tenantId')")
    else if config.Null? then Some("Cannot read properties of null (reading 'tenantId')")
    else None
  }

  /** Which branch of the POST handler a request takes. */
  datatype PostRoute = Reuse(transport: nat) | Open | Reject

  /**
   * Every stored session belongs to a transport that knows the session's id;
   * the stored server is not the one the transport was connected to (the
   * handler creates two servers per session); every handle has been allocated.
   */
  ghost predicate ValidTable(sessions: map<string, Session>, transports: map<nat, Transport>, nextHandle: nat) {
    && "" !in sessions
    && (forall id :: id in sessions ==>
      && sessions[id].transport in transports
      && transports[sessions[id].transport].sessionId == Some(id)
      && transports[sessions[id].transport].server.Some?
      && sessions[id].server != transports[sessions[id].transport].server.value
      && sessions[id].server < nextHandle)
    && (forall t :: t in transports ==> t < nextHandle && transports[t].server.GetOr(0) < nextHandle)
  }

  /** A new transport, under a handle not allocated before, that serves no session yet. */
  lemma AddTransport(sessions: map<string, Session>, transports: map<nat, Transport>, n: nat, tr: Transport, next: nat)
    requires ValidTable(sessions, transports, n)
    requires n < next && tr.server.GetOr(0) < next
    ensures ValidTable(sessions, transports[n := tr], next)
  {
    forall id | id in sessions ensures sessions[id].transport != n {
    }
  }

  /** Storing a session under a new id, with a transport that knows that id. */
  lemma AddSession(sessions: map<string, Session>, transports: map<nat, Transport>, next: nat, id: string, entry: Session)
    requires ValidTable(sessions, transports, next)
    requires id != "" && entry.transport in transports && entry.server < next
    requires transports[entry.transport].sessionId == Some(id)
    requires transports[entry.transport].server.Some? && transports[entry.transport].server.value != entry.server
    ensures ValidTable(sessions[id := entry], transports, next)
  {
  }

  class SessionServer {
    /** The session table `sessions`. */
    var sessions: map<string, Session>
    /** Every transport created so far. */
    var transports: map<nat, Transport>
    /** The next free object handle. */
    var nextHandle: nat

    /** The table invariant, on this server's state. */
    ghost predicate Valid()
      reads this
    {
      ValidTable(sessions, transports, nextHandle)
    }

    constructor()
      ensures Valid() && sessions == map[] && transports == map[] && nextHandle == 0
    {
      sessions := map[];
      transports := map[];
      nextHandle := 0;
    }

    /** A session id no transport has been given yet: what `randomUUID()` is relied on to produce. */
    predicate Unused(id: string)
      reads this
    {
      forall t :: t in transports ==> transports[t].sessionId != Some(id)
    }

    /**
     * The branch the POST handler takes: a known session id reuses its
     * transport; no id (or an empty one) with an initialize request opens a
     * session; anything else is rejected.
     */
    function Route(header: Option<string>, isInitialize: bool): (route: PostRoute)
      reads this
      ensures route.Reuse? <==> Supplied(header) && header.value in sessions
      ensures route.Reuse? ==> route.transport == sessions[header.value].transport
      ensures route.Open? <==> !Supplied(header) && isInitialize
      ensures route.Reject? ==> (Supplied(header) && header.value !in sessions) || (!Supplied(header) && !isInitialize)
    {
      if Supplied(header) && header.value in sessions then Reuse(sessions[header.value].transport)
      else if !Supplied(header) && isInitialize then Open
      else Reject
    }

    /**
     * The initialize branch of POST /mcp: a new transport, then a server
     * connected to it (`createServer` at line 79); then, when the transport
     * initialises the session under the generated `freshId`, a second server
     * (`createServer` inside `onsessioninitialized`) stored with the
     * transport under that id. The session stays stored even when the
     * transport throws afterwards.
     */
    method OpenSession(config: Value, freshId: string, reply: TransportReply) returns (resp: HttpResponse)
      requires Valid()
      requires freshId != "" && Unused(freshId)
      modifies this
      ensures Valid()
      ensures old(nextHandle) in transports && transports == old(transports)[old(nextHandle) := transports[old(nextHandle)]]
      ensures CreateServerError(config).Some? ==>
        && resp == JsonError(500, InternalErrorBody(CreateServerError(config).value))
        && sessions == old(sessions) && transports[old(nextHandle)] == Transport(None, None)
      ensures CreateServerError(config).None? ==>
        && resp == (if reply.thrown.Some? then JsonError(500, InternalErrorBody(reply.thrown.value)) else Delegated(old(nextHandle)))
        && (reply.initializes ==>
          && sessions == old(sessions)[freshId := Session(old(nextHandle), old(nextHandle) + 2)]
          && transports[old(nextHandle)] == Transport(Some(freshId), Some(old(nextHandle) + 1)))
        && (!reply.initializes ==>
          && sessions == old(sessions)
          && transports[old(nextHandle)] == Transport(None, Some(old(nextHandle) + 1)))
    {
      var t := nextHandle;
      nextHandle := nextHandle + 1;
      var failure := CreateServerError(config);
      if failure.Some? {
        AddTransport(sessions, transports, t, Transport(None, None), nextHandle);
        transports := transports[t := Transport(None, None)];
        resp := JsonError(500, InternalErrorBody(failure.value));
        return;
      }
      var connected := nextHandle;
      nextHandle := nextHandle + 1;
      if reply.initializes {
        var stored := nextHandle;
        nextHandle := nextHandle + 1;
        AddTransport(sessions, transports, t, Transport(Some(freshId), Some(connected)), nextHandle);
        transports := transports[t := Transport(Some(freshId), Some(connected))];
        AddSession(sessions, transports, nextHandle, freshId, Session(t, stored));
        sessions := sessions[freshId := Session(t, stored)];
      } else {
        AddTransport(sessions, transports, t, Transport(None, Some(connected)), nextHandle);
        transports := transports[t := Transport(None, Some(connected))];
      }
      if reply.thrown.Some? {
        resp := JsonError(500, InternalErrorBody(reply.thrown.value));
      } else {
        resp := Delegated(t);
      }
    }

    /**
     * POST /mcp. `config` is `req.body.params?.config`, `freshId` the id the
     * transport generates for a new session, `reply` what the transport does
     * with the request.
     */
    method Post(header: Option<string>, isInitialize: bool, config: Value, freshId: string, reply: TransportReply)
      returns (resp: HttpResponse)
      requires Valid()
      requires freshId != "" && Unused(freshId)
      modifies this
      ensures Valid()
      ensures old(Route(header, isInitialize)).Reject? ==>
        && resp == JsonError(400, BadRequestBody())
        && sessions == old(sessions) && transports == old(transports)
      ensures old(Route(header, isInitialize)).Reuse? ==>
        && sessions == old(sessions) && transports == old(transports)
        && resp == match reply.thrown
          case None => Delegated(old(Route(header, isInitialize)).transport)
          case Some(m) => JsonError(500, InternalErrorBody(m))
      ensures old(Route(header, isInitialize)).Open? ==>
        && transports.Keys == old(transports.Keys) + {old(nextHandle)}
        && (CreateServerError(config).Some? ==>
          && resp == JsonError(500, InternalErrorBody(CreateServerError(config).value))
          && sessions == old(sessions) && transports[old(nextHandle)] == Transport(None, None))
        && (CreateServerError(config).None? ==>
          && resp == (if reply.thrown.Some? then JsonError(500, InternalErrorBody(reply.thrown.value)) else Delegated(old(nextHandle)))
          && sessions == (if reply.initializes then old(sessions)[freshId := Session(old(nextHandle), old(nextHandle) + 2)] else old(sessions))
          && transports[old(nextHandle)] == Transport(if reply.initializes then Some(freshId) else None, Some(old(nextHandle) + 1)))
    {
      var route := Route(header, isInitialize);
      match route
      case Reject =>
        resp := JsonError(400, BadRequestBody());
      case Reuse(t) =>
        resp := if reply.thrown.None? then Delegated(t) else JsonError(500, InternalErrorBody(reply.thrown.value));
      case Open =>
        resp := OpenSession(config, freshId, reply);
    }

    /** GET /mcp and DELETE /mcp: both hand the request to the session's transport, or answer 400. */
    function RouteToSession(header: Option<string>): (resp: HttpResponse)
      reads this
      ensures resp.Delegated? <==> Supplied(header) && header.value in sessions
      ensures resp.Delegated? ==> resp.transport == sessions[header.value].transport
      ensures !resp.Delegated? ==> resp == TextError(400, InvalidSession)
    {
      if !Supplied(header) || header.value !in sessions then TextError(400, InvalidSession)
      else Delegated(sessions[header.value].transport)
    }

    /** `transport.onclose`: forget the session of the closed transport, if it had one. */
    method OnClose(t: nat)
      requires Valid() && t in transports
      modifies this
      ensures Valid()
      ensures transports == old(transports) && nextHandle == old(nextHandle)
      ensures Supplied(old(transports[t].sessionId)) ==> sessions == old(sessions) - {old(transports[t].sessionId.value)}
      ensures !Supplied(old(transports[t].sessionId)) ==> sessions == old(sessions)
      ensures forall id :: id in sessions ==> sessions[id].transport != t
    {
      var sid := transports[t].sessionId;
      if Supplied(sid) {
        sessions := map id | id in sessions && id != sid.value :: sessions[id];
      }
    }
  }

  /**
   * A session's life: an initialize request opens it, requests naming it reach
   * its transport, and once that transport closes, requests naming it are refused.
   */
  method SessionLifecycle(config: Value, id: string) returns (opening: HttpResponse, during: HttpResponse, after: HttpResponse)
    requires config.Obj? && id != ""
    ensures opening == Delegated(0) && during == Delegated(0)
    ensures after == TextError(400, InvalidSession)
  {
    var server := new SessionServer();
    opening := server.Post(None, true, config, id, TransportReply(true, None));
    during := server.RouteToSession(Some(id));
    server.OnClose(0);
    after := server.RouteToSession(Some(id));
  }
}
