/**
 * The `outlook-calendar` tool: one `call(args)` entry point that switches on
 * `args.action` over the events of the signed-in user's default calendar.
 * The arguments are destructured without validation, so every one of them may
 * be missing; an unknown or missing action is answered without any Graph call.
 */
module OutlookCalendar {
  import opened Wrappers
  import opened Json
  import opened Graph
  import opened ToolResult
  import opened Payload

  const EventsPath := "/me/calendar/events"
  const EventSelect := "id,subject,start,end,location,bodyPreview,webLink"
  const EventListSize := 10
  const EventOrder := "start/dateTime"
  const ActionFailed := "Failed to perform action"

  datatype CallArgs = CallArgs(
    action: Option<string>, eventId: Option<string>, subject: Option<string>, body: Option<string>,
    start: Option<string>, end: Option<string>, attendees: Option<seq<string>>)

  /** The event properties Graph reads from an event payload. */
  datatype EventFields = EventFields(
    subject: Option<string>, start: Option<string>, end: Option<string>,
    body: Option<string>, attendees: Option<seq<string>>)

  /** `/me/calendar/events/${eventId}`: a missing id is rendered as the text "undefined". */
  function EventPath(eventId: Option<string>): string {
    EventsPath + "/" + eventId.GetOr("undefined")
  }

  /** `{ emailAddress: { address: email }, type: 'required' }`. */
  function Attendee(email: string): Value {
    Obj([Field("emailAddress", Obj([Field("address", Str(email))])), Field("type", Str("required"))])
  }

  /** `emails.map(email => ({ emailAddress: { address: email }, type: 'required' }))`. */
  function Attendees(emails: seq<string>): (r: seq<Value>)
    ensures |r| == |emails|
    ensures forall i :: 0 <= i < |emails| ==> r[i] == Attendee(emails[i])
  {
    if |emails| == 0 then [] else [Attendee(emails[0])] + Attendees(emails[1..])
  }

  /** The address of a required attendee. */
  function RequiredAddress(v: Value): Option<string> {
    if Get(v, "type") == Str("required") then AddressOf(v) else None
  }

  /** The attendee addresses of an event payload: `undefined` reads as no list at all. */
  function AttendeesOf(v: Value): Option<seq<string>> {
    if v.Arr? then ReadAll(v.items, RequiredAddress) else None
  }

  lemma AttendeeAddress(email: string)
    ensures RequiredAddress(Attendee(email)) == Some(email)
  {
    var inner := Obj([Field("address", Str(email))]);
    PropsLiteral(Field("address", Str(email)), Field("", Undefined), Field("", Undefined));
    PropsLiteral(Field("emailAddress", inner), Field("type", Str("required")), Field("", Undefined));
  }

  /** `attendees?.map(..)`: the mapped list, or `undefined` when no list was given. */
  function AttendeeList(attendees: Option<seq<string>>): Value {
    if attendees.Some? then Arr(Attendees(attendees.value)) else Undefined
  }

  /** Every attendee of the mapped list is required, and the addresses read back in order. */
  lemma AttendeeListRoundTrip(attendees: Option<seq<string>>)
    ensures AttendeesOf(AttendeeList(attendees)) == attendees
  {
    if attendees.Some? {
      var r := Attendees(attendees.value);
      forall i | 0 <= i < |r| ensures RequiredAddress(r[i]) == Some(attendees.value[i]) {
        AttendeeAddress(attendees.value[i]);
      }
      ReadAllExact(r, attendees.value, RequiredAddress);
    }
  }

  function ReadEvent(v: Value): EventFields {
    EventFields(
      StrOf(Get(v, "subject")), UtcDateTimeOf(Get(v, "start")), UtcDateTimeOf(Get(v, "end")),
      BodyContentOf(Get(v, "body"), "HTML"), AttendeesOf(Get(v, "attendees")))
  }

  /**
   * The event the create action posts: subject, start and end passed through
   * as given (a missing one stays missing inside its wrapper), the body only
   * when it is non-empty, and every attendee as a required attendee: the
   * object literal `{ subject, start, end, body, attendees }`.
   */
  function CreateEventBody(a: CallArgs): (event: Value)
    ensures Keys(event) == {"subject", "start", "end", "body", "attendees"}
    ensures ReadEvent(event) == EventFields(a.subject, a.start, a.end, Kept(a.body), a.attendees)
  {
    var body := if Supplied(a.body) then TypeFirstBody("HTML", a.body.value) else Undefined;
    UtcWrapperRoundTrip(a.start);
    UtcWrapperRoundTrip(a.end);
    BodyRoundTrip(a.body.GetOr(""), "HTML");
    AttendeeListRoundTrip(a.attendees);
    var f0 := Field("subject", OfOption(a.subject));
    var f1 := Field("start", UtcWrapper(OfOption(a.start)));
    var f2 := Field("end", UtcWrapper(OfOption(a.end)));
    var f3 := Field("body", body);
    var f4 := Field("attendees", AttendeeList(a.attendees));
    PropsLiteral5(f0, f1, f2, f3, f4);
    Obj([f0, f1, f2, f3, f4])
  }

  /** The names of the event properties the update action sets. */
  function SuppliedUpdates(a: CallArgs): set<string> {
    (if Supplied(a.subject) then {"subject"} else {})
    + (if Supplied(a.start) then {"start"} else {})
    + (if Supplied(a.end) then {"end"} else {})
    + (if Supplied(a.body) then {"body"} else {})
  }

  /** `if (o) m[key] = v`, on a dictionary. */
  ghost function AssignIf(m: map<string, Value>, key: string, o: Option<string>, v: Value): map<string, Value> {
    if Supplied(o) then m[key := v] else m
  }

  /** The four conditional assignments of the update action, read back key by key. */
  lemma PatchProps(a: CallArgs, m: map<string, Value>)
    requires m ==
      AssignIf(AssignIf(AssignIf(AssignIf(map[],
        "subject", a.subject, Str(a.subject.GetOr(""))),
        "start", a.start, UtcDateTime(a.start.GetOr(""))),
        "end", a.end, UtcDateTime(a.end.GetOr(""))),
        "body", a.body, TypeFirstBody("HTML", a.body.GetOr("")))
    ensures m.Keys == SuppliedUpdates(a)
    ensures At(m, "subject") == if Supplied(a.subject) then Str(a.subject.value) else Undefined
    ensures At(m, "start") == if Supplied(a.start) then UtcDateTime(a.start.value) else Undefined
    ensures At(m, "end") == if Supplied(a.end) then UtcDateTime(a.end.value) else Undefined
    ensures At(m, "body") == if Supplied(a.body) then TypeFirstBody("HTML", a.body.value) else Undefined
    ensures At(m, "attendees") == Undefined
  {
  }

  /** What a reader finds in an update whose properties hold these values. */
  lemma ReadPatch(updates: Value, a: CallArgs)
    requires Get(updates, "subject") == if Supplied(a.subject) then Str(a.subject.value) else Undefined
    requires Get(updates, "start") == if Supplied(a.start) then UtcDateTime(a.start.value) else Undefined
    requires Get(updates, "end") == if Supplied(a.end) then UtcDateTime(a.end.value) else Undefined
    requires Get(updates, "body") == if Supplied(a.body) then TypeFirstBody("HTML", a.body.value) else Undefined
    requires Get(updates, "attendees") == Undefined
    ensures ReadEvent(updates) == EventFields(Kept(a.subject), Kept(a.start), Kept(a.end), Kept(a.body), None)
  {
    UtcDateTimeRoundTrip(a.start.GetOr(""));
    UtcDateTimeRoundTrip(a.end.GetOr(""));
    BodyRoundTrip(a.body.GetOr(""), "HTML");
  }

  /**
   * The PATCH body of the update action: a property for each non-empty
   * argument among subject, start, end and body, and nothing else (attendees
   * cannot be changed this way).
   */
  method EventPatch(a: CallArgs) returns (updates: Value)
    ensures Keys(updates) == SuppliedUpdates(a)
    ensures ReadEvent(updates) == EventFields(Kept(a.subject), Kept(a.start), Kept(a.end), Kept(a.body), None)
  {
    var fields: seq<Field> := [];
    ghost var props: map<string, Value> := map[];
    if Supplied(a.subject) {
      fields := Assign(fields, "subject", Str(a.subject.value));
    }
    props := AssignIf(props, "subject", a.subject, Str(a.subject.GetOr("")));
    assert Props(fields) == props;
    if Supplied(a.start) {
      fields := Assign(fields, "start", UtcDateTime(a.start.value));
    }
    props := AssignIf(props, "start", a.start, UtcDateTime(a.start.GetOr("")));
    assert Props(fields) == props;
    if Supplied(a.end) {
      fields := Assign(fields, "end", UtcDateTime(a.end.value));
    }
    props := AssignIf(props, "end", a.end, UtcDateTime(a.end.GetOr("")));
    assert Props(fields) == props;
    if Supplied(a.body) {
      fields := Assign(fields, "body", TypeFirstBody("HTML", a.body.value));
    }
    props := AssignIf(props, "body", a.body, TypeFirstBody("HTML", a.body.GetOr("")));
    assert Props(fields) == props;
    updates := Obj(fields);
    assert Keys(updates) == SuppliedUpdates(a) by {
      PatchProps(a, props);
    }
    assert ReadEvent(updates) == EventFields(Kept(a.subject), Kept(a.start), Kept(a.end), Kept(a.body), None) by {
      PatchProps(a, props);
      ReadPatch(updates, a);
    }
  }

  /** The list action's request: the next ten events, earliest first. */
  function ListRequest(): (req: Request)
    ensures req.verb == GET && req.path == EventsPath
    ensures SelectOf(req.query) == Some(EventSelect) && TopOf(req.query) == Some(EventListSize)
    ensures OrderByOf(req.query) == Some(EventOrder) && FilterOf(req.query) == None
  {
    Request(GET, EventsPath, ListQuery(EventSelect, EventListSize, EventOrder, None), Undefined)
  }

  /** The result of an action that is not one of list, create, update and delete. */
  function InvalidAction(): (r: ToolResult)
    ensures r.isError
    ensures Get(r.payload, "error") == Str("Invalid action")
    ensures Get(r.payload, "details") == Str("Invalid action provided")
  {
    Failure("Invalid action", "Invalid action provided")
  }

  predicate IsAction(action: Option<string>) {
    action == Some("list") || action == Some("create") || action == Some("update") || action == Some("delete")
  }

  /** The tool object: its Graph client is set by `initialize`. */
  class OutlookCalendarTool {
    var client: Option<Client>

    constructor()
      ensures client == None
    {
      client := None;
    }

    /** `initialize(config)`: keeps the client `createGraphClient(config)` builds. */
    method Initialize(graph: Client)
      modifies this
      ensures client == Some(graph)
    {
      client := Some(graph);
    }

    /**
     * `call(args)`. Returns the tool result and the Graph request the action
     * sent, if any. Every Graph failure, and a call before `initialize`, is
     * reported as "Failed to perform action" with the error's message.
     */
    method Call(a: CallArgs) returns (r: ToolResult, sent: Option<Request>)
      ensures sent.None? <==> !IsAction(a.action)
      ensures !IsAction(a.action) ==> r == InvalidAction()
      ensures sent.Some? ==> (r.isError <==> Fails(client, sent.value))
      ensures sent.Some? && Fails(client, sent.value) ==> r == Failure(ActionFailed, ErrorMessage(client, sent.value))
      ensures a.action == Some("list") ==> sent == Some(ListRequest())
      ensures a.action == Some("list") && !r.isError ==> r.payload == ListValue(Answer(client, ListRequest()))
      ensures a.action == Some("create") ==> sent == Some(Request(POST, EventsPath, [], CreateEventBody(a)))
      ensures a.action == Some("create") && !r.isError ==>
        r.payload == Created("eventId", "event", Answer(client, sent.value))
      ensures a.action == Some("update") ==>
        && sent.Some? && sent.value.verb == PATCH
        && sent.value.path == EventPath(a.eventId) && sent.value.query == []
        && Keys(sent.value.body) == SuppliedUpdates(a)
        && ReadEvent(sent.value.body) == EventFields(Kept(a.subject), Kept(a.start), Kept(a.end), Kept(a.body), None)
      ensures a.action == Some("update") && !r.isError ==> r.payload == Updated("event", Answer(client, sent.value))
      ensures a.action == Some("delete") ==> sent == Some(Request(DELETE, EventPath(a.eventId), [], Undefined))
      ensures a.action == Some("delete") && !r.isError ==> r.payload == Deleted(Answer(client, sent.value))
    {
      if a.action == Some("list") {
        var req := ListRequest();
        r := Perform(client, req, ActionFailed, ListValue);
        sent := Some(req);
      } else if a.action == Some("create") {
        var req := Request(POST, EventsPath, [], CreateEventBody(a));
        r := Perform(client, req, ActionFailed, resp => Created("eventId", "event", resp));
        sent := Some(req);
      } else if a.action == Some("update") {
        var updates := EventPatch(a);
        var req := Request(PATCH, EventPath(a.eventId), [], updates);
        r := Perform(client, req, ActionFailed, resp => Updated("event", resp));
        sent := Some(req);
      } else if a.action == Some("delete") {
        var req := Request(DELETE, EventPath(a.eventId), [], Undefined);
        r := Perform(client, req, ActionFailed, Deleted);
        sent := Some(req);
      } else {
        r := InvalidAction();
        sent := None;
      }
    }
  }
}
