/**
 * The two tools the HTTP server registers itself: send_email and
 * list_events. Each first obtains the user's access token from the token
 * store, then calls Graph through a client built on that token; any error on
 * the way (from the token store or from Graph) becomes the tool's error
 * envelope. `getGraphClient(accessToken)` is the oracle `graph`, answering
 * the requests of a client built on a given token.
 */
module M365Tools {
  import opened Wrappers
  import opened Json
  import opened Text
  import opened Graph
  import opened ToolResult
  import opened Payload
  import opened Tokens

  const EventsPath := "/me/calendar/events"
  // `$select=id,subject,start,end,location,organizer,attendees,webLink` and
  // `$orderby=start/dateTime`, written in pieces the verifier can inspect
  const EventsSelect := "$select=" + "id,subject,start," + "end,location," + "organizer," + "attendees,webLink"
  const EventsOrder := "$orderby=" + "start/dateTime"
  const DefaultMaxEvents := 10
  const SendMailPath := "/me/sendMail"
  const EmailSent := "Email sent successfully"

  datatype ListEventsArgs = ListEventsArgs(
    userId: string, timeMin: Option<string>, timeMax: Option<string>, maxResults: Option<int>)

  datatype SendEmailArgs = SendEmailArgs(
    userId: string, to: seq<string>, subject: string, body: string,
    cc: Option<seq<string>>, bcc: Option<seq<string>>, isHtml: Option<bool>)

  /** The bounds the list_events schema puts on `maxResults`. */
  predicate ValidListEvents(a: ListEventsArgs) {
    a.maxResults.Some? ==> 1 <= a.maxResults.value <= 50
  }

  /** The bounds the send_email schema puts on its parameters. */
  predicate ValidSendEmail(a: SendEmailArgs) {
    |a.subject| >= 1 && |a.body| >= 1
  }

  /** The `$top` parameter for a page size. */
  function TopParam(maxResults: int): string {
    "$top=" + IntToString(maxResults)
  }

  /** The rendering of an integer holds digits and at most a leading minus sign, never `&`. */
  lemma IntToStringHasNoAmpersand(n: int)
    ensures '&' !in IntToString(n)
  {
    var s := NatToString(if n < 0 then -n else n);
    assert forall i :: 0 <= i < |s| ==> IsDigit(s[i]);
    if n < 0 {
      assert IntToString(n) == "-" + s;
    }
  }

  /**
   * What the list_events endpoint says: the path `/me/calendar/events`, a
   * `?`, and `&`-separated parameters that split back into `$top`, `$select`
   * and `$orderby` in that order, then `startDateTime` exactly when a start
   * was given and `endDateTime` exactly when an end was given, each holding
   * the URI-encoded time.
   */
  predicate EventsEndpointFor(endpoint: string, maxResults: int, timeMin: Option<string>, timeMax: Option<string>) {
    var q := IndexOf(endpoint, '?');
    && q < |endpoint| && endpoint[..q] == EventsPath
    && EventsParamsFor(Split(endpoint[q + 1..], '&'), maxResults, timeMin, timeMax)
  }

  /** The parameter list of the list_events endpoint, in order. */
  predicate EventsParamsFor(params: seq<string>, maxResults: int, timeMin: Option<string>, timeMax: Option<string>) {
    && |params| == 3 + (if Supplied(timeMin) then 1 else 0) + (if Supplied(timeMax) then 1 else 0)
    && params[0] == TopParam(maxResults) && params[1] == EventsSelect && params[2] == EventsOrder
    && (Supplied(timeMin) ==> params[3] == "startDateTime=" + EncodeUriComponent(timeMin.value))
    && (Supplied(timeMax) ==> params[|params| - 1] == "endDateTime=" + EncodeUriComponent(timeMax.value))
  }

  /**
   * The endpoint list_events calls: the fixed parameters, then the optional
   * time bounds pushed when given, joined with `&` after a `?`.
   */
  method EventsEndpoint(maxResults: int, timeMin: Option<string>, timeMax: Option<string>) returns (endpoint: string)
    ensures EventsEndpointFor(endpoint, maxResults, timeMin, timeMax)
  {
    FixedParamsHaveNoAmpersand(maxResults);
    var params := [TopParam(maxResults), EventsSelect, EventsOrder];
    if Supplied(timeMin) {
      var p := "startDateTime=" + EncodeUriComponent(timeMin.value);
      TimeParamHasNoAmpersand("startDateTime=", timeMin.value);
      params := params + [p];
    }
    assert forall i :: 0 <= i < |params| ==> '&' !in params[i];
    if Supplied(timeMax) {
      var p := "endDateTime=" + EncodeUriComponent(timeMax.value);
      TimeParamHasNoAmpersand("endDateTime=", timeMax.value);
      params := params + [p];
    }
    assert EventsParamsFor(params, maxResults, timeMin, timeMax);
    endpoint := EventsPath + "?" + Join(params, "&");
    EndpointSplits(params);
  }

  lemma FixedParamsHaveNoAmpersand(maxResults: int)
    ensures '&' !in TopParam(maxResults) && '&' !in EventsSelect && '&' !in EventsOrder
  {
    IntToStringHasNoAmpersand(maxResults);
  }

  lemma TimeParamHasNoAmpersand(name: string, time: string)
    requires name == "startDateTime=" || name == "endDateTime="
    ensures '&' !in name + EncodeUriComponent(time)
  {
    EncodedHasNoAmpersand(time);
  }

  /** The endpoint built from `&`-free parameters names the events path and splits back into them. */
  lemma EndpointSplits(params: seq<string>)
    requires |params| >= 1
    requires forall i :: 0 <= i < |params| ==> '&' !in params[i]
    ensures var endpoint := EventsPath + "?" + Join(params, "&");
      var q := IndexOf(endpoint, '?');
      && q == |EventsPath| < |endpoint| && endpoint[..q] == EventsPath
      && Split(endpoint[q + 1..], '&') == params
  {
    var endpoint := EventsPath + "?" + Join(params, "&");
    SplitJoin(params, '&');
    IndexOfAfter(EventsPath, '?', Join(params, "&"));
    assert endpoint == EventsPath + ['?'] + Join(params, "&");
    assert endpoint[|EventsPath| + 1..] == Join(params, "&");
  }

  /** `isHtml ? 'HTML' : 'Text'`, `isHtml` defaulting to true. */
  function ContentType(isHtml: Option<bool>): string {
    if isHtml.GetOr(true) then "HTML" else "Text"
  }

  /** What Graph reads from the message send_email builds. */
  datatype MailFields = MailFields(
    subject: Option<string>, contentType: Option<string>, content: Option<string>,
    to: Option<seq<string>>, cc: Option<seq<string>>, bcc: Option<seq<string>>)

  function ReadMail(v: Value): MailFields {
    var body := Get(v, "body");
    MailFields(
      StrOf(Get(v, "subject")), StrOf(Get(body, "contentType")), StrOf(Get(body, "content")),
      RecipientListOf(Get(v, "toRecipients")), RecipientListOf(Get(v, "ccRecipients")),
      RecipientListOf(Get(v, "bccRecipients")))
  }

  /**
   * The message send_email builds: subject and content as given, typed
   * 'HTML' or 'Text' after `isHtml`, and every recipient list mapped in
   * order, a missing cc or bcc list becoming an empty one: the object
   * literal `{ subject, body, toRecipients, ccRecipients, bccRecipients }`.
   */
  function Mail(a: SendEmailArgs): (m: Value)
    ensures Keys(m) == {"subject", "body", "toRecipients", "ccRecipients", "bccRecipients"}
    ensures ReadMail(m) == MailFields(Some(a.subject), Some(ContentType(a.isHtml)), Some(a.body),
      Some(a.to), Some(a.cc.GetOr([])), Some(a.bcc.GetOr([])))
  {
    var cc := a.cc.GetOr([]);
    var bcc := a.bcc.GetOr([]);
    BodyRoundTrip(a.body, ContentType(a.isHtml));
    RecipientListRoundTrip(a.to);
    RecipientListRoundTrip(cc);
    RecipientListRoundTrip(bcc);
    var f0 := Field("subject", Str(a.subject));
    var f1 := Field("body", TypeFirstBody(ContentType(a.isHtml), a.body));
    var f2 := Field("toRecipients", RecipientList(a.to));
    var f3 := Field("ccRecipients", RecipientList(cc));
    var f4 := Field("bccRecipients", RecipientList(bcc));
    PropsLiteral5(f0, f1, f2, f3, f4);
    Obj([f0, f1, f2, f3, f4])
  }

  /** The sendMail request body `{ message, saveToSentItems: true }`. */
  function SendMailBody(a: SendEmailArgs): (v: Value)
    ensures Keys(v) == {"message", "saveToSentItems"}
    ensures Get(v, "message") == Mail(a) && Get(v, "saveToSentItems") == Bool(true)
  {
    var m := Field("message", Mail(a));
    var s := Field("saveToSentItems", Bool(true));
    PropsLiteral(m, s, s);
    Obj([m, s])
  }

  /** `{ success: true, message: 'Email sent successfully' }`; the sendMail response is not read. */
  function EmailSentPayload(response: Value): (v: Value)
    ensures Get(v, "success") == Bool(true) && Get(v, "message") == Str(EmailSent)
  {
    var ok := Field("success", Bool(true));
    var m := Field("message", Str(EmailSent));
    PropsLiteral(ok, m, m);
    SuccessObject([m])
  }

  /**
   * The handler's body after the token store has answered: with a token, the
   * Graph call through a client built on it; without one, the error envelope
   * carrying the token store's message.
   */
  function Authorized(access: Result<string>, graph: string -> Client, req: Request, failure: string,
                      success: Value -> Value): (r: ToolResult)
    ensures access.Err? ==> r == Failure(failure, access.message)
    ensures access.Ok? ==> r == Perform(Some(graph(access.value)), req, failure, success)
    ensures r.isError <==> access.Err? || (access.Ok? && graph(access.value)(req).Error?)
  {
    match access
    case Err(msg) => Failure(failure, msg)
    case Ok(token) => Perform(Some(graph(token)), req, failure, success)
  }

  /**
   * send_email: a token for the user, then POST `/me/sendMail` with the
   * message; the result is the fixed success object or the error envelope
   * "Failed to send email".
   */
  method SendEmail(store: TokenStore, a: SendEmailArgs, now: int, refreshed: Result<Token>, graph: string -> Client)
    returns (r: ToolResult, sent: Option<Request>)
    modifies store
    ensures var access := Decide(StoredOf(old(store.tokens), a.userId), now, refreshed);
      && store.tokens == After(old(store.tokens), a.userId, access)
      && (Reply(access).Err? ==> sent == None && r == Failure("Failed to send email", Reply(access).message))
      && (Reply(access).Ok? ==> sent == Some(Request(POST, SendMailPath, [], SendMailBody(a))))
      && r == Authorized(Reply(access), graph, Request(POST, SendMailPath, [], SendMailBody(a)),
        "Failed to send email", EmailSentPayload)
  {
    var access := store.GetValidAccessToken(a.userId, now, refreshed);
    var req := Request(POST, SendMailPath, [], SendMailBody(a));
    sent := if access.Ok? then Some(req) else None;
    r := Authorized(access, graph, req, "Failed to send email", EmailSentPayload);
  }

  /**
   * list_events: a token for the user, then GET the events endpoint; the
   * result is the response's `value` list or the error envelope "Failed to
   * list events".
   */
  method ListEvents(store: TokenStore, a: ListEventsArgs, now: int, refreshed: Result<Token>, graph: string -> Client)
    returns (r: ToolResult, sent: Option<Request>)
    modifies store
    ensures var access := Decide(StoredOf(old(store.tokens), a.userId), now, refreshed);
      && store.tokens == After(old(store.tokens), a.userId, access)
      && (Reply(access).Err? ==> sent == None && r == Failure("Failed to list events", Reply(access).message))
      && (Reply(access).Ok? ==>
        && sent.Some? && sent.value.verb == GET && sent.value.query == [] && sent.value.body == Undefined
        && EventsEndpointFor(sent.value.path, a.maxResults.GetOr(DefaultMaxEvents), a.timeMin, a.timeMax)
        && r == Perform(Some(graph(Reply(access).value)), sent.value, "Failed to list events", ListValue))
  {
    var access := store.GetValidAccessToken(a.userId, now, refreshed);
    if access.Err? {
      r := Failure("Failed to list events", access.message);
      sent := None;
      return;
    }
    var endpoint := EventsEndpoint(a.maxResults.GetOr(DefaultMaxEvents), a.timeMin, a.timeMax);
    var req := Request(GET, endpoint, [], Undefined);
    sent := Some(req);
    r := Perform(Some(graph(access.value)), req, "Failed to list events", ListValue);
  }
}
