/**
 * The `outlook_email` tool: listing, reading, sending, moving and deleting
 * the signed-in user's messages, and listing mail folders.
 */
module OutlookEmail {
  import opened Wrappers
  import opened Json
  import opened Graph
  import opened ToolResult
  import opened Payload

  const MessageSelect := "id,subject,sender,receivedDateTime,bodyPreview,hasAttachments,webLink"
  const MessageDetailSelect :=
    "id,subject,sender,receivedDateTime,body,toRecipients,ccRecipients,bccRecipients,hasAttachments,webLink"
  const FolderSelect := "id,displayName,parentFolderId,childFolderCount,totalItemCount"
  const DefaultFolder := "inbox"
  const DefaultMaxEmails := 10
  const DefaultMaxFolders := 50
  const DefaultMessageOrder := "receivedDateTime desc"
  const FileAttachmentType := "#microsoft.graph.fileAttachment"

  datatype ListEmailsParams = ListEmailsParams(
    folder: Option<string>, maxResults: Option<int>, filter: Option<string>, orderBy: Option<string>)

  datatype AttachmentParam = AttachmentParam(name: string, content: string)

  datatype SendEmailParams = SendEmailParams(
    subject: string, body: string, toRecipients: seq<string>, ccRecipients: Option<seq<string>>,
    bccRecipients: Option<seq<string>>, attachments: Option<seq<AttachmentParam>>)

  datatype ListFoldersParams = ListFoldersParams(maxResults: Option<int>)

  /** The bounds the list_emails schema puts on `maxResults`. */
  predicate ValidListEmails(p: ListEmailsParams) {
    p.maxResults.Some? ==> 1 <= p.maxResults.value <= 50
  }

  /** The bounds the send_email schema puts on its parameters. */
  predicate ValidSendEmail(p: SendEmailParams) {
    |p.subject| >= 1 && |p.body| >= 1 && |p.toRecipients| >= 1
  }

  /** The bounds the list_folders schema puts on `maxResults`. */
  predicate ValidListFolders(p: ListFoldersParams) {
    p.maxResults.Some? ==> 1 <= p.maxResults.value <= 100
  }

  /** `/me/mailFolders/${folder}/messages`. */
  function FolderMessagesPath(folder: string): string {
    "/me/mailFolders/" + folder + "/messages"
  }

  /** `/me/messages/${messageId}`. */
  function MessagePath(messageId: string): string {
    "/me/messages/" + messageId
  }

  /** The request list_emails sends. */
  function ListEmailsRequest(p: ListEmailsParams): (req: Request)
    ensures req.verb == GET && req.path == FolderMessagesPath(p.folder.GetOr(DefaultFolder))
    ensures SelectOf(req.query) == Some(MessageSelect)
    ensures TopOf(req.query) == Some(p.maxResults.GetOr(DefaultMaxEmails))
    ensures OrderByOf(req.query) == Some(p.orderBy.GetOr(DefaultMessageOrder))
    ensures FilterOf(req.query) == if Supplied(p.filter) then p.filter else None
  {
    Request(GET, FolderMessagesPath(p.folder.GetOr(DefaultFolder)),
      ListQuery(MessageSelect, p.maxResults.GetOr(DefaultMaxEmails), p.orderBy.GetOr(DefaultMessageOrder), p.filter),
      Undefined)
  }

  /** A schema-valid list_emails call asks for between 1 and 50 messages. */
  lemma ListEmailsPageBounded(p: ListEmailsParams)
    requires ValidListEmails(p)
    ensures TopOf(ListEmailsRequest(p).query).Some?
    ensures 1 <= TopOf(ListEmailsRequest(p).query).value <= 50
  {
  }

  /** `{ '@odata.type': '#microsoft.graph.fileAttachment', name, contentBytes: content }`. */
  function FileAttachment(a: AttachmentParam): Value {
    Obj([Field("@odata.type", Str(FileAttachmentType)), Field("name", Str(a.name)), Field("contentBytes", Str(a.content))])
  }

  /** `attachments.map(..)`. */
  function FileAttachments(atts: seq<AttachmentParam>): (r: seq<Value>)
    ensures |r| == |atts|
    ensures forall i :: 0 <= i < |atts| ==> r[i] == FileAttachment(atts[i])
  {
    if |atts| == 0 then [] else [FileAttachment(atts[0])] + FileAttachments(atts[1..])
  }

  /** The name and content of a file attachment. */
  function AttachmentOf(v: Value): Option<AttachmentParam> {
    if Get(v, "@odata.type") == Str(FileAttachmentType) && Get(v, "name").Str? && Get(v, "contentBytes").Str?
    then Some(AttachmentParam(Get(v, "name").s, Get(v, "contentBytes").s))
    else None
  }

  lemma AttachmentRoundTrip(a: AttachmentParam)
    ensures AttachmentOf(FileAttachment(a)) == Some(a)
  {
    PropsLiteral(Field("@odata.type", Str(FileAttachmentType)), Field("name", Str(a.name)), Field("contentBytes", Str(a.content)));
  }

  /** The attachments of a message payload. */
  function AttachmentsOf(v: Value): Option<seq<AttachmentParam>> {
    if v.Arr? then ReadAll(v.items, AttachmentOf) else None
  }

  /** Every attachment is sent as a file attachment, in order, name and base64 content unchanged. */
  lemma AttachmentsRoundTrip(atts: seq<AttachmentParam>)
    ensures AttachmentsOf(Arr(FileAttachments(atts))) == Some(atts)
  {
    var r := FileAttachments(atts);
    forall i | 0 <= i < |r| ensures AttachmentOf(r[i]) == Some(atts[i]) {
      AttachmentRoundTrip(atts[i]);
    }
    ReadAllExact(r, atts, AttachmentOf);
  }

  /** What Graph reads from a message: subject, HTML body, the three recipient lists, attachments. */
  datatype MessageFields = MessageFields(
    subject: Option<string>, body: Option<string>, to: Option<seq<string>>, cc: Option<seq<string>>,
    bcc: Option<seq<string>>, attachments: Option<seq<AttachmentParam>>)

  function ReadMessage(v: Value): MessageFields {
    MessageFields(
      StrOf(Get(v, "subject")), BodyContentOf(Get(v, "body"), "HTML"),
      RecipientListOf(Get(v, "toRecipients")), RecipientListOf(Get(v, "ccRecipients")),
      RecipientListOf(Get(v, "bccRecipients")), AttachmentsOf(Get(v, "attachments")))
  }

  /** The object literal `{ subject, body, toRecipients, ccRecipients, bccRecipients, attachments }`. */
  function MessageLiteral(subject: Value, body: Value, to: Value, cc: Value, bcc: Value, atts: Value): (m: Value)
    ensures Keys(m) == {"subject", "body", "toRecipients", "ccRecipients", "bccRecipients", "attachments"}
    ensures Get(m, "subject") == subject && Get(m, "body") == body && Get(m, "toRecipients") == to
    ensures Get(m, "ccRecipients") == cc && Get(m, "bccRecipients") == bcc && Get(m, "attachments") == atts
  {
    var f0 := Field("subject", subject);
    var f1 := Field("body", body);
    var f2 := Field("toRecipients", to);
    var f3 := Field("ccRecipients", cc);
    var f4 := Field("bccRecipients", bcc);
    var f5 := Field("attachments", atts);
    PropsLiteral(f0, f1, f2);
    PropsSnoc([f0, f1, f2], f3);
    PropsSnoc([f0, f1, f2, f3], f4);
    PropsSnoc([f0, f1, f2, f3, f4], f5);
    assert [f0, f1, f2] + [f3] == [f0, f1, f2, f3];
    assert [f0, f1, f2, f3] + [f4] == [f0, f1, f2, f3, f4];
    assert [f0, f1, f2, f3, f4] + [f5] == [f0, f1, f2, f3, f4, f5];
    Obj([f0, f1, f2, f3, f4, f5])
  }

  /**
   * The message send_email builds: everything the caller gave arrives
   * unchanged, cc, bcc and attachments defaulting to empty lists.
   */
  function Message(p: SendEmailParams): (m: Value)
    ensures Keys(m) == {"subject", "body", "toRecipients", "ccRecipients", "bccRecipients", "attachments"}
    ensures ReadMessage(m) == MessageFields(Some(p.subject), Some(p.body), Some(p.toRecipients),
      Some(p.ccRecipients.GetOr([])), Some(p.bccRecipients.GetOr([])), Some(p.attachments.GetOr([])))
  {
    var cc := p.ccRecipients.GetOr([]);
    var bcc := p.bccRecipients.GetOr([]);
    var atts := p.attachments.GetOr([]);
    BodyRoundTrip(p.body, "HTML");
    RecipientListRoundTrip(p.toRecipients);
    RecipientListRoundTrip(cc);
    RecipientListRoundTrip(bcc);
    AttachmentsRoundTrip(atts);
    MessageLiteral(Str(p.subject), TypeFirstBody("HTML", p.body), RecipientList(p.toRecipients),
      RecipientList(cc), RecipientList(bcc), Arr(FileAttachments(atts)))
  }

  /** The body of the sendMail request: `{ message }`. */
  function SendMailBody(p: SendEmailParams): (v: Value)
    ensures Keys(v) == {"message"} && Get(v, "message") == Message(p)
  {
    PropsLiteral(Field("message", Message(p)), Field("", Undefined), Field("", Undefined));
    Obj([Field("message", Message(p))])
  }

  /** A schema-valid send_email call always names at least one recipient. */
  lemma SentMessageHasRecipient(p: SendEmailParams)
    requires ValidSendEmail(p)
    ensures |ReadMessage(Message(p)).to.value| >= 1
  {
  }

  /** `{ destinationId: destinationFolder }`. */
  function MoveBody(destinationFolder: string): (v: Value)
    ensures Keys(v) == {"destinationId"} && Get(v, "destinationId") == Str(destinationFolder)
  {
    PropsLiteral(Field("destinationId", Str(destinationFolder)), Field("", Undefined), Field("", Undefined));
    Obj([Field("destinationId", Str(destinationFolder))])
  }

  /** `{ success: true, [key]: response.id }`. */
  function IdOnly(key: string, response: Value): Value {
    SuccessObject([Field(key, Get(response, "id"))])
  }

  /** The tool object: its Graph client is set by `initialize`. */
  class OutlookEmailTool {
    var client: Option<Client>

    constructor()
      ensures client == None
    {
      client := None;
    }

    /** `initialize(config)`: keeps the client `createGraphClient(config)` builds. */
    method Initialize(graph: Client)
      modifies this
      ensures client == Some(graph)
    {
      client := Some(graph);
    }

    /**
     * list_emails: GET the messages of `folder` (default 'inbox'), at most
     * `maxResults` (default 10), ordered by `orderBy` (default
     * 'receivedDateTime desc'), filtered only when a filter is given.
     */
    method ListEmails(p: ListEmailsParams) returns (r: ToolResult)
      ensures r.isError <==> Fails(client, ListEmailsRequest(p))
      ensures r.isError ==> r == Failure("Failed to list emails", ErrorMessage(client, ListEmailsRequest(p)))
      ensures !r.isError ==> r.payload == Get(Answer(client, ListEmailsRequest(p)), "value")
    {
      var folder := p.folder.GetOr(DefaultFolder);
      var maxResults := p.maxResults.GetOr(DefaultMaxEmails);
      var orderBy := p.orderBy.GetOr(DefaultMessageOrder);
      var query := [Select(MessageSelect), Top(maxResults), OrderBy(orderBy)];
      if Supplied(p.filter) {
        query := query + [Filter(p.filter.value)];
      }
      r := Perform(client, Request(GET, FolderMessagesPath(folder), query, Undefined), "Failed to list emails", ListValue);
    }

    /** send_email: POST `{ message }` to `/me/sendMail`; the result carries the response's id. */
    function SendEmail(p: SendEmailParams): (r: ToolResult)
      reads this
      ensures var req := Request(POST, "/me/sendMail", [], SendMailBody(p));
        && (r.isError <==> Fails(client, req))
        && (Fails(client, req) ==> r == Failure("Failed to send email", ErrorMessage(client, req)))
        && (!Fails(client, req) ==> r.payload == IdOnly("messageId", Answer(client, req)))
    {
      Perform(client, Request(POST, "/me/sendMail", [], SendMailBody(p)), "Failed to send email",
        resp => IdOnly("messageId", resp))
    }

    /** get_email: GET one message with its detail fields; the result is the whole response. */
    function GetEmail(messageId: string): (r: ToolResult)
      reads this
      ensures var req := Request(GET, MessagePath(messageId), [Select(MessageDetailSelect)], Undefined);
        && (r.isError <==> Fails(client, req))
        && (Fails(client, req) ==> r == Failure("Failed to get email", ErrorMessage(client, req)))
        && (!Fails(client, req) ==> r.payload == Answer(client, req))
    {
      Perform(client, Request(GET, MessagePath(messageId), [Select(MessageDetailSelect)], Undefined),
        "Failed to get email", resp => resp)
    }

    /** move_email: POST `{ destinationId }` to the message's `move` action; the result carries the new id. */
    function MoveEmail(messageId: string, destinationFolder: string): (r: ToolResult)
      reads this
      ensures var req := Request(POST, MessagePath(messageId) + "/move", [], MoveBody(destinationFolder));
        && (r.isError <==> Fails(client, req))
        && (Fails(client, req) ==> r == Failure("Failed to move email", ErrorMessage(client, req)))
        && (!Fails(client, req) ==> r.payload == IdOnly("newMessageId", Answer(client, req)))
    {
      Perform(client, Request(POST, MessagePath(messageId) + "/move", [], MoveBody(destinationFolder)),
        "Failed to move email", resp => IdOnly("newMessageId", resp))
    }

    /** delete_email: DELETE the message. */
    function DeleteEmail(messageId: string): (r: ToolResult)
      reads this
      ensures var req := Request(DELETE, MessagePath(messageId), [], Undefined);
        && (r.isError <==> Fails(client, req))
        && (Fails(client, req) ==> r == Failure("Failed to delete email", ErrorMessage(client, req)))
        && (!Fails(client, req) ==> r.payload == Deleted(Answer(client, req)))
    {
      Perform(client, Request(DELETE, MessagePath(messageId), [], Undefined), "Failed to delete email", Deleted)
    }

    /** list_folders: GET `/me/mailFolders`, at most `maxResults` (default 50). */
    function ListFolders(p: ListFoldersParams): (r: ToolResult)
      reads this
      ensures var req := Request(GET, "/me/mailFolders",
          [Select(FolderSelect), Top(p.maxResults.GetOr(DefaultMaxFolders))], Undefined);
        && (r.isError <==> Fails(client, req))
        && (Fails(client, req) ==> r == Failure("Failed to list folders", ErrorMessage(client, req)))
        && (!Fails(client, req) ==> r.payload == ListValue(Answer(client, req)))
    {
      Perform(client,
        Request(GET, "/me/mailFolders", [Select(FolderSelect), Top(p.maxResults.GetOr(DefaultMaxFolders))], Undefined),
        "Failed to list folders", ListValue)
    }
  }
}
