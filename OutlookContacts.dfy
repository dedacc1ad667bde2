/**
 * The `outlook_contacts` tool: listing, creating, updating and deleting the
 * signed-in user's contacts under `/me/contacts`.
 */
module OutlookContacts {
  import opened Wrappers
  import opened Json
  import opened Graph
  import opened ToolResult
  import opened Payload

  const ContactsPath := "/me/contacts"
  const ContactSelect := "id,displayName,emailAddresses,businessPhones,mobilePhone,jobTitle,companyName"
  const DefaultMaxContacts := 50
  const DefaultContactOrder := "displayName"

  datatype ListContactsParams = ListContactsParams(
    maxResults: Option<int>, filter: Option<string>, orderBy: Option<string>)

  datatype CreateContactParams = CreateContactParams(
    displayName: string, emailAddresses: seq<string>, businessPhones: Option<seq<string>>,
    mobilePhone: Option<string>, jobTitle: Option<string>, companyName: Option<string>)

  /** The bounds the list_contacts schema puts on `maxResults`. */
  predicate ValidListContacts(p: ListContactsParams) {
    p.maxResults.Some? ==> 1 <= p.maxResults.value <= 100
  }

  /** The bounds the create_contact schema puts on its parameters. */
  predicate ValidCreateContact(p: CreateContactParams) {
    |p.displayName| >= 1 && |p.emailAddresses| >= 1
  }

  /** `/me/contacts/${contactId}`. */
  function ContactPath(contactId: string): string {
    ContactsPath + "/" + contactId
  }

  /** The request list_contacts sends. */
  function ListContactsRequest(p: ListContactsParams): (req: Request)
    ensures req.verb == GET && req.path == ContactsPath
    ensures SelectOf(req.query) == Some(ContactSelect)
    ensures TopOf(req.query) == Some(p.maxResults.GetOr(DefaultMaxContacts))
    ensures OrderByOf(req.query) == Some(p.orderBy.GetOr(DefaultContactOrder))
    ensures FilterOf(req.query) == if Supplied(p.filter) then p.filter else None
  {
    Request(GET, ContactsPath,
      ListQuery(ContactSelect, p.maxResults.GetOr(DefaultMaxContacts), p.orderBy.GetOr(DefaultContactOrder), p.filter),
      Undefined)
  }

  /** `{ address: email, name: displayName }`. */
  function EmailEntry(email: string, displayName: string): Value {
    Obj([Field("address", Str(email)), Field("name", Str(displayName))])
  }

  /** `emailAddresses.map(email => ({ address: email, name: displayName }))`. */
  function EmailEntries(emails: seq<string>, displayName: string): (r: seq<Value>)
    ensures |r| == |emails|
    ensures forall i :: 0 <= i < |emails| ==> r[i] == EmailEntry(emails[i], displayName)
  {
    if |emails| == 0 then [] else [EmailEntry(emails[0], displayName)] + EmailEntries(emails[1..], displayName)
  }

  /** The address of an email entry that carries the given name. */
  function AddressNamed(v: Value, name: string): Option<string> {
    if Get(v, "name") == Str(name) then StrOf(Get(v, "address")) else None
  }

  /** The addresses of an email-entry array, when every entry carries the given name. */
  function EmailsNamed(v: Value, name: string): Option<seq<string>> {
    if v.Arr? then ReadAll(v.items, e => AddressNamed(e, name)) else None
  }

  /** Every address is sent in order, each labelled with the contact's display name. */
  lemma EmailEntriesRoundTrip(emails: seq<string>, displayName: string)
    ensures EmailsNamed(Arr(EmailEntries(emails, displayName)), displayName) == Some(emails)
  {
    var r := EmailEntries(emails, displayName);
    forall i | 0 <= i < |r| ensures AddressNamed(r[i], displayName) == Some(emails[i]) {
      PropsLiteral(Field("address", Str(emails[i])), Field("name", Str(displayName)), Field("", Undefined));
    }
    ReadAllExact(r, emails, e => AddressNamed(e, displayName));
  }

  /** What Graph reads from a new contact. */
  datatype ContactFields = ContactFields(
    displayName: Option<string>, emailAddresses: Option<seq<string>>, businessPhones: Option<seq<string>>,
    mobilePhone: Option<string>, jobTitle: Option<string>, companyName: Option<string>)

  function ReadContact(v: Value): ContactFields {
    var name := StrOf(Get(v, "displayName"));
    ContactFields(
      name, EmailsNamed(Get(v, "emailAddresses"), name.GetOr("")), StringsOf(Get(v, "businessPhones")),
      StrOf(Get(v, "mobilePhone")), StrOf(Get(v, "jobTitle")), StrOf(Get(v, "companyName")))
  }

  /** The object literal `{ displayName, emailAddresses, businessPhones, mobilePhone, jobTitle, companyName }`. */
  function ContactLiteral(name: Value, emails: Value, phones: Value, mobile: Value, job: Value, company: Value): (c: Value)
    ensures Keys(c) == {"displayName", "emailAddresses", "businessPhones", "mobilePhone", "jobTitle", "companyName"}
    ensures Get(c, "displayName") == name && Get(c, "emailAddresses") == emails
    ensures Get(c, "businessPhones") == phones && Get(c, "mobilePhone") == mobile
    ensures Get(c, "jobTitle") == job && Get(c, "companyName") == company
  {
    var f0 := Field("displayName", name);
    var f1 := Field("emailAddresses", emails);
    var f2 := Field("businessPhones", phones);
    var f3 := Field("mobilePhone", mobile);
    var f4 := Field("jobTitle", job);
    var f5 := Field("companyName", company);
    PropsLiteral(f0, f1, f2);
    PropsSnoc([f0, f1, f2], f3);
    PropsSnoc([f0, f1, f2, f3], f4);
    PropsSnoc([f0, f1, f2, f3, f4], f5);
    assert [f0, f1, f2] + [f3] == [f0, f1, f2, f3];
    assert [f0, f1, f2, f3] + [f4] == [f0, f1, f2, f3, f4];
    assert [f0, f1, f2, f3, f4] + [f5] == [f0, f1, f2, f3, f4, f5];
    Obj([f0, f1, f2, f3, f4, f5])
  }

  /**
   * The contact create_contact posts: every parameter arrives unchanged,
   * `businessPhones` defaulting to an empty list and the optional strings
   * passed through as given (a missing one stays `undefined`).
   */
  function CreateContactBody(p: CreateContactParams): (c: Value)
    ensures Keys(c) == {"displayName", "emailAddresses", "businessPhones", "mobilePhone", "jobTitle", "companyName"}
    ensures ReadContact(c) == ContactFields(Some(p.displayName), Some(p.emailAddresses),
      Some(p.businessPhones.GetOr([])), p.mobilePhone, p.jobTitle, p.companyName)
  {
    var phones := p.businessPhones.GetOr([]);
    EmailEntriesRoundTrip(p.emailAddresses, p.displayName);
    StringsRoundTrip(phones);
    ContactLiteral(Str(p.displayName), Arr(EmailEntries(p.emailAddresses, p.displayName)), Arr(StrValues(phones)),
      OfOption(p.mobilePhone), OfOption(p.jobTitle), OfOption(p.companyName))
  }

  /**
   * `const { contactId, ...updates } = params`: the PATCH body is every
   * parameter except `contactId`, passed on as given. In particular a new
   * `emailAddresses` list is sent as plain strings, not in the
   * `{ address, name }` shape create_contact uses.
   */
  function ContactUpdates(params: Value): (updates: Value)
    ensures Keys(updates) == Keys(params) - {"contactId"}
    ensures forall k :: k != "contactId" ==> Get(updates, k) == Get(params, k)
  {
    Without(params, "contactId")
  }

  /** The tool object: its Graph client is set by `initialize`. */
  class OutlookContactsTool {
    var client: Option<Client>

    constructor()
      ensures client == None
    {
      client := None;
    }

    /** `initialize(config)`: keeps the client `createGraphClient(config)` builds. */
    method Initialize(graph: Client)
      modifies this
      ensures client == Some(graph)
    {
      client := Some(graph);
    }

    /**
     * list_contacts: GET `/me/contacts`, at most `maxResults` (default 50),
     * ordered by `orderBy` (default 'displayName'), filtered only when a filter is given.
     */
    method ListContacts(p: ListContactsParams) returns (r: ToolResult)
      ensures r.isError <==> Fails(client, ListContactsRequest(p))
      ensures r.isError ==> r == Failure("Failed to list contacts", ErrorMessage(client, ListContactsRequest(p)))
      ensures !r.isError ==> r.payload == Get(Answer(client, ListContactsRequest(p)), "value")
    {
      var maxResults := p.maxResults.GetOr(DefaultMaxContacts);
      var orderBy := p.orderBy.GetOr(DefaultContactOrder);
      var query := [Select(ContactSelect), Top(maxResults), OrderBy(orderBy)];
      if Supplied(p.filter) {
        query := query + [Filter(p.filter.value)];
      }
      r := Perform(client, Request(GET, ContactsPath, query, Undefined), "Failed to list contacts", ListValue);
    }

    /** create_contact: POST the contact; the result carries the new id and the created contact. */
    function CreateContact(p: CreateContactParams): (r: ToolResult)
      reads this
      ensures var req := Request(POST, ContactsPath, [], CreateContactBody(p));
        && (r.isError <==> Fails(client, req))
        && (Fails(client, req) ==> r == Failure("Failed to create contact", ErrorMessage(client, req)))
        && (!Fails(client, req) ==> r.payload == Created("contactId", "contact", Answer(client, req)))
    {
      Perform(client, Request(POST, ContactsPath, [], CreateContactBody(p)), "Failed to create contact",
        resp => Created("contactId", "contact", resp))
    }

    /** update_contact: PATCH `/me/contacts/{contactId}` with every other parameter. */
    function UpdateContact(params: Value): (r: ToolResult)
      requires Get(params, "contactId").Str?
      reads this
      ensures var req := Request(PATCH, ContactPath(Get(params, "contactId").s), [], ContactUpdates(params));
        && (r.isError <==> Fails(client, req))
        && (Fails(client, req) ==> r == Failure("Failed to update contact", ErrorMessage(client, req)))
        && (!Fails(client, req) ==> r.payload == Updated("contact", Answer(client, req)))
    {
      Perform(client, Request(PATCH, ContactPath(Get(params, "contactId").s), [], ContactUpdates(params)),
        "Failed to update contact", resp => Updated("contact", resp))
    }

    /** delete_contact: DELETE the contact. */
    function DeleteContact(contactId: string): (r: ToolResult)
      reads this
      ensures var req := Request(DELETE, ContactPath(contactId), [], Undefined);
        && (r.isError <==> Fails(client, req))
        && (Fails(client, req) ==> r == Failure("Failed to delete contact", ErrorMessage(client, req)))
        && (!Fails(client, req) ==> r.payload == Deleted(Answer(client, req)))
    {
      Perform(client, Request(DELETE, ContactPath(contactId), [], Undefined), "Failed to delete contact", Deleted)
    }
  }
}
