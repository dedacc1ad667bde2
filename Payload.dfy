/**
 * Fragments of Graph request bodies shared by several tools, each with the
 * reader that recovers what it carries: the `{ dateTime, timeZone: 'UTC' }`
 * wrapper, item bodies `{ content, contentType }`, and the recipient shape
 * `{ emailAddress: { address } }`.
 */
module Payload {
  import opened Wrappers
  import opened Json

  /** The string a value holds, if it is a string. */
  function StrOf(v: Value): Option<string> {
    if v.Str? then Some(v.s) else None
  }

  /** A supplied optional string, or nothing: what `if (x) obj.key = ...` keeps. */
  function Kept(o: Option<string>): (r: Option<string>)
    ensures r.Some? <==> Supplied(o)
    ensures r.Some? ==> r == o
  {
    if Supplied(o) then o else None
  }

  /** `{ dateTime, timeZone: 'UTC' }`; the date-time may be `undefined` when the caller left it out. */
  function UtcWrapper(dateTime: Value): Value {
    Obj([Field("dateTime", dateTime), Field("timeZone", Str("UTC"))])
  }

  /** `{ dateTime: s, timeZone: 'UTC' }`. */
  function UtcDateTime(s: string): Value {
    UtcWrapper(Str(s))
  }

  /** The date-time a `{ dateTime, timeZone: 'UTC' }` wrapper carries. */
  function UtcDateTimeOf(v: Value): Option<string> {
    if Get(v, "timeZone") == Str("UTC") then StrOf(Get(v, "dateTime")) else None
  }

  /** The wrapper of an optional date-time gives back exactly that option. */
  lemma {:induction false} UtcWrapperRoundTrip(o: Option<string>)
    ensures UtcDateTimeOf(UtcWrapper(OfOption(o))) == o
    ensures Keys(UtcWrapper(OfOption(o))) == {"dateTime", "timeZone"}
  {
    PropsLiteral(Field("dateTime", OfOption(o)), Field("timeZone", Str("UTC")), Field("", Undefined));
  }

  lemma {:induction false} UtcDateTimeRoundTrip(s: string)
    ensures UtcDateTimeOf(UtcDateTime(s)) == Some(s)
    ensures Keys(UtcDateTime(s)) == {"dateTime", "timeZone"}
  {
    UtcWrapperRoundTrip(Some(s));
  }

  /** An item body, properties in the order `content`, `contentType` (tasks). */
  function ContentFirstBody(content: string, contentType: string): Value {
    Obj([Field("content", Str(content)), Field("contentType", Str(contentType))])
  }

  /** An item body, properties in the order `contentType`, `content` (events and mail). */
  function TypeFirstBody(contentType: string, content: string): Value {
    Obj([Field("contentType", Str(contentType)), Field("content", Str(content))])
  }

  /** The content of an item body of the given type. */
  function BodyContentOf(v: Value, contentType: string): Option<string> {
    if Get(v, "contentType") == Str(contentType) then StrOf(Get(v, "content")) else None
  }

  lemma {:induction false} BodyRoundTrip(content: string, contentType: string)
    ensures BodyContentOf(ContentFirstBody(content, contentType), contentType) == Some(content)
    ensures BodyContentOf(TypeFirstBody(contentType, content), contentType) == Some(content)
  {
    var c := Field("content", Str(content));
    var t := Field("contentType", Str(contentType));
    PropsLiteral(c, t, c);
    PropsLiteral(t, c, c);
  }

  /** `{ emailAddress: { address } }`. */
  function Recipient(address: string): Value {
    Obj([Field("emailAddress", Obj([Field("address", Str(address))]))])
  }

  /** `emails.map(email => ({ emailAddress: { address: email } }))`. */
  function Recipients(emails: seq<string>): (r: seq<Value>)
    ensures |r| == |emails|
    ensures forall i :: 0 <= i < |emails| ==> r[i] == Recipient(emails[i])
  {
    if |emails| == 0 then [] else [Recipient(emails[0])] + Recipients(emails[1..])
  }

  /** The address a recipient object names. */
  function AddressOf(v: Value): Option<string> {
    StrOf(Get(Get(v, "emailAddress"), "address"))
  }

  /** The items `read` finds in each element of a list, when it finds one in every element. */
  function ReadAll<T>(vs: seq<Value>, read: Value -> Option<T>): Option<seq<T>> {
    if |vs| == 0 then Some([])
    else
      var first := read(vs[0]);
      var rest := ReadAll(vs[1..], read);
      if first.Some? && rest.Some? then Some([first.value] + rest.value) else None
  }

  /** A list whose every element reads back as the matching item reads back as the whole list. */
  lemma {:induction false} ReadAllExact<T>(vs: seq<Value>, xs: seq<T>, read: Value -> Option<T>)
    requires |vs| == |xs|
    requires forall i :: 0 <= i < |vs| ==> read(vs[i]) == Some(xs[i])
    ensures ReadAll(vs, read) == Some(xs)
  {
    if |vs| > 0 {
      ReadAllExact(vs[1..], xs[1..], read);
      assert [xs[0]] + xs[1..] == xs;
    }
  }

  /** The addresses of a recipient list, when every element names one. */
  function Addresses(vs: seq<Value>): Option<seq<string>> {
    ReadAll(vs, AddressOf)
  }

  lemma RecipientAddress(email: string)
    ensures AddressOf(Recipient(email)) == Some(email)
  {
    var inner := Obj([Field("address", Str(email))]);
    PropsLiteral(Field("address", Str(email)), Field("", Undefined), Field("", Undefined));
    PropsLiteral(Field("emailAddress", inner), Field("", Undefined), Field("", Undefined));
    assert Get(Recipient(email), "emailAddress") == inner;
    assert Get(inner, "address") == Str(email);
  }

  /** Reading the addresses back from a mapped recipient list gives the input list, in order. */
  lemma RecipientsRoundTrip(emails: seq<string>)
    ensures Addresses(Recipients(emails)) == Some(emails)
  {
    var r := Recipients(emails);
    forall i | 0 <= i < |r| ensures AddressOf(r[i]) == Some(emails[i]) {
      RecipientAddress(emails[i]);
    }
    ReadAllExact(r, emails, AddressOf);
  }

  /** A recipient array as a property value. */
  function RecipientList(emails: seq<string>): Value {
    Arr(Recipients(emails))
  }

  /** The addresses of a recipient array. */
  function RecipientListOf(v: Value): Option<seq<string>> {
    if v.Arr? then Addresses(v.items) else None
  }

  lemma RecipientListRoundTrip(emails: seq<string>)
    ensures RecipientListOf(RecipientList(emails)) == Some(emails)
  {
    RecipientsRoundTrip(emails);
  }

  /** A string array as a property value. */
  function StrValues(xs: seq<string>): (r: seq<Value>)
    ensures |r| == |xs|
    ensures forall i :: 0 <= i < |xs| ==> r[i] == Str(xs[i])
  {
    if |xs| == 0 then [] else [Str(xs[0])] + StrValues(xs[1..])
  }

  /** The strings of an array whose every element is a string. */
  function StringsOf(v: Value): Option<seq<string>> {
    if v.Arr? then ReadAll(v.items, StrOf) else None
  }

  lemma StringsRoundTrip(xs: seq<string>)
    ensures StringsOf(Arr(StrValues(xs))) == Some(xs)
  {
    ReadAllExact(StrValues(xs), xs, StrOf);
  }
}
