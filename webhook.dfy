/** The CMS webhook receiver (`POST /api/data`): on a newly created form
    entry it sends the registration-confirmation email, and it always answers
    with one of two fixed JSON responses. */
module Webhook {
  import opened Js
  import Email

  const AckMessage := "POST request received and logged successfully"
  const FailureError := "Failed to process POST request"
  const UnknownError := "Unknown error"

  /** The `entry` property of a parsed body. A string, number or other
      non-object entry yields `undefined` for every field read from it. */
  datatype Entry =
    | EntryUndefined
    | EntryNull
    | EntryPrimitive
    | EntryObject(participantName: Attr, registrationNumber: Attr, email: Attr, contact: Attr, event: Attr)

  /** The request body after `request.json()`: JSON `null`, another value
      that is not an object (its properties all read as `undefined`), or an
      object with the three properties the handler reads. */
  datatype Body = BodyNull | BodyPrimitive | BodyObject(model: Attr, event: Attr, entry: Entry)

  /** `await request.json().catch(() => null)`: a body that does not parse is `null`. */
  function ParsedOrNull(parsed: Option<Body>): (b: Body)
    ensures parsed.None? ==> b.BodyNull?
    ensures parsed.Some? ==> b == parsed.value
  {
    if parsed.Some? then parsed.value else BodyNull
  }

  /** The five arguments of one `sendFormEmail` call, in order. */
  datatype FormEmailCall = FormEmailCall(name: Attr, registrationNumber: Attr, email: Attr,
                                         phone: Attr, event: Attr)

  /** The JSON response with its HTTP status. */
  datatype Response = Response(status: int, success: bool, message: Option<string>,
                               error: Option<string>, details: Option<string>)

  /** The acknowledgement: 200 `{success: true, message}`. */
  const Acknowledged := Response(200, true, Some(AckMessage), None, None)

  /** The failure answer: 500 `{success: false, error, details}`. */
  function Failure(details: string): (r: Response)
    ensures r.status == 500 && !r.success && r.details == Some(details)
  {
    Response(500, false, None, Some(FailureError), Some(details))
  }

  /** How the `try` block ends: normally, having made at most one
      `sendFormEmail` call, or by throwing. */
  datatype Completion = Finished(call: Option<FormEmailCall>) | Raised(e: Exception)

  /** The body of the `try` block, up to the point where the email is sent.
      Reading a property of `null` or `undefined` throws a `TypeError`. */
  function Run(body: Body): (c: Completion)
    // It throws exactly on a `null` body or a new registration without an entry object.
    ensures c.Raised? <==>
      body.BodyNull? || (IsNewRegistration(body) && (body.entry.EntryUndefined? || body.entry.EntryNull?))
    ensures c.Raised? ==> c.e.ErrorObject?
    // It calls `sendFormEmail` exactly for a new registration whose entry can be read.
    ensures c.Finished? && c.call.Some? <==>
      IsNewRegistration(body) && !body.entry.EntryUndefined? && !body.entry.EntryNull?
    // The call carries the entry's five fields in order.
    ensures IsNewRegistration(body) && body.entry.EntryObject? ==>
      c == Finished(Some(FormEmailCall(body.entry.participantName, body.entry.registrationNumber,
                                       body.entry.email, body.entry.contact, body.entry.event)))
  {
    match body
    case BodyNull => Raised(PropertyReadError(Null, "model"))
    case BodyPrimitive => Finished(None)
    case BodyObject(model, event, entry) =>
      if model == Str("form") && event == Str("entry.create") then
        match entry
        case EntryUndefined => Raised(PropertyReadError(Undefined, "ParticipantName"))
        case EntryNull => Raised(PropertyReadError(Null, "ParticipantName"))
        case EntryPrimitive =>
          Finished(Some(FormEmailCall(Undefined, Undefined, Undefined, Undefined, Undefined)))
        case EntryObject(name, number, email, contact, ev) =>
          Finished(Some(FormEmailCall(name, number, email, contact, ev)))
      else Finished(None)
  }

  /** The answer for a completion: the fixed acknowledgement when the block
      ended normally, whatever the email result was; otherwise the failure
      answer with the exception's message. */
  function Respond(c: Completion): (r: Response)
    ensures c.Finished? ==> r == Acknowledged
    ensures c.Raised? ==> r == Failure(MessageOr(c.e, UnknownError))
  {
    match c
    case Finished(_) => Acknowledged
    case Raised(e) => Failure(MessageOr(e, UnknownError))
  }

  /** The body names a newly created form entry. */
  predicate IsNewRegistration(body: Body) {
    body.BodyObject? && body.model == Str("form") && body.event == Str("entry.create")
  }

  /** The handler's decision for a request: the response it sends and the
      `sendFormEmail` call it makes, if any. */
  datatype Handled = Handled(response: Response, call: Option<FormEmailCall>)

  function Dispatch(parsed: Option<Body>): (r: Handled)
    // The email is sent exactly for a new registration whose entry can be read.
    ensures r.call.Some? <==>
      IsNewRegistration(ParsedOrNull(parsed)) && !ParsedOrNull(parsed).entry.EntryUndefined?
      && !ParsedOrNull(parsed).entry.EntryNull?
    // Every response has one of the two shapes.
    ensures r.response == Acknowledged
      || (r.response.details.Some? && r.response == Failure(r.response.details.value))
    // A call is always followed by the acknowledgement.
    ensures r.call.Some? ==> r.response == Acknowledged
  {
    var c := Run(ParsedOrNull(parsed));
    Handled(Respond(c), if c.Finished? then c.call else None)
  }

  /** A new registration sends one email with the entry's participant name,
      registration number, email, contact and event, in that order. */
  lemma RegistrationSendsEntryFields(model: Attr, event: Attr, name: Attr, number: Attr,
                                     email: Attr, contact: Attr, ev: Attr)
    requires model == Str("form") && event == Str("entry.create")
    ensures Dispatch(Some(BodyObject(model, event, EntryObject(name, number, email, contact, ev))))
            == Handled(Acknowledged, Some(FormEmailCall(name, number, email, contact, ev)))
  {
  }

  /** Any other model or event is acknowledged without an email. */
  lemma OtherEventsIgnored(body: Body)
    requires body.BodyObject? && !IsNewRegistration(body)
    ensures Dispatch(Some(body)) == Handled(Acknowledged, None)
  {
  }

  /** A body that does not parse is `null`; reading `model` from it throws,
      so the answer is 500, not the acknowledgement, and no email is sent. */
  lemma UnparsableBodyFails()
    ensures Dispatch(None) == Handled(Failure("Cannot read properties of null (reading 'model')"), None)
  {
    assert Null.Interpolated() == "null";
    var e := PropertyReadError(Null, "model");
    assert e.message == "Cannot read properties of null (reading 'model')";
    assert Run(ParsedOrNull(None)) == Raised(e);
  }

  /** A new registration without an `entry` object fails while reading the
      first field: 500 and no email. */
  lemma MissingEntryFails(model: Attr, event: Attr, entry: Entry)
    requires model == Str("form") && event == Str("entry.create")
    requires entry.EntryUndefined? || entry.EntryNull?
    ensures Dispatch(Some(BodyObject(model, event, entry))).call.None?
    ensures Dispatch(Some(BodyObject(model, event, entry))).response.status == 500
  {
  }

  /** The status and the `success` flag always agree. */
  lemma StatusMatchesSuccess(parsed: Option<Body>)
    ensures Dispatch(parsed).response.status == 200 <==> Dispatch(parsed).response.success
    ensures Dispatch(parsed).response.status == 200 || Dispatch(parsed).response.status == 500
  {
  }

  /** `POST`: runs the decision and, when it calls for one, sends the email
      (dated `date`, the provider answering `provider`). The email's result
      is only logged: the response does not depend on it. */
  method Post(parsed: Option<Body>, date: string, provider: Email.ProviderOutcome)
    returns (response: Response, sent: Option<Email.SmtpEmail>, result: Option<Email.EmailResponse>)
    ensures response == Dispatch(parsed).response
    ensures result.Some? <==> Dispatch(parsed).call.Some?
    ensures sent.Some? <==> Dispatch(parsed).call.Some?
    ensures result.Some? ==> (result.value.Success() <==> provider.Accepted?)
    ensures result.Some? && provider.Accepted? ==> result.value == Email.Delivered(provider.messageId)
    ensures result.Some? && provider.Rejected? ==>
      result.value == Email.NotDelivered(provider.message.Or(Email.SendFailedFallback))
    // The email sent is the confirmation built from the call's five arguments.
    ensures sent.Some? ==>
      var c := Dispatch(parsed).call.value;
      sent.value.htmlContent
        == Str(Email.Render(Email.Confirmation,
                            Email.FieldsOf(c.name, c.registrationNumber, c.email, c.phone, c.event, date)))
      && sent.value.to == Some([Email.Recipient(c.email, if c.name.Undefined? then Str("") else c.name)])
      && sent.value.sender == Some(Email.Address(Email.Sender)) && sent.value.subject == Str(Email.Subject)
  {
    var d := Dispatch(parsed);
    result := None;
    sent := None;
    if d.call.Some? {
      var c := d.call.value;
      var message, r := Email.SendFormEmail(c.name, c.registrationNumber, c.email, c.phone, c.event,
                                            date, provider);
      result := Some(r);
      sent := Some(message);
    }
    response := d.response;
  }
}
