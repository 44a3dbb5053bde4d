/** The registration-confirmation email: the HTML composer (`sendFormEmail`)
    and the adapter around the transactional-email provider
    (`sendTemplateEmail`). The provider's send call is an oracle: its outcome
    is a parameter. */
module Email {
  import opened Js
  import opened Text

  const Sender := "registration@roboaut.in"
  const Subject := "✅ Event Registration Confirmed - ROBOAUT"
  const EventFallback := "General Registration"
  const SendFailedFallback := "Failed to send email"

  /** The six texts the template interpolates, already converted to strings. */
  datatype Fields = Fields(name: string, registrationNumber: string, email: string,
                           phone: string, eventLabel: string, date: string)

  /** What `sendFormEmail` interpolates for its five arguments and the
      formatted date of the day it runs: each argument as a template literal
      prints it, the event as `event || 'General Registration'`. */
  function FieldsOf(name: Attr, registrationNumber: Attr, email: Attr, phone: Attr,
                    event: Attr, date: string): (f: Fields)
    ensures f.name == name.Interpolated() && f.registrationNumber == registrationNumber.Interpolated()
    ensures f.email == email.Interpolated() && f.phone == phone.Interpolated()
    ensures f.eventLabel == (if event.Truthy() then event.s else EventFallback)
    ensures f.date == date
  {
    Fields(name.Interpolated(), registrationNumber.Interpolated(), email.Interpolated(),
           phone.Interpolated(), event.Or(EventFallback), date)
  }

  // The fixed fragments of the template, in order. The style sheet is
  // abbreviated, and the HTML comments and the indentation whitespace are
  // dropped; the other markup and the prose are kept.

  const Head :=
    "<!DOCTYPE html>\n<html lang=\"en\">\n<head>\n<meta charset=\"UTF-8\">\n" +
    "<meta name=\"viewport\" content=\"width=device-width, initial-scale=1.0\">\n" +
    "<title>Event Registration Confirmation</title>\n<style>/* layout */</style>\n</head>\n<body>\n" +
    "<div class=\"email-container\">\n<div class=\"header\">\n<div class=\"logo\">ROBOAUT</div>\n" +
    "<div class=\"header-subtitle\">Robotics & Automation Club</div>\n</div>\n" +
    "<div class=\"divider\"></div>\n<div class=\"content\">\n<div class=\"greeting\">Hello "

  const Welcome :=
    "! 👋</div>\n<div class=\"confirmation-message\">\n" +
    "We're excited to confirm your successful registration for our upcoming event!\n" +
    "Your enthusiasm for robotics and technology is what makes our community amazing.\n</div>\n" +
    "<div class=\"registration-details\">\n<div class=\"details-title\">📋 Registration Details</div>\n" +
    "<div class=\"detail-row\">\n<span class=\"detail-label\">Participant Name</span> : \n" +
    "<span class=\"detail-value\">"

  /** Closes one detail row and opens the next, labelled `caption`. */
  function NextRow(caption: string): (r: string)
    ensures |r| > 0
  {
    "</span>\n</div>\n<div class=\"detail-row\">\n<span class=\"detail-label\">" + caption +
    "</span> : \n<span class=\"detail-value\">"
  }

  const DateRow :=
    "</span>\n</div>\n<div class=\"detail-row\">\n<span class=\"detail-label\">Registration Date</span>\n" +
    "<span class=\"detail-value\">"

  const Note :=
    "</span>\n</div>\n</div>\n<div class=\"important-note\">\n" +
    "<div class=\"note-title\">⚠️ Important Information</div>\n<div class=\"note-text\">\n" +
    "Please save this email for your records. Your registration number <strong>"

  const Tail :=
    "</strong>\nwill be required for event check-in and all future correspondence.\n</div>\n</div>\n" +
    "<div class=\"next-steps\">\n<div class=\"steps-title\">🚀 What's Next?</div>\n<ul class=\"steps-list\">\n" +
    "<li>You will receive event details and schedule via email 48-72 hours before the event</li>\n" +
    "<li>Keep your registration number handy for quick check-in</li>\n" +
    "<li>Follow our social media channels for updates and announcements</li>\n" +
    "<li>Feel free to reach out if you have any questions or concerns</li>\n</ul>\n</div>\n" +
    "<div class=\"confirmation-message\">\n" +
    "Thank you for being part of the ROBOAUT community. We look forward to seeing you at the event!\n" +
    "</div>\n</div>\n<div class=\"footer\">\n<div class=\"footer-content\">\n<div class=\"contact-info\">\n" +
    "<strong>ROBOAUT - Robotics & Automation Club</strong><br>\n" +
    "📧 contact@roboaut.in | 🌐 www.roboaut.in<br>\n📱 Follow us on social media for latest updates\n" +
    "</div>\n</div>\n<div class=\"auto-generated\">\n" +
    "🤖 This is an auto-generated email sent from our registration system.\n" +
    "Please do not reply to this email address. For support, contact us at contact@roboaut.in\n" +
    "</div>\n</div>\n</div>\n</body>\n</html>\n"

  /** The fixed text of a template with the confirmation's interpolation
      points: the text before the first name, between the two names, before
      each of the registration number, email, phone, event and date rows,
      before the repeated registration number, and after it. */
  datatype Layout = Layout(head: string, welcome: string, numberRow: string, emailRow: string,
                           phoneRow: string, eventRow: string, dateRow: string, note: string,
                           tail: string)
  {
    function FixedLength(): nat {
      |head| + |welcome| + |numberRow| + |emailRow| + |phoneRow| + |eventRow| + |dateRow|
        + |note| + |tail|
    }
  }

  /** The confirmation email's own fixed text. */
  const Confirmation := Layout(Head, Welcome, NextRow("Registration Number"), NextRow("Email Address"),
                               NextRow("Contact Number"), NextRow("Event"), DateRow, Note, Tail)

  /** The rendered HTML body: fixed fragments with the fields in between. */
  function Render(t: Layout, f: Fields): string {
    t.head + (f.name + (t.welcome + (f.name + Details(t, f))))
  }

  /** The body from the registration-number row on. */
  function Details(t: Layout, f: Fields): string {
    t.numberRow + (f.registrationNumber + (t.emailRow + (f.email + (t.phoneRow + (f.phone
      + (t.eventRow + (f.eventLabel + (t.dateRow + (f.date + Closing(t, f))))))))))
  }

  /** The body from the important note on. */
  function Closing(t: Layout, f: Fields): string {
    t.note + (f.registrationNumber + t.tail)
  }

  /** Apart from the fields, the body is fixed text: its length is the fixed
      length plus each field once per place it is interpolated, the name and
      the registration number twice. */
  lemma RenderLength(t: Layout, f: Fields)
    ensures |Render(t, f)| == t.FixedLength() + 2 * |f.name| + 2 * |f.registrationNumber|
                              + |f.email| + |f.phone| + |f.eventLabel| + |f.date|
  {
  }

  /** The name is interpolated twice: in the greeting and in its row. */
  lemma {:induction false} NameAppearsTwice(t: Layout, f: Fields)
    ensures OccursAt(Render(t, f), f.name, |t.head|)
    ensures OccursAt(Render(t, f), f.name, |t.head| + |f.name| + |t.welcome|)
  {
    var rest := f.name + Details(t, f);
    OccursAsPrefix(f.name, t.welcome + rest);
    OccursAfterPrefix(t.head, f.name + (t.welcome + rest), f.name, 0);
    OccursAsPrefix(f.name, Details(t, f));
    OccursAfterPrefix(t.welcome, rest, f.name, 0);
    OccursAfterPrefix(f.name, t.welcome + rest, f.name, |t.welcome|);
    OccursAfterPrefix(t.head, f.name + (t.welcome + rest), f.name, |f.name| + |t.welcome|);
  }

  /** The registration number in its own row. */
  lemma {:induction false} RegistrationNumberInRow(t: Layout, f: Fields)
    ensures OccursAt(Render(t, f), f.registrationNumber,
                     |t.head| + 2 * |f.name| + |t.welcome| + |t.numberRow|)
  {
    var number := f.registrationNumber;
    var later := t.emailRow + (f.email + (t.phoneRow + (f.phone + (t.eventRow + (f.eventLabel
      + (t.dateRow + (f.date + Closing(t, f))))))));
    OccursAsPrefix(number, later);
    OccursAfterPrefix(t.numberRow, number + later, number, 0);
    var i := |t.numberRow|;
    OccursAfterPrefix(f.name, Details(t, f), number, i);
    i := |f.name| + i;
    OccursAfterPrefix(t.welcome, f.name + Details(t, f), number, i);
    i := |t.welcome| + i;
    OccursAfterPrefix(f.name, t.welcome + (f.name + Details(t, f)), number, i);
    i := |f.name| + i;
    OccursAfterPrefix(t.head, f.name + (t.welcome + (f.name + Details(t, f))), number, i);
  }

  /** The registration number in the closing note, just before the tail. */
  lemma {:induction false} RegistrationNumberInNote(t: Layout, f: Fields)
    ensures OccursAt(Render(t, f), f.registrationNumber,
                     |Render(t, f)| - |t.tail| - |f.registrationNumber|)
  {
    var number := f.registrationNumber;
    OccursAsPrefix(number, t.tail);
    OccursAfterPrefix(t.note, number + t.tail, number, 0);
    var r := Render(t, f);
    var c := Closing(t, f);
    assert |r| - |c| >= 0 by { RenderLength(t, f); }
    assert r == r[..|r| - |c|] + c by {
      assert r[|r| - |c|..] == c by { SuffixOfRender(t, f); }
    }
    OccursAfterPrefix(r[..|r| - |c|], c, number, |t.note|);
  }

  /** The body ends with its closing note. */
  lemma SuffixOfRender(t: Layout, f: Fields)
    ensures |Closing(t, f)| <= |Render(t, f)|
    ensures Render(t, f)[|Render(t, f)| - |Closing(t, f)|..] == Closing(t, f)
  {
    var mid := t.head + f.name + t.welcome + f.name + t.numberRow + f.registrationNumber + t.emailRow
      + f.email + t.phoneRow + f.phone + t.eventRow + f.eventLabel + t.dateRow + f.date;
    assert Render(t, f) == mid + Closing(t, f);
  }

  /** The registration number is interpolated twice: in its row and in the
      note near the end. */
  lemma RegistrationNumberAppearsTwice(t: Layout, f: Fields)
    ensures OccursAt(Render(t, f), f.registrationNumber,
                     |t.head| + 2 * |f.name| + |t.welcome| + |t.numberRow|)
    ensures OccursAt(Render(t, f), f.registrationNumber,
                     |Render(t, f)| - |t.tail| - |f.registrationNumber|)
  {
    RegistrationNumberInRow(t, f);
    RegistrationNumberInNote(t, f);
  }

  /** Text found after a row's caption and field is found in the row too. */
  lemma InLaterRow(caption: string, field: string, later: string, x: string)
    requires Contains(later, x)
    ensures Contains(caption + (field + later), x)
  {
    ContainsAfterPrefix(field, later, x);
    ContainsAfterPrefix(caption, field + later, x);
  }

  /** What the details part contains, the whole body contains. */
  lemma DetailsInBody(t: Layout, f: Fields, x: string)
    requires Contains(Details(t, f), x)
    ensures Contains(Render(t, f), x)
  {
    InLaterRow(t.welcome, f.name, Details(t, f), x);
    InLaterRow(t.head, f.name, t.welcome + (f.name + Details(t, f)), x);
  }

  /** Every field is in the body verbatim: nothing is escaped or trimmed. */
  lemma {:induction false} RenderContainsFields(t: Layout, f: Fields)
    ensures Contains(Render(t, f), f.name)
    ensures Contains(Render(t, f), f.registrationNumber)
    ensures Contains(Render(t, f), f.email)
    ensures Contains(Render(t, f), f.phone)
    ensures Contains(Render(t, f), f.eventLabel)
    ensures Contains(Render(t, f), f.date)
  {
    NameAppearsTwice(t, f);
    ContainsAt(Render(t, f), f.name, |t.head|);
    RegistrationNumberAppearsTwice(t, f);
    ContainsAt(Render(t, f), f.registrationNumber, |t.head| + 2 * |f.name| + |t.welcome| + |t.numberRow|);
    // The details part, peeled row by row from the date back to the email.
    var s4 := t.dateRow + (f.date + Closing(t, f));
    var s3 := t.eventRow + (f.eventLabel + s4);
    var s2 := t.phoneRow + (f.phone + s3);
    var s1 := t.emailRow + (f.email + s2);
    assert Details(t, f) == t.numberRow + (f.registrationNumber + s1);
    ContainsMiddle(t.dateRow, f.date, Closing(t, f));
    ContainsMiddle(t.eventRow, f.eventLabel, s4);
    InLaterRow(t.eventRow, f.eventLabel, s4, f.date);
    ContainsMiddle(t.phoneRow, f.phone, s3);
    InLaterRow(t.phoneRow, f.phone, s3, f.eventLabel);
    InLaterRow(t.phoneRow, f.phone, s3, f.date);
    ContainsMiddle(t.emailRow, f.email, s2);
    InLaterRow(t.emailRow, f.email, s2, f.phone);
    InLaterRow(t.emailRow, f.email, s2, f.eventLabel);
    InLaterRow(t.emailRow, f.email, s2, f.date);
    InLaterRow(t.numberRow, f.registrationNumber, s1, f.email);
    InLaterRow(t.numberRow, f.registrationNumber, s1, f.phone);
    InLaterRow(t.numberRow, f.registrationNumber, s1, f.eventLabel);
    InLaterRow(t.numberRow, f.registrationNumber, s1, f.date);
    DetailsInBody(t, f, f.email);
    DetailsInBody(t, f, f.phone);
    DetailsInBody(t, f, f.eventLabel);
    DetailsInBody(t, f, f.date);
  }

  /** The Event row: the event label when it is truthy, otherwise the
      fallback text, which then is in the body. */
  lemma EventRowFallback(t: Layout, name: Attr, registrationNumber: Attr, email: Attr, phone: Attr,
                         event: Attr, date: string)
    ensures !event.Truthy() ==>
      Contains(Render(t, FieldsOf(name, registrationNumber, email, phone, event, date)), EventFallback)
    ensures event.Truthy() ==>
      Contains(Render(t, FieldsOf(name, registrationNumber, email, phone, event, date)), event.s)
  {
    RenderContainsFields(t, FieldsOf(name, registrationNumber, email, phone, event, date));
  }

  /** A sender as the provider's message carries it. */
  datatype Address = Address(email: string)

  /** One entry of the message's recipient list. */
  datatype Recipient = Recipient(email: Attr, name: Attr)

  /** What the provider's send call does with a message: it resolves with a
      response whose `messageId` is given, or it throws a value whose
      `message` property is given. */
  datatype ProviderOutcome = Accepted(messageId: Attr) | Rejected(message: Attr)

  /** The adapter's result, the `EmailResponse` shape: `{success: true,
      messageId}` or `{success: false, error}`. */
  datatype EmailResponse = Delivered(messageId: Attr) | NotDelivered(error: string) {
    predicate Success() { Delivered? }
  }

  /** The provider's message object, created empty and filled in field by field. */
  class SmtpEmail {
    var subject: Attr
    var sender: Option<Address>
    var to: Option<seq<Recipient>>
    var htmlContent: Attr

    constructor ()
      ensures subject == Undefined && sender == None && to == None && htmlContent == Undefined
    {
      subject := Undefined;
      sender := None;
      to := None;
      htmlContent := Undefined;
    }
  }

  /** `sendTemplateEmail`: builds the message, sends it and turns the
      provider's exception into a value; it never throws. An omitted
      `recipientName` is the empty string. */
  method SendTemplateEmail(to: Attr, from: string, subject: string, htmlTemplate: string,
                           provider: ProviderOutcome, recipientName: Attr := Undefined)
    returns (message: SmtpEmail, r: EmailResponse)
    ensures fresh(message)
    ensures message.subject == Str(subject) && message.htmlContent == Str(htmlTemplate)
    ensures message.sender == Some(Address(from))
    ensures message.to == Some([Recipient(to, if recipientName.Undefined? then Str("") else recipientName)])
    ensures r.Success() <==> provider.Accepted?
    ensures provider.Accepted? ==> r == Delivered(provider.messageId)
    ensures provider.Rejected? ==> r == NotDelivered(provider.message.Or(SendFailedFallback))
  {
    var name := if recipientName.Undefined? then Str("") else recipientName;
    message := new SmtpEmail();
    message.subject := Str(subject);
    message.sender := Some(Address(from));
    message.to := Some([Recipient(to, name)]);
    message.htmlContent := Str(htmlTemplate);
    match provider
    case Accepted(id) =>
      r := Delivered(id);
    case Rejected(m) =>
      r := NotDelivered(m.Or(SendFailedFallback));
  }

  /** `sendFormEmail`: renders the confirmation for the five registration
      fields on the given date and sends it to the participant, from the
      registration address, under the fixed subject, addressed by name; it
      returns the adapter's result unchanged. */
  method SendFormEmail(name: Attr, registrationNumber: Attr, email: Attr, phone: Attr, event: Attr,
                       date: string, provider: ProviderOutcome)
    returns (message: SmtpEmail, r: EmailResponse)
    ensures fresh(message)
    ensures message.to == Some([Recipient(email, if name.Undefined? then Str("") else name)])
    ensures message.sender == Some(Address(Sender)) && message.subject == Str(Subject)
    ensures message.htmlContent == Str(Render(Confirmation, FieldsOf(name, registrationNumber, email, phone, event, date)))
    ensures provider.Accepted? ==> r == Delivered(provider.messageId)
    ensures provider.Rejected? ==> r == NotDelivered(provider.message.Or(SendFailedFallback))
  {
    var html := Render(Confirmation, FieldsOf(name, registrationNumber, email, phone, event, date));
    message, r := SendTemplateEmail(email, Sender, Subject, html, provider, name);
  }
}
