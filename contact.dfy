/** The contact form of the "Reach us" page: four fields posted to the CMS
    as `{data: formData}`. The awaited request is an outcome parameter;
    `handleSubmit` is split at its `await` into `BeginSubmit` and
    `FinishSubmit`, and the five-second timer is an explicit method. */
module Contact {
  import opened Js

  const NotOkFallback := "Failed to submit form"
  const ThrownFallback := "An error occurred while submitting the form"

  datatype SubmitStatus = Idle | Success | Error

  datatype FieldName = YourName | Email | Subject | Description

  datatype Form = Form(yourName: string, email: string, subject: string, description: string)
  {
    function Get(name: FieldName): string {
      match name
      case YourName => yourName
      case Email => email
      case Subject => subject
      case Description => description
    }
  }

  const EmptyForm := Form("", "", "", "")

  /** `{...prev, [name]: value}`: the named field takes the value, the others keep theirs. */
  function WithField(f: Form, name: FieldName, value: string): (r: Form)
    ensures r.Get(name) == value
    ensures forall other: FieldName :: other != name ==> r.Get(other) == f.Get(other)
  {
    match name
    case YourName => f.(yourName := value)
    case Email => f.(email := value)
    case Subject => f.(subject := value)
    case Description => f.(description := value)
  }

  /** The request body: the whole form under `data`. */
  datatype RequestBody = RequestBody(data: Form)

  /** The message shown when the request fails. */
  function FailureMessage(response: FetchOutcome): (m: string)
    requires !response.Ok?
    ensures response.NotOk? ==> m == response.errorMessage.Or(NotOkFallback)
    ensures response.Threw? ==> m == MessageOr(response.e, ThrownFallback)
  {
    if response.NotOk? then response.errorMessage.Or(NotOkFallback)
    else MessageOr(response.e, ThrownFallback)
  }

  class ContactForm {
    var formData: Form
    var isSubmitting: bool
    var submitStatus: SubmitStatus
    var errorMessage: string

    constructor ()
      ensures formData == EmptyForm && !isSubmitting && submitStatus == Idle && errorMessage == ""
    {
      formData := EmptyForm;
      isSubmitting := false;
      submitStatus := Idle;
      errorMessage := "";
    }

    /** `handleInputChange`: only the named field changes. */
    method InputChange(name: FieldName, value: string)
      modifies this
      ensures formData == WithField(old(formData), name, value)
      ensures isSubmitting == old(isSubmitting) && submitStatus == old(submitStatus)
      ensures errorMessage == old(errorMessage)
    {
      formData := WithField(formData, name, value);
    }

    /** `handleSubmit` up to its `await`: marks the form as submitting,
      clears the status and the message, and builds the request body from
      the current form. */
    method BeginSubmit() returns (body: RequestBody)
      modifies this
      ensures body == RequestBody(old(formData))
      ensures isSubmitting && submitStatus == Idle && errorMessage == ""
      ensures formData == old(formData)
    {
      isSubmitting := true;
      submitStatus := Idle;
      errorMessage := "";
      body := RequestBody(formData);
    }

    /** The rest of `handleSubmit`, once the request has answered. Success
      resets the form; a failure keeps it and sets the message; either way
      the form is no longer submitting. */
    method FinishSubmit(response: FetchOutcome)
      modifies this
      ensures !isSubmitting
      ensures submitStatus == Success <==> response.Ok?
      ensures response.Ok? ==> formData == EmptyForm && errorMessage == old(errorMessage)
      ensures !response.Ok? ==>
        submitStatus == Error && formData == old(formData) && errorMessage == FailureMessage(response)
    {
      var failure: Option<Exception> := None;
      match response {
        case Threw(e) =>
          failure := Some(e);
        case NotOk(m) =>
          failure := Some(ErrorObject(m.Or(NotOkFallback)));
        case Ok =>
      }
      if failure.None? {
        submitStatus := Success;
        formData := EmptyForm;
      } else {
        submitStatus := Error;
        errorMessage := MessageOr(failure.value, ThrownFallback);
      }
      isSubmitting := false;
    }

    /** The five-second timer after a success: the status returns to idle. */
    method SuccessTimerFired()
      modifies this
      ensures submitStatus == Idle
      ensures formData == old(formData) && isSubmitting == old(isSubmitting)
      ensures errorMessage == old(errorMessage)
    {
      submitStatus := Idle;
    }
  }

  /** One full cycle from a fresh form: after the fields are typed in and
      the request succeeds, the form is empty and shows success until the
      timer returns it to idle; after a failure the typed fields are kept. */
  method SubmitCycle(name: string, email: string, subject: string, text: string, response: FetchOutcome)
    returns (sent: RequestBody, afterwards: Form, status: SubmitStatus)
    ensures sent == RequestBody(Form(name, email, subject, text))
    ensures response.Ok? ==> afterwards == EmptyForm && status == Idle
    ensures !response.Ok? ==> afterwards == Form(name, email, subject, text) && status == Error
  {
    var page := new ContactForm();
    page.InputChange(YourName, name);
    page.InputChange(Email, email);
    page.InputChange(Subject, subject);
    page.InputChange(Description, text);
    sent := page.BeginSubmit();
    page.FinishSubmit(response);
    if page.submitStatus == Success {
      page.SuccessTimerFired();
    }
    afterwards, status := page.formData, page.submitStatus;
  }
}
