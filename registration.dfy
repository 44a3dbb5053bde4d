/** The event-registration modal (`EventRegistrationModal`): a four-field
    form with an optional PDF resume, submitted in two requests to the CMS
    (upload, then registration). The awaited requests are outcome
    parameters; `handleSubmit` is split at its first `await` into
    `BeginSubmit` and `FinishSubmit`, and the two-second timer is an
    explicit method. */
module Registration {
  import opened Js

  const PdfType := "application/pdf"
  const NotOkFallback := "Failed to submit registration"
  const ThrownFallback := "An error occurred while submitting the registration"

  datatype SubmitStatus = Idle | Success | Error

  datatype FieldName = ParticipantName | RegistrationNumber | Email | Contact

  datatype Form = Form(participantName: string, registrationNumber: string, email: string, contact: string)
  {
    function Get(name: FieldName): string {
      match name
      case ParticipantName => participantName
      case RegistrationNumber => registrationNumber
      case Email => email
      case Contact => contact
    }
  }

  const EmptyForm := Form("", "", "", "")

  /** `{...prev, [name]: value}`: the named field takes the value, the others keep theirs. */
  function WithField(f: Form, name: FieldName, value: string): (r: Form)
    ensures r.Get(name) == value
    ensures forall other: FieldName :: other != name ==> r.Get(other) == f.Get(other)
  {
    match name
    case ParticipantName => f.(participantName := value)
    case RegistrationNumber => f.(registrationNumber := value)
    case Email => f.(email := value)
    case Contact => f.(contact := value)
  }

  datatype File = File(fileName: string, mimeType: string)

  /** The event the modal registers for; only its document id is sent. */
  datatype Event = Event(documentId: string, title: string)

  /** The `Resume` value of the registration payload: `null`, `undefined`
      (an ok upload whose answer has no first file id, a key that
      `JSON.stringify` then leaves out), or the uploaded file's id. */
  datatype ResumeRef = NoResume | ResumeUndefined | ResumeId(id: int)

  /** The upload request: it throws, answers not ok, or answers ok with a
      JSON value whose `[0]?.id` is `firstId` (missing when the value is not
      a list, the list is empty or its first file has no id). */
  datatype UploadOutcome = UploadThrew(e: Exception) | UploadNotOk | UploadOk(firstId: Option<int>)

  /** The resume reference a finished upload step leaves: `null` unless a
      file was chosen and the upload answered ok, then `fileData[0]?.id`. */
  function ResumeReference(resume: Option<File>, upload: UploadOutcome): (r: ResumeRef)
    requires !(resume.Some? && upload.UploadThrew?)
    ensures r.ResumeId? <==> resume.Some? && upload.UploadOk? && upload.firstId.Some?
    ensures r.ResumeId? ==> r.id == upload.firstId.value
    ensures r == NoResume <==> resume.None? || upload.UploadNotOk?
  {
    if resume.Some? && upload.UploadOk? then
      (if upload.firstId.Some? then ResumeId(upload.firstId.value) else ResumeUndefined)
    else NoResume
  }

  /** The registration request's `data`. */
  datatype Payload = Payload(participantName: string, registrationNumber: string, email: string,
                             contact: string, event: string, resume: ResumeRef)

  /** What `handleSubmit` captured when it started: the form, the chosen
      file and the event's document id. */
  datatype Submission = Submission(form: Form, resume: Option<File>, documentId: string)

  /** The upload step throws: the registration request is never sent. */
  predicate UploadAborts(s: Submission, upload: UploadOutcome) {
    s.resume.Some? && upload.UploadThrew?
  }

  /** The payload of the registration request for a submission whose upload
      step finished. */
  function PayloadOf(s: Submission, upload: UploadOutcome): (p: Payload)
    requires !UploadAborts(s, upload)
    ensures p.participantName == s.form.participantName && p.registrationNumber == s.form.registrationNumber
    ensures p.email == s.form.email && p.contact == s.form.contact
    ensures p.event == s.documentId
    ensures p.resume == ResumeReference(s.resume, upload)
  {
    Payload(s.form.participantName, s.form.registrationNumber, s.form.email, s.form.contact,
            s.documentId, ResumeReference(s.resume, upload))
  }

  /** The message shown for a failed submission: the upload's or the
      request's exception, or for a not-ok answer its `error.message` with a
      fallback. */
  function FailureMessage(s: Submission, upload: UploadOutcome, response: FetchOutcome): (m: string)
    requires UploadAborts(s, upload) || !response.Ok?
    ensures UploadAborts(s, upload) ==> m == MessageOr(upload.e, ThrownFallback)
    ensures !UploadAborts(s, upload) && response.NotOk? ==> m == response.errorMessage.Or(NotOkFallback)
    ensures !UploadAborts(s, upload) && response.Threw? ==> m == MessageOr(response.e, ThrownFallback)
  {
    if UploadAborts(s, upload) then MessageOr(upload.e, ThrownFallback)
    else if response.NotOk? then response.errorMessage.Or(NotOkFallback)
    else MessageOr(response.e, ThrownFallback)
  }

  class RegistrationModal {
    var formData: Form
    var resumeFile: Option<File>
    var isSubmitting: bool
    var submitStatus: SubmitStatus
    var errorMessage: string

    constructor ()
      ensures formData == EmptyForm && resumeFile == None && !isSubmitting
      ensures submitStatus == Idle && errorMessage == ""
    {
      formData := EmptyForm;
      resumeFile := None;
      isSubmitting := false;
      submitStatus := Idle;
      errorMessage := "";
    }

    /** `handleInputChange`: only the named field changes. */
    method InputChange(name: FieldName, value: string)
      modifies this
      ensures formData == WithField(old(formData), name, value)
      ensures resumeFile == old(resumeFile) && isSubmitting == old(isSubmitting)
      ensures submitStatus == old(submitStatus) && errorMessage == old(errorMessage)
    {
      formData := WithField(formData, name, value);
    }

    /** `handleFileChange`: the first selected file is kept only if it is a
      PDF; another file is rejected (an alert, and the input is cleared);
      no file changes nothing. */
    method FileChange(files: seq<File>) returns (rejected: bool)
      modifies this
      ensures rejected <==> |files| > 0 && files[0].mimeType != PdfType
      ensures resumeFile == if |files| > 0 && files[0].mimeType == PdfType then Some(files[0]) else old(resumeFile)
      ensures formData == old(formData) && isSubmitting == old(isSubmitting)
      ensures submitStatus == old(submitStatus) && errorMessage == old(errorMessage)
    {
      rejected := false;
      if |files| > 0 {
        var file := files[0];
        if file.mimeType == PdfType {
          resumeFile := Some(file);
        } else {
          rejected := true;
        }
      }
    }

    /** `handleSubmit` up to its first `await`. Without an event it returns
      at once and changes nothing; otherwise it marks the form as submitting,
      clears the status and the message, and captures what it will send. */
    method BeginSubmit(event: Option<Event>) returns (submission: Option<Submission>)
      modifies this
      ensures event.None? ==> submission.None? && unchanged(this)
      ensures event.Some? ==> submission == Some(Submission(old(formData), old(resumeFile), event.value.documentId))
      ensures event.Some? ==> isSubmitting && submitStatus == Idle && errorMessage == ""
      ensures formData == old(formData) && resumeFile == old(resumeFile)
    {
      submission := None;
      if event.Some? {
        isSubmitting := true;
        submitStatus := Idle;
        errorMessage := "";
        submission := Some(Submission(formData, resumeFile, event.value.documentId));
      }
    }

    /** The rest of `handleSubmit`, once the upload (made only if a file was
      chosen) and the registration request have answered. Returns the
      payload of the registration request, if it was sent. Success resets
      the form and the file; a failure keeps them and sets the message;
      either way the form is no longer submitting. */
    method FinishSubmit(s: Submission, upload: UploadOutcome, response: FetchOutcome)
      returns (payload: Option<Payload>)
      modifies this
      ensures payload.Some? <==> !UploadAborts(s, upload)
      ensures payload.Some? ==> payload.value == PayloadOf(s, upload)
      ensures !isSubmitting
      ensures submitStatus == Success <==> !UploadAborts(s, upload) && response.Ok?
      ensures submitStatus == Success ==>
        formData == EmptyForm && resumeFile == None && errorMessage == old(errorMessage)
      ensures submitStatus != Success ==>
        submitStatus == Error && formData == old(formData) && resumeFile == old(resumeFile)
        && errorMessage == FailureMessage(s, upload, response)
    {
      var failure: Option<Exception> := None;
      payload := None;
      if s.resume.Some? && upload.UploadThrew? {
        failure := Some(upload.e);
      } else {
        var resumeId := ResumeReference(s.resume, upload);
        payload := Some(Payload(s.form.participantName, s.form.registrationNumber, s.form.email,
                                s.form.contact, s.documentId, resumeId));
        match response
        case Threw(e) =>
          failure := Some(e);
        case NotOk(m) =>
          failure := Some(ErrorObject(m.Or(NotOkFallback)));
        case Ok =>
      }
      if failure.None? {
        submitStatus := Success;
        formData := EmptyForm;
        resumeFile := None;
      } else {
        submitStatus := Error;
        errorMessage := MessageOr(failure.value, ThrownFallback);
      }
      isSubmitting := false;
    }

    /** The two-second timer after a success: back to idle, and the modal
      asks its owner to close it. */
    method SuccessTimerFired() returns (closeRequested: bool)
      modifies this
      ensures closeRequested && submitStatus == Idle
      ensures formData == old(formData) && resumeFile == old(resumeFile)
      ensures isSubmitting == old(isSubmitting) && errorMessage == old(errorMessage)
    {
      submitStatus := Idle;
      closeRequested := true;
    }

    /** `handleClose`: ignored while submitting; otherwise the status and
      the message are reset and the owner is asked to close the modal. */
    method HandleClose() returns (closeRequested: bool)
      modifies this
      ensures closeRequested <==> !old(isSubmitting)
      ensures old(isSubmitting) ==> unchanged(this)
      ensures !old(isSubmitting) ==> submitStatus == Idle && errorMessage == ""
      ensures formData == old(formData) && resumeFile == old(resumeFile) && isSubmitting == old(isSubmitting)
    {
      closeRequested := false;
      if !isSubmitting {
        submitStatus := Idle;
        errorMessage := "";
        closeRequested := true;
      }
    }
  }

  /** One full cycle from a fresh modal: the fields are typed in, a PDF is
    chosen and the form is submitted for `event`. A close attempt while the
    requests are pending is ignored. The registration carries the typed
    fields, the event's document id and the uploaded file's id when the
    upload succeeded; a failed upload still registers, without a resume. */
  method RegistrationCycle(form: Form, pdf: File, event: Event, upload: UploadOutcome, response: FetchOutcome)
    returns (closedWhileSubmitting: bool, payload: Option<Payload>, status: SubmitStatus)
    requires pdf.mimeType == PdfType
    ensures !closedWhileSubmitting
    ensures payload.Some? <==> !upload.UploadThrew?
    ensures payload.Some? ==>
      payload.value.event == event.documentId && payload.value.participantName == form.participantName
      && payload.value.registrationNumber == form.registrationNumber
      && payload.value.email == form.email && payload.value.contact == form.contact
    ensures upload.UploadNotOk? ==> payload.Some? && payload.value.resume == NoResume
    ensures upload.UploadOk? && upload.firstId.Some? ==>
      payload.Some? && payload.value.resume == ResumeId(upload.firstId.value)
    ensures status == Success <==> !upload.UploadThrew? && response.Ok?
  {
    var modal := new RegistrationModal();
    modal.InputChange(ParticipantName, form.participantName);
    modal.InputChange(RegistrationNumber, form.registrationNumber);
    modal.InputChange(Email, form.email);
    modal.InputChange(Contact, form.contact);
    var rejected := modal.FileChange([pdf]);
    var submission := modal.BeginSubmit(Some(event));
    closedWhileSubmitting := modal.HandleClose();
    payload := modal.FinishSubmit(submission.value, upload, response);
    status := modal.submitStatus;
  }
}
