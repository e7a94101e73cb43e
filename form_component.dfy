/** The form component itself: its state slots as fields that the event handlers
    assign, and the submit payload built by successive appends. */
module FormComponent {
  import opened FormData
  import FormMachine

  /** The name under which the returned document is offered for download. */
  const DownloadName: string := "user_details.pdf"

  /** Builds the multipart body of a submission, one append per entry. */
  method BuildPayload(data: Record, image: Option<File>, signature: Option<File>) returns (parts: seq<Part>)
    ensures parts == Payload(data, image, signature)
  {
    parts := [];
    parts := parts + [Part("name", Text(data.name))];
    parts := parts + [Part("email", Text(data.email))];
    parts := parts + [Part("phone", Text(data.phone))];
    parts := parts + [Part("address", Text(data.address))];
    parts := parts + [Part("age", Text(data.age))];
    parts := parts + [Part("department", Text(data.department))];
    parts := parts + [Part("designation", Text(data.designation))];
    parts := parts + [Part("placeOfWork", Text(data.placeOfWork))];
    parts := parts + [Part("code", Text(data.code))];
    assert parts == FieldParts(data);
    if image.Some? {
      parts := parts + [Part("image", Blob(image.value))];
    }
    if signature.Some? {
      parts := parts + [Part("signature", Blob(signature.value))];
    }
  }

  class Form {
    var step: int
    var formData: Record
    var image: Option<File>
    var signature: Option<File>
    var isModalOpen: bool
    var modalMessage: string
    var otpSent: bool
    var otpVerified: bool

    /** The component's state as one value. */
    function State(): FormMachine.Snapshot
      reads this
    {
      FormMachine.Snapshot(step, formData, image, signature, isModalOpen, modalMessage, otpSent, otpVerified)
    }

    predicate Valid()
      reads this
    {
      FormMachine.Inv(State())
    }

    constructor ()
      ensures Valid() && State() == FormMachine.Initial
    {
      step := 1;
      formData := EmptyRecord;
      image := None;
      signature := None;
      isModalOpen := false;
      modalMessage := "";
      otpSent := false;
      otpVerified := false;
    }

    method HandleChange(f: Field, v: string)
      requires Valid()
      modifies this
      ensures Valid()
      ensures State() == FormMachine.Change(old(State()), f, v)
    {
      formData := formData.With(f, v);
    }

    /** `files` is the input's file list, which may be missing. */
    method HandleImageChange(files: Option<seq<File>>)
      requires Valid()
      modifies this
      ensures Valid()
      ensures State() == FormMachine.ImageChange(old(State()), files)
    {
      if files.Some? {
        image := FormMachine.FirstFile(files.value);
      }
    }

    method HandleSignatureChange(files: Option<seq<File>>)
      requires Valid()
      modifies this
      ensures Valid()
      ensures State() == FormMachine.SignatureChange(old(State()), files)
    {
      if files.Some? {
        signature := FormMachine.FirstFile(files.value);
      }
    }

    /** Send OTP; the button is disabled once the OTP has been sent. */
    method SendOtp(response: FormMachine.Response)
      requires Valid() && !otpSent
      modifies this
      ensures Valid()
      ensures State() == FormMachine.SendOtp(old(State()), response)
    {
      if response == FormMachine.Ok {
        otpSent := true;
        modalMessage := FormMachine.OtpSentMessage;
        isModalOpen := true;
      } else {
        modalMessage := FormMachine.OtpSendErrorMessage;
        isModalOpen := true;
      }
    }

    /** Verify OTP; the button is shown only at step 1 once the OTP has been sent. */
    method VerifyOtp(outcome: FormMachine.VerifyOutcome)
      requires Valid() && step == 1 && otpSent
      modifies this
      ensures Valid()
      ensures State() == FormMachine.VerifyOtp(old(State()), outcome)
    {
      match outcome {
        case Verified =>
          otpVerified := true;
          step := 2;
          modalMessage := FormMachine.OtpVerifiedMessage;
        case Rejected =>
          modalMessage := FormMachine.InvalidOtpMessage;
        case Threw(message) =>
          modalMessage := FormMachine.VerifyErrorPrefix + FormMachine.ErrorDetail(message);
      }
      isModalOpen := true;
    }

    /** Submits the form. `request` is the payload posted, none when the guard stops
        the submission; `download` is the name of the file offered to the user. */
    method HandleSubmit(response: FormMachine.Response) returns (request: Option<seq<Part>>, download: Option<string>)
      requires Valid()
      modifies this
      ensures Valid()
      ensures State() == FormMachine.Submit(old(State()), response)
      ensures request.Some? <==> old(otpVerified)
      ensures request.Some? ==> request.value == Payload(old(formData), old(image), old(signature))
      ensures download.Some? <==> old(otpVerified) && response == FormMachine.Ok
      ensures download.Some? ==> download.value == DownloadName
    {
      if !otpVerified {
        modalMessage := FormMachine.VerifyFirstMessage;
        isModalOpen := true;
        return None, None;
      }
      var parts := BuildPayload(formData, image, signature);
      request := Some(parts);
      download := None;
      if response == FormMachine.Ok {
        modalMessage := FormMachine.SubmittedMessage;
        download := Some(DownloadName);
        formData := EmptyRecord;
        image := None;
        signature := None;
        otpSent := false;
        otpVerified := false;
        step := 1;
      } else {
        modalMessage := FormMachine.SubmitErrorMessage;
      }
      isModalOpen := true;
    }

    method CloseModal()
      requires Valid()
      modifies this
      ensures Valid()
      ensures State() == FormMachine.CloseModal(old(State()))
    {
      isModalOpen := false;
    }
  }
}
