/** The form's state as one value, and each event handler as a function from the
    state before the handler to the state after it. Network answers are inputs. */
module FormMachine {
  import opened FormData

  /** Every state slot of the component: the step, the form record, the two
      attachments, the notification and the two OTP flags. */
  datatype Snapshot = Snapshot(
    step: int,
    formData: Record,
    image: Option<File>,
    signature: Option<File>,
    isModalOpen: bool,
    modalMessage: string,
    otpSent: bool,
    otpVerified: bool)

  /** The state the component is mounted with. */
  const Initial: Snapshot := Snapshot(1, EmptyRecord, None, None, false, "", false, false)

  /** How a request answered: a response whose `ok` is true or false. */
  datatype Response = Ok | NotOk

  /** How the verify request ended: an ok response with a parsed body, a non-ok
      response with a parsed body, or an exception (from the request or from parsing
      the body) whose `message` may be missing. */
  datatype VerifyOutcome = Verified | Rejected | Threw(message: Option<string>)

  const OtpSentMessage: string := "OTP has been sent to your email."
  const OtpSendErrorMessage: string := "Error sending OTP."
  const OtpVerifiedMessage: string := "OTP verified successfully! Now you can fill the rest of the form"
  const InvalidOtpMessage: string := "Invalid OTP. Please try again."
  const VerifyErrorPrefix: string := "Error verifying OTP: "
  const UnknownError: string := "Unknown error"
  const VerifyFirstMessage: string := "Please verify your OTP before submitting."
  const SubmittedMessage: string := "Your data has been submitted successfully!"
  const SubmitErrorMessage: string := "Error submitting your data."

  /** The consistency the handlers keep: the step is 1 or 2; the form is at step 2
      exactly when the OTP is verified; a verified OTP was sent. */
  predicate Inv(s: Snapshot)
  {
    && (s.step == 1 || s.step == 2)
    && (s.step == 2 <==> s.otpVerified)
    && (s.otpVerified ==> s.otpSent)
  }

  /** Only the notification differs between s and r, and it now shows msg. */
  predicate Notified(s: Snapshot, r: Snapshot, msg: string)
  {
    r == s.(isModalOpen := true, modalMessage := msg)
  }

  lemma InitialIsConsistent()
    ensures Inv(Initial) && Initial.step == 1 && !Initial.otpSent && !Initial.otpVerified
    ensures forall f :: Initial.formData.Get(f) == ""
  {
  }

  /** handleChange: one field takes the typed value. */
  function Change(s: Snapshot, f: Field, v: string): (r: Snapshot)
    ensures r.formData.Get(f) == v
    ensures forall g :: g != f ==> r.formData.Get(g) == s.formData.Get(g)
    ensures r.(formData := s.formData) == s
    ensures Inv(s) ==> Inv(r)
  {
    s.(formData := s.formData.With(f, v))
  }

  /** What `files[0]` yields: the first file, or nothing for an empty list. */
  function FirstFile(files: seq<File>): (f: Option<File>)
    ensures f.Some? <==> |files| > 0
    ensures f.Some? ==> f.value == files[0]
  {
    if |files| > 0 then Some(files[0]) else None
  }

  /** handleImageChange: with a file list present, the image slot takes its first file. */
  function ImageChange(s: Snapshot, files: Option<seq<File>>): (r: Snapshot)
    ensures files.None? ==> r == s
    ensures files.Some? ==> (r.image.Some? <==> |files.value| > 0)
    ensures r.image.Some? && files.Some? ==> r.image.value == files.value[0]
    ensures r.(image := s.image) == s
  {
    if files.Some? then s.(image := FirstFile(files.value)) else s
  }

  /** handleSignatureChange: with a file list present, the signature slot takes its first file. */
  function SignatureChange(s: Snapshot, files: Option<seq<File>>): (r: Snapshot)
    ensures files.None? ==> r == s
    ensures files.Some? ==> (r.signature.Some? <==> |files.value| > 0)
    ensures r.signature.Some? && files.Some? ==> r.signature.value == files.value[0]
    ensures r.(signature := s.signature) == s
  {
    if files.Some? then s.(signature := FirstFile(files.value)) else s
  }

  /** sendOtp: a success marks the OTP as sent; either way the outcome is shown. */
  function SendOtp(s: Snapshot, response: Response): (r: Snapshot)
    ensures response == Ok ==> Notified(s.(otpSent := true), r, OtpSentMessage)
    ensures response == NotOk ==> Notified(s, r, OtpSendErrorMessage)
    ensures r.formData == s.formData && r.image == s.image && r.signature == s.signature
    ensures r.step == s.step && r.otpVerified == s.otpVerified
    ensures Inv(s) ==> Inv(r)
  {
    if response == Ok then
      s.(otpSent := true, modalMessage := OtpSentMessage, isModalOpen := true)
    else
      s.(modalMessage := OtpSendErrorMessage, isModalOpen := true)
  }

  /** The detail shown after a verify exception: the error's message if it is a
      non-empty string, "Unknown error" otherwise. */
  function ErrorDetail(message: Option<string>): (d: string)
    ensures d != ""
    ensures message.Some? && message.value != "" ==> d == message.value
    ensures message.None? || message.value == "" ==> d == UnknownError
  {
    if message.Some? && message.value != "" then message.value else UnknownError
  }

  /** The notification text each verify outcome ends with. */
  function VerifyMessage(outcome: VerifyOutcome): (m: string)
    ensures outcome.Verified? ==> m == OtpVerifiedMessage
    ensures outcome.Rejected? ==> m == InvalidOtpMessage
    ensures outcome.Threw? ==>
      (|m| > |VerifyErrorPrefix| && m[..|VerifyErrorPrefix|] == VerifyErrorPrefix
       && m[|VerifyErrorPrefix|..] == ErrorDetail(outcome.message))
  {
    match outcome
    case Verified => OtpVerifiedMessage
    case Rejected => InvalidOtpMessage
    case Threw(message) => VerifyErrorPrefix + ErrorDetail(message)
  }

  /** verifyOtp: a success verifies the OTP and moves the form to step 2; a
      rejection or an exception changes only the notification. The notification is
      shown on every path. */
  function VerifyOtp(s: Snapshot, outcome: VerifyOutcome): (r: Snapshot)
    ensures r.isModalOpen && r.modalMessage == VerifyMessage(outcome)
    ensures outcome.Verified? ==> r.otpVerified && r.step == 2
    ensures !outcome.Verified? ==> Notified(s, r, VerifyMessage(outcome))
    ensures r.formData == s.formData && r.image == s.image && r.signature == s.signature
    ensures r.otpSent == s.otpSent
    ensures s.otpVerified ==> r.otpVerified
    ensures Inv(s) && (s.otpSent || !outcome.Verified?) ==> Inv(r)
  {
    var t := if outcome.Verified? then s.(otpVerified := true, step := 2) else s;
    t.(modalMessage := VerifyMessage(outcome), isModalOpen := true)
  }

  /** handleSubmit: without a verified OTP nothing is sent and the user is told to
      verify first; a successful submission resets the whole form; a failed one
      only reports the failure. */
  function Submit(s: Snapshot, response: Response): (r: Snapshot)
    ensures !s.otpVerified ==> Notified(s, r, VerifyFirstMessage)
    ensures s.otpVerified && response == Ok ==> Notified(Initial, r, SubmittedMessage)
    ensures s.otpVerified && response == NotOk ==> Notified(s, r, SubmitErrorMessage)
    ensures Inv(s) ==> Inv(r)
  {
    if !s.otpVerified then
      s.(modalMessage := VerifyFirstMessage, isModalOpen := true)
    else if response == Ok then
      Initial.(modalMessage := SubmittedMessage, isModalOpen := true)
    else
      s.(modalMessage := SubmitErrorMessage, isModalOpen := true)
  }

  /** closeModal: hides the notification and keeps its text. */
  function CloseModal(s: Snapshot): (r: Snapshot)
    ensures !r.isModalOpen
    ensures r.(isModalOpen := s.isModalOpen) == s
  {
    s.(isModalOpen := false)
  }

  /** A successful submission leaves every field blank, both attachments absent and
      the OTP flow back at its start. */
  lemma SubmitSuccessResets(s: Snapshot)
    requires s.otpVerified
    ensures forall f :: Submit(s, Ok).formData.Get(f) == ""
    ensures Submit(s, Ok).image == None && Submit(s, Ok).signature == None
    ensures !Submit(s, Ok).otpSent && !Submit(s, Ok).otpVerified && Submit(s, Ok).step == 1
  {
  }

  /** A failed send leaves nothing behind: retrying gives what the retry alone gives. */
  lemma SendOtpRetry(s: Snapshot, response: Response)
    ensures SendOtp(SendOtp(s, NotOk), response) == SendOtp(s, response)
  {
  }

  /** A rejected or failed verification leaves nothing behind but its message. */
  lemma VerifyOtpRetry(s: Snapshot, failure: VerifyOutcome, outcome: VerifyOutcome)
    requires !failure.Verified?
    ensures VerifyOtp(VerifyOtp(s, failure), outcome) == VerifyOtp(s, outcome)
  {
  }

  /** A failed submission keeps the form as it was, so the retry sees the same data. */
  lemma SubmitRetry(s: Snapshot, response: Response)
    ensures Submit(s, NotOk).formData == s.formData
    ensures Submit(s, NotOk).image == s.image && Submit(s, NotOk).signature == s.signature
    ensures Submit(Submit(s, NotOk), response) == Submit(s, response)
  {
  }
}
