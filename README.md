# OTP-gated registration form, modelled in Dafny

This project models the controller of the two-step registration form in
`src/app/Components/Form.tsx`. The form first collects a name and an email. It
mails a one-time passcode (OTP) to that email and checks the code the user types
back. Only after a successful check does it move to step 2, where the remaining
details and two image attachments are entered. The final submit posts everything
as a multipart payload. On success it offers the returned document as
`user_details.pdf` and resets the whole form. Every modelled outcome is reported
through a modal notification.

Files:

- `form_data.dfy` (module `FormData`): the nine text fields, the form record, the
  opaque attachment handle, and the submit payload. The payload has a read-back
  partner (`Lookup`, `TextField`, `FileSlot`): a receiver that reads the payload by
  key recovers every field and both attachment slots.
- `form_machine.dfy` (module `FormMachine`): the component's state as one value
  (`Snapshot`) and every event handler as a function from the old state to the new
  one. The answer of each network request is an input. The module also defines the
  consistency invariant `Inv` and proves what each handler keeps and changes.
- `form_trace.dfy` (module `FormTrace`): sequences of user actions. It proves that
  every state reached through actions the page offers satisfies `Inv`, and that the
  form is at step 2 exactly when a verification succeeded since the last reset. It
  also walks the whole happy path, with every required input filled before the
  submit.
- `form_component.dfy` (module `FormComponent`): the component as a class. Its
  fields are the `useState` slots and it has one method per handler. Each method
  assigns the fields the way the handler's setter calls do. Its `ensures` ties the
  new state to the matching `FormMachine` function, and `Valid()` (the invariant)
  is kept. `HandleSubmit` also returns the request it would post and the download
  it would offer.

Network answers are parameters. `Response` is `Ok | NotOk` (the response's `ok`
flag). `VerifyOutcome` is `Verified | Rejected | Threw(message)`. In the source,
`response.json()` is awaited before `response.ok` is tested (line 73), so an
exception while parsing the body also ends in the "Error verifying OTP: …"
message. `Threw` covers that case as well as a failed request. `Threw(None)` stands
for an error without a `message` property. Like the empty string, it is shown as
"Unknown error" because the source writes `error.message || "Unknown error"`.

The page's rendering limits which actions the user can take. These limits appear
as method preconditions and as `FormTrace.Enabled`:

- Send OTP is disabled once `otpSent` is true (line 204).
- Verify OTP is rendered only at step 1 once the OTP is sent (lines 167, 214-234).

The submit handler is modelled without such a precondition, because it has its own
guard (lines 96-100). With these limits the invariant is
`step ∈ {1,2}`, `step = 2 ⇔ otpVerified` and `otpVerified ⇒ otpSent`. This is
stronger than `step = 2 ⇒ otpVerified`, because the source sets and clears both
slots together (lines 76-77, 150-151).

The OTP input is the record's `code` field: the input's `name` (line 221) and the
payload key (line 111) both say `code`.

Editing a field, picking a file, submitting and closing the notification are
treated as available at every step. The page is stricter: it renders each input
only at its own step (lines 167, 240), and its only submit button is rendered at
step 2 (line 362). Allowing more actions makes `FormTrace.RunKeepsInv` and
`FormTrace.StepTwoIffVerifiedSinceReset` stronger, since they hold for every
sequence that `Enabled` admits.

## Model

| member | source | states |
|---|---|---|
| FormData.Record.With | src/app/Components/Form.tsx:25-30 | the edited field holds the new value and every other field keeps its value |
| FormData.EmptyRecordIsBlank | src/app/Components/Form.tsx:7-17 | the initial record (also the record after a reset) has all nine fields empty |
| FormData.Payload | src/app/Components/Form.tsx:102-117 | the payload has 9 entries plus one per present attachment; entries 0-8 are the fields in the order name, email, phone, address, age, department, designation, placeOfWork, code, each present even when empty; then the image, then the signature, each only when present |
| FormData.PayloadReadsBack | src/app/Components/Form.tsx:102-117 | reading the payload by key gives back each field's value and exactly the two attachment slots: no entry shadows another |
| FormData.PayloadInjective | src/app/Components/Form.tsx:102-117 | two different form states never produce the same payload |
| FormMachine.InitialIsConsistent | src/app/Components/Form.tsx:6-23 | the mounted state is at step 1, nothing sent or verified, all fields empty, and satisfies the invariant |
| FormMachine.Change | src/app/Components/Form.tsx:25-30 | handleChange sets field f to v; the other eight fields, attachments, flags, step and notification are unchanged; the invariant is kept |
| FormMachine.FirstFile | src/app/Components/Form.tsx:33-35 | `files[0]` is the first file, or nothing when the list is empty |
| FormMachine.ImageChange | src/app/Components/Form.tsx:32-36 | without a file list nothing changes; with one only the image slot changes, to its first file or to nothing |
| FormMachine.SignatureChange | src/app/Components/Form.tsx:38-42 | the same for the signature slot |
| FormMachine.SendOtp | src/app/Components/Form.tsx:44-61 | on success otpSent becomes true with "OTP has been sent to your email."; on failure otpSent is unchanged with "Error sending OTP."; the modal is open; fields, attachments, otpVerified and step are untouched; the invariant is kept |
| FormMachine.ErrorDetail | src/app/Components/Form.tsx:84-87 | the detail is the error's message when it is a non-empty string, "Unknown error" when it is missing or empty, and never empty |
| FormMachine.VerifyMessage | src/app/Components/Form.tsx:75-87 | success, rejection and exception each end with their own message; the exception message is "Error verifying OTP: " followed by the detail |
| FormMachine.VerifyOtp | src/app/Components/Form.tsx:63-91 | success sets otpVerified and step 2; rejection or exception change only the notification; the modal is open on every path; fields, attachments and otpSent are untouched; a verified OTP stays verified; the invariant is kept when the OTP was sent |
| FormMachine.Submit | src/app/Components/Form.tsx:93-157 | unverified: only the notification changes, to "Please verify your OTP before submitting."; verified and ok: the state is the initial state with "Your data has been submitted successfully!" shown; verified and not ok: only the notification changes, to "Error submitting your data."; the invariant is kept |
| FormMachine.CloseModal | src/app/Components/Form.tsx:159-161 | the modal is hidden and nothing else changes, not even the message |
| FormMachine.SubmitSuccessResets | src/app/Components/Form.tsx:135-151 | after a successful submit all nine fields are empty, both attachments are absent, otpSent and otpVerified are false and the step is 1 |
| FormMachine.SendOtpRetry | src/app/Components/Form.tsx:53-60 | a failed send leaves no trace: sending again gives the same state as sending only once |
| FormMachine.VerifyOtpRetry | src/app/Components/Form.tsx:81-90 | a rejected or failed verification leaves no trace: verifying again gives the same state as verifying only once |
| FormMachine.SubmitRetry | src/app/Components/Form.tsx:152-156 | a failed submit keeps fields and attachments, and submitting again gives the same state as submitting only once |
| FormTrace.ApplyKeepsInv | src/app/Components/Form.tsx:201-236 | every action the page offers keeps the invariant |
| FormTrace.RunKeepsInv | src/app/Components/Form.tsx:214-234 | every state reached from a consistent state through offered actions is consistent |
| FormTrace.StepTwoIffVerifiedSinceReset | src/app/Components/Form.tsx:76-77 | for any sequence of actions from the initial state, step is 2, and otpVerified holds, exactly when a verification succeeded after the last successful submit; the step is always 1 or 2 |
| FormTrace.LeavingStepTwo | src/app/Components/Form.tsx:149-151 | the only action that leaves step 2 is a successful submit, and it yields the reset state |
| FormTrace.FieldsChangeOnlyByEditOrReset | src/app/Components/Form.tsx:136-146 | the fields change only through an edit or a successful verified submit |
| FormTrace.RunAppend | src/app/Components/Form.tsx:25-161 | running two action sequences in turn is running their concatenation, and the concatenation is allowed exactly when both parts are |
| FormTrace.OnlyEdits | src/app/Components/Form.tsx:25-30 | any sequence of edits is allowed at every step and changes only the form record, as `Edits` of it |
| FormTrace.StepOnePath | src/app/Components/Form.tsx:44-91 | name, email, Send OTP, code, Verify OTP is allowed from the mounted form and ends at step 2 with the OTP sent and verified, the three typed fields and nothing else filled, and the verified message shown |
| FormTrace.StepTwoEdits | src/app/Components/Form.tsx:240-331 | the six step-2 edits overwrite exactly phone, address, age, department, designation and place of work |
| FormTrace.StepTwoPath | src/app/Components/Form.tsx:240-331 | filling in the six step-2 inputs is allowed from any state and changes only those six fields |
| FormTrace.HappyPath | src/app/Components/Form.tsx:44-157 | for any record whose six `required` step-2 inputs (lines 256, 271, 286, 301, 316, 331) are non-empty: typing name and email, Send OTP, the code, Verify OTP, then the six step-2 inputs is allowed; it ends at step 2, verified, with the form holding exactly that record and every required input filled; the successful submit after it is allowed and ends in the initial state with the success message shown |
| FormComponent.BuildPayload | src/app/Components/Form.tsx:102-117 | the successive appends produce exactly `Payload` of the current record and attachments |
| FormComponent.Form.constructor | src/app/Components/Form.tsx:6-23 | the slots start in the initial state, which satisfies the invariant |
| FormComponent.Form.HandleChange | src/app/Components/Form.tsx:25-30 | the new `State()` is `Change` of the old one; the invariant is kept |
| FormComponent.Form.HandleImageChange | src/app/Components/Form.tsx:32-36 | the new `State()` is `ImageChange` of the old one |
| FormComponent.Form.HandleSignatureChange | src/app/Components/Form.tsx:38-42 | the new `State()` is `SignatureChange` of the old one |
| FormComponent.Form.SendOtp | src/app/Components/Form.tsx:44-61 | callable only while the OTP is unsent (line 204); the new `State()` is `SendOtp` of the old one |
| FormComponent.Form.VerifyOtp | src/app/Components/Form.tsx:63-91 | callable only at step 1 once the OTP is sent (lines 214-234); the new `State()` is `VerifyOtp` of the old one |
| FormComponent.Form.HandleSubmit | src/app/Components/Form.tsx:93-157 | a request is issued exactly when the OTP was verified, and it is the payload of the pre-call fields and attachments; a download named user_details.pdf is offered exactly when that request succeeds; the new `State()` is `Submit` of the old one |
| FormComponent.Form.CloseModal | src/app/Components/Form.tsx:159-161 | the new `State()` is `CloseModal` of the old one |

## Left out

- The three `fetch` calls, `response.json()` and `response.blob()` (lines 45-51, 65-73, 119-126) are not modelled. Their results enter as the `Response` and `VerifyOutcome` parameters. The returned document's bytes are not modelled; the download appears only as its file name.
- The download mechanics (object URL, anchor element, click, removal, lines 127-133) are not modelled. Only the name `user_details.pdf` is modelled.
- `sendOtp` and `handleSubmit` have no `try`/`catch`, so a rejected `fetch` or `blob()` escapes them. Those paths are not modelled, and nothing is claimed about them.
- Asynchronous interleaving is not modelled. Each handler is one atomic step, so React's batching of setter calls, stale closures and late responses are outside the model. The source has no protection against a late response (no request counter), and the model claims none. It does prove that a failed verification never clears `otpVerified`.
- `handleChange` takes the field name from `e.target.name`. The model restricts it to the nine inputs the page renders. A name outside them, which would add a key to the record, cannot occur on this page.
- The browser's `required` checks that may block the submit event are not part of `Enabled`. `HandleSubmit` is modelled unconditionally. `FormTrace.HappyPath` shows that the checks pass on its path: every required step-2 input is non-empty before the submit.
- The JSX rendering and styling (lines 163-374) are not modelled. They are used only to decide which actions are offered. The `Modal` component is not part of this model.
- The commented-out earlier copy of the component (lines 380-708) is not modelled.
- Attachment contents are not modelled. A file is an opaque handle.
