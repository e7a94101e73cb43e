/** Runs of the form: the user's actions in order, applied one handler at a time,
    and what holds of every state a run reaches. */
module FormTrace {
  import opened FormData
  import opened FormMachine

  /** One user action together with the answer its request got, if it makes one. */
  datatype Action =
    | EditField(field: Field, value: string)
    | PickImage(files: Option<seq<File>>)
    | PickSignature(files: Option<seq<File>>)
    | PressSendOtp(response: Response)
    | PressVerifyOtp(outcome: VerifyOutcome)
    | SubmitForm(response: Response)
    | DismissModal

  /** The handler an action triggers. */
  function Apply(s: Snapshot, a: Action): Snapshot
  {
    match a
    case EditField(f, v) => Change(s, f, v)
    case PickImage(files) => ImageChange(s, files)
    case PickSignature(files) => SignatureChange(s, files)
    case PressSendOtp(response) => SendOtp(s, response)
    case PressVerifyOtp(outcome) => VerifyOtp(s, outcome)
    case SubmitForm(response) => Submit(s, response)
    case DismissModal => CloseModal(s)
  }

  /** Whether the page offers the action: Send OTP is disabled once the OTP is sent,
      and Verify OTP is shown only at step 1 after the OTP is sent. The submit
      handler guards itself, so submitting is always possible. */
  predicate Enabled(s: Snapshot, a: Action)
  {
    match a
    case PressSendOtp(_) => !s.otpSent
    case PressVerifyOtp(_) => s.step == 1 && s.otpSent
    case _ => true
  }

  /** The state after the actions of t, applied in order from s. */
  function Run(s: Snapshot, t: seq<Action>): Snapshot
  {
    if t == [] then s else Apply(Run(s, t[..|t| - 1]), t[|t| - 1])
  }

  /** Every action of t was offered by the page when it was taken. */
  predicate Allowed(s: Snapshot, t: seq<Action>)
  {
    t == [] || (Allowed(s, t[..|t| - 1]) && Enabled(Run(s, t[..|t| - 1]), t[|t| - 1]))
  }

  /** Whether a verification succeeded after the last successful submission. */
  predicate VerifiedSinceReset(t: seq<Action>)
  {
    if t == [] then false
    else match t[|t| - 1]
      case PressVerifyOtp(Verified) => true
      case SubmitForm(Ok) => false
      case _ => VerifiedSinceReset(t[..|t| - 1])
  }

  /** An enabled action keeps the consistency of the state. */
  lemma ApplyKeepsInv(s: Snapshot, a: Action)
    requires Inv(s) && Enabled(s, a)
    ensures Inv(Apply(s, a))
  {
  }

  /** Every state reached by actions the page offers is consistent. */
  lemma {:induction false} RunKeepsInv(s: Snapshot, t: seq<Action>)
    requires Inv(s) && Allowed(s, t)
    ensures Inv(Run(s, t))
  {
    if t != [] {
      RunKeepsInv(s, t[..|t| - 1]);
      ApplyKeepsInv(Run(s, t[..|t| - 1]), t[|t| - 1]);
    }
  }

  /** Whatever the actions, from the initial state the form is at step 2, and the OTP
      is verified, exactly when a verification succeeded since the last reset. */
  lemma {:induction false} StepTwoIffVerifiedSinceReset(t: seq<Action>)
    ensures Run(Initial, t).step == 2 <==> VerifiedSinceReset(t)
    ensures Run(Initial, t).otpVerified <==> VerifiedSinceReset(t)
    ensures Run(Initial, t).step == 1 || Run(Initial, t).step == 2
  {
    if t != [] {
      StepTwoIffVerifiedSinceReset(t[..|t| - 1]);
    }
  }

  /** Step 2 is left only by a successful submission, and that one resets the form. */
  lemma LeavingStepTwo(s: Snapshot, a: Action)
    requires Inv(s) && s.step == 2 && Apply(s, a).step != 2
    ensures a == SubmitForm(Ok)
    ensures Apply(s, a) == Initial.(isModalOpen := true, modalMessage := SubmittedMessage)
  {
  }

  /** Every handler that can change the form's fields is an edit or a successful submission. */
  lemma FieldsChangeOnlyByEditOrReset(s: Snapshot, a: Action)
    requires Apply(s, a).formData != s.formData
    ensures a.EditField? || (a == SubmitForm(Ok) && s.otpVerified)
  {
  }

  /** Appending one action runs it after the others, and it is allowed exactly when
      the others are and the page offers it in the state they reach. */
  lemma RunSnoc(s: Snapshot, t: seq<Action>, a: Action)
    ensures Run(s, t + [a]) == Apply(Run(s, t), a)
    ensures Allowed(s, t + [a]) <==> Allowed(s, t) && Enabled(Run(s, t), a)
  {
  }

  /** The inputs the page marks `required` at step 2; the browser submits the form
      only when each of them holds text. */
  predicate StepTwoFilled(r: Record)
  {
    r.phone != "" && r.address != "" && r.age != "" && r.department != ""
    && r.designation != "" && r.placeOfWork != ""
  }

  /** Running two sequences one after the other is running their concatenation. */
  lemma {:induction false} RunAppend(s: Snapshot, t1: seq<Action>, t2: seq<Action>)
    ensures Run(s, t1 + t2) == Run(Run(s, t1), t2)
    ensures Allowed(s, t1 + t2) <==> Allowed(s, t1) && Allowed(Run(s, t1), t2)
  {
    if t2 == [] {
      assert t1 + t2 == t1;
    } else {
      var t2' := t2[..|t2| - 1];
      RunAppend(s, t1, t2');
      assert (t1 + t2)[..|t1 + t2| - 1] == t1 + t2';
    }
  }

  /** Step 1 as a user goes through it: name and email, Send OTP, the code, Verify OTP. */
  function StepOneActions(r: Record): seq<Action>
  {
    [EditField(Name, r.name), EditField(Email, r.email), PressSendOtp(Ok), EditField(Code, r.code),
     PressVerifyOtp(Verified)]
  }

  /** Step 2 as a user goes through it: the six text inputs in page order. */
  function StepTwoActions(r: Record): seq<Action>
  {
    [EditField(Phone, r.phone), EditField(Address, r.address), EditField(Age, r.age),
     EditField(Department, r.department), EditField(Designation, r.designation),
     EditField(PlaceOfWork, r.placeOfWork)]
  }

  /** Filling in the whole form. */
  function FillIn(r: Record): seq<Action>
  {
    StepOneActions(r) + StepTwoActions(r)
  }

  /** Step 1 is allowed from the mounted form and ends at step 2 with the step-1 fields typed. */
  lemma StepOnePath(r: Record)
    ensures Allowed(Initial, StepOneActions(r))
    ensures Run(Initial, StepOneActions(r))
      == Snapshot(2, EmptyRecord.(name := r.name, email := r.email, code := r.code), None, None,
                  true, OtpVerifiedMessage, true, true)
  {
    var t := StepOneActions(r);
    assert t[..0] == [];
    assert t[..1] == t[..0] + [t[0]];
    RunSnoc(Initial, t[..0], t[0]);
    assert t[..2] == t[..1] + [t[1]];
    RunSnoc(Initial, t[..1], t[1]);
    assert t[..3] == t[..2] + [t[2]];
    RunSnoc(Initial, t[..2], t[2]);
    assert t[..4] == t[..3] + [t[3]];
    RunSnoc(Initial, t[..3], t[3]);
    assert t[..5] == t[..4] + [t[4]];
    RunSnoc(Initial, t[..4], t[4]);
    assert t[..5] == t;
  }

  /** The record after the edits among the actions of t, in order, starting from d. */
  function Edits(d: Record, t: seq<Action>): Record
  {
    if t == [] then d
    else
      var e := Edits(d, t[..|t| - 1]);
      match t[|t| - 1]
      case EditField(f, v) => e.With(f, v)
      case _ => e
  }

  /** Typing is always possible and touches nothing but the form record. */
  lemma {:induction false} OnlyEdits(s: Snapshot, t: seq<Action>)
    requires forall i :: 0 <= i < |t| ==> t[i].EditField?
    ensures Allowed(s, t)
    ensures Run(s, t) == s.(formData := Edits(s.formData, t))
  {
    if t != [] {
      OnlyEdits(s, t[..|t| - 1]);
    }
  }

  /** The step-2 edits overwrite exactly the six step-2 fields. */
  lemma StepTwoEdits(d: Record, r: Record)
    ensures Edits(d, StepTwoActions(r)) == d.(phone := r.phone, address := r.address, age := r.age,
      department := r.department, designation := r.designation, placeOfWork := r.placeOfWork)
  {
    var t := StepTwoActions(r);
    var e := d;
    assert t[..1][..0] == [];
    e := e.(phone := r.phone);
    assert Edits(d, t[..1]) == e;
    assert t[..2][..1] == t[..1];
    e := e.(address := r.address);
    assert Edits(d, t[..2]) == e;
    assert t[..3][..2] == t[..2];
    e := e.(age := r.age);
    assert Edits(d, t[..3]) == e;
    assert t[..4][..3] == t[..3];
    e := e.(department := r.department);
    assert Edits(d, t[..4]) == e;
    assert t[..5][..4] == t[..4];
    e := e.(designation := r.designation);
    assert Edits(d, t[..5]) == e;
    assert t[..6][..5] == t[..5];
    e := e.(placeOfWork := r.placeOfWork);
    assert Edits(d, t[..6]) == e;
    assert t[..6] == t;
  }

  /** Step 2 is always allowed and changes only the six step-2 fields. */
  lemma StepTwoPath(s: Snapshot, r: Record)
    ensures Allowed(s, StepTwoActions(r))
    ensures Run(s, StepTwoActions(r)) == s.(formData := s.formData.(phone := r.phone, address := r.address,
      age := r.age, department := r.department, designation := r.designation, placeOfWork := r.placeOfWork))
  {
    OnlyEdits(s, StepTwoActions(r));
    StepTwoEdits(s.formData, r);
  }

  /** The whole happy path. Filling in the form is a sequence the page allows; it
      ends at step 2 holding exactly the typed record, with every required step-2
      input filled, so the browser lets the submit through; the successful submit
      then brings the form back to where it started, with the success message shown. */
  lemma HappyPath(r: Record)
    requires StepTwoFilled(r)
    ensures Allowed(Initial, FillIn(r))
    ensures var s := Run(Initial, FillIn(r));
      s.step == 2 && s.otpVerified && s.formData == r && StepTwoFilled(s.formData)
    ensures Allowed(Initial, FillIn(r) + [SubmitForm(Ok)])
    ensures Run(Initial, FillIn(r) + [SubmitForm(Ok)])
      == Initial.(isModalOpen := true, modalMessage := SubmittedMessage)
  {
    StepOnePath(r);
    StepTwoPath(Run(Initial, StepOneActions(r)), r);
    RunAppend(Initial, StepOneActions(r), StepTwoActions(r));
    RunSnoc(Initial, FillIn(r), SubmitForm(Ok));
  }
}
