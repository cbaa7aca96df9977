/** The sign-up page: the form validator, the form state its inputs edit,
    and the submit handler that calls the session store's `signup` only for
    a form that validates. */
module SignUp {
  import opened Domain
  import opened JsText
  import opened Auth

  /** `validateForm`'s answer: `true`, or the message it toasted. */
  datatype Validation = Valid | Invalid(message: string)

  /** The messages of the five checks, in the order they are made. */
  const CheckMessages: seq<string> := [
    "First Name is required",
    "Last Name is required",
    "Email is required",
    "password is required",
    "password should be at least 6 characters"
  ]

  /** Which of the five checks `f` fails, in the same order. Emptiness is
      tested without trimming, and the password length is JavaScript's
      `length`, in UTF-16 code units. */
  function FailedChecks(f: SignUpFormData): (failed: seq<bool>)
    ensures |failed| == |CheckMessages|
  {
    [f.firstName == "", f.lastName == "", f.email == "", f.password == "",
     Utf16Length(f.password) < 6]
  }

  /** `validateForm`: valid exactly when all four fields are non-empty and
      the password is at least six code units long; otherwise the message of
      the FIRST check that fails. */
  function ValidateForm(f: SignUpFormData): (v: Validation)
    ensures v == Valid <==>
      f.firstName != "" && f.lastName != "" && f.email != "" && f.password != ""
      && Utf16Length(f.password) >= 6
    ensures v.Invalid? ==>
      exists i :: 0 <= i < |CheckMessages| && FailedChecks(f)[i] && v.message == CheckMessages[i]
        && forall j :: 0 <= j < i ==> !FailedChecks(f)[j]
  {
    var failed := FailedChecks(f);
    assert CheckMessages[0] == "First Name is required" && CheckMessages[1] == "Last Name is required";
    assert CheckMessages[2] == "Email is required" && CheckMessages[3] == "password is required";
    assert CheckMessages[4] == "password should be at least 6 characters";
    if f.firstName == "" then
      assert failed[0];
      Invalid("First Name is required")
    else if f.lastName == "" then
      assert failed[1] && !failed[0];
      Invalid("Last Name is required")
    else if f.email == "" then
      assert failed[2] && !failed[0] && !failed[1];
      Invalid("Email is required")
    else if f.password == "" then
      assert failed[3] && !failed[0] && !failed[1] && !failed[2];
      Invalid("password is required")
    else if Utf16Length(f.password) < 6 then
      assert failed[4] && !failed[0] && !failed[1] && !failed[2] && !failed[3];
      Invalid("password should be at least 6 characters")
    else Valid
  }

  /** For a password of ordinary (BMP) characters the boundary is six: six
      is accepted and five is rejected with the length message. */
  lemma PasswordLengthBoundary(f: SignUpFormData)
    requires f.firstName != "" && f.lastName != "" && f.email != ""
    requires forall i :: 0 <= i < |f.password| ==> f.password[i] as int <= 0xFFFF
    ensures |f.password| >= 6 <==> ValidateForm(f) == Valid
    ensures |f.password| == 5 ==> ValidateForm(f) == Invalid("password should be at least 6 characters")
  {
    Utf16LengthOfBmp(f.password);
  }

  /** A five-character password passes when one of its characters lies
      outside the BMP, since that character counts twice. */
  lemma AstralPasswordOfFiveCharactersPasses()
    ensures ValidateForm(SignUpFormData("Ada", "Lovelace", "ada@example.com", "abcd\U{1F600}")) == Valid
  {
    var p := "abcd\U{1F600}";
    assert p[1..][1..][1..][1..] == "\U{1F600}";
    assert Utf16Length("\U{1F600}") == 2;
  }

  /** What submitting the form led to (toasts and navigation aside). */
  datatype SubmitOutcome =
    | NotSubmitted(message: string)
    | AccountCreated
    | SignupFailed(reason: string)

  class SignUpPage {
    var formData: SignUpFormData

    /** The page as it mounts: an empty form. */
    constructor ()
      ensures formData == SignUpFormData("", "", "", "")
    {
      formData := SignUpFormData("", "", "", "");
    }

    /** The first-name input's change handler. */
    method SetFirstName(value: string)
      modifies this
      ensures formData == old(formData).(firstName := value)
    {
      formData := formData.(firstName := value);
    }

    /** The last-name input's change handler. */
    method SetLastName(value: string)
      modifies this
      ensures formData == old(formData).(lastName := value)
    {
      formData := formData.(lastName := value);
    }

    /** The email input's change handler. */
    method SetEmail(value: string)
      modifies this
      ensures formData == old(formData).(email := value)
    {
      formData := formData.(email := value);
    }

    /** The password input's change handler. */
    method SetPassword(value: string)
      modifies this
      ensures formData == old(formData).(password := value)
    {
      formData := formData.(password := value);
    }

    /** `handleSubmit`: a form that fails validation issues no request and
        leaves the session store untouched; a valid form is posted as the
        signup body, and a rejected signup is caught. */
    method HandleSubmit(auth: AuthStore, res: Response<User>) returns (outcome: SubmitOutcome, posted: Option<SignUpFormData>)
      modifies auth
      ensures posted == (if ValidateForm(formData) == Valid then Some(formData) else None)
      ensures outcome.NotSubmitted? <==> ValidateForm(formData).Invalid?
      ensures ValidateForm(formData).Invalid? ==>
        outcome == NotSubmitted(ValidateForm(formData).message) && unchanged(auth)
      ensures ValidateForm(formData) == Valid ==>
        auth.SignedUp(res) && outcome == (if res.Ok? then AccountCreated else SignupFailed(res.reason))
    {
      var validation := ValidateForm(formData);
      if validation == Valid {
        var st, body := auth.Signup(formData, res);
        outcome, posted := if st.Resolved? then AccountCreated else SignupFailed(st.reason), Some(body);
      } else {
        outcome, posted := NotSubmitted(validation.message), None;
      }
    }
  }
}
