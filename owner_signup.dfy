/** The owner signup page: its three checks before any request, the request body, and what
    the page does with the answer. */
module OwnerSignup {
  import opened Wrappers
  import opened Text

  datatype SignupForm = SignupForm(name: string, email: string, password: string, confirmPassword: string, location: string)

  /** The body posted to `/owner/signup`; it has no room for the confirmation. */
  datatype SignupRequest = SignupRequest(name: string, email: string, password: string, location: string)

  /** How the request ends: an answer with its `success` and `message`, or a thrown error
      carrying the server's `message`, if any. */
  datatype Outcome = Answered(success: bool, message: Option<string>) | Thrown(message: Option<string>)

  /** The alerts of the page. */
  const PasswordsDiffer := "Passwords do not match!"
  const PasswordTooShort := "Password must be at least 6 characters long."
  const LocationRequired := "Location is required."
  const SignupSucceeded := "Signup successful! Please login."
  const SignupFailed := "Signup failed. Please try again."
  const SignupError := "Error during signup. Email may already be in use."

  /** The alert the checks stop at, in order: passwords differ, password under 6 characters,
      blank location; None when all pass. */
  function SignupCheck(form: SignupForm): (r: Option<string>)
    ensures form.password != form.confirmPassword ==> r == Some(PasswordsDiffer)
    ensures form.password == form.confirmPassword && |form.password| < 6 ==>
      r == Some(PasswordTooShort)
  {
    if form.password != form.confirmPassword then Some(PasswordsDiffer)
    else if |form.password| < 6 then Some(PasswordTooShort)
    else if Trim(form.location) == "" then Some(LocationRequired)
    else None
  }

  /** The location check refuses exactly a location of whitespace only, so the form passes
      exactly when the passwords agree, have at least six characters, and the location has a
      character that is not whitespace. */
  lemma SignupCheckMeaning(form: SignupForm)
    ensures form.password == form.confirmPassword && |form.password| >= 6
            && (forall i :: 0 <= i < |form.location| ==> IsJsWhitespace(form.location[i])) ==>
      SignupCheck(form) == Some(LocationRequired)
    ensures SignupCheck(form).None? <==>
      form.password == form.confirmPassword && |form.password| >= 6
      && exists i :: 0 <= i < |form.location| && !IsJsWhitespace(form.location[i])
  {
  }

  /** `message || fallback`. */
  function MessageOr(message: Option<string>, fallback: string): string {
    if Truthy(message) then message.value else fallback
  }

  /** The alert after the request: the success text, else the server's message, else a
      fixed text for a refused answer or for a thrown error. */
  function OutcomeAlert(outcome: Outcome): (r: string)
    ensures outcome.Answered? && outcome.success ==> r == SignupSucceeded
    ensures outcome.Answered? && !outcome.success && !Truthy(outcome.message) ==> r == SignupFailed
    ensures outcome.Thrown? && !Truthy(outcome.message) ==> r == SignupError
    ensures !(outcome.Answered? && outcome.success) && Truthy(outcome.message) ==> r == outcome.message.value
  {
    match outcome
    case Answered(success, message) =>
      if success then SignupSucceeded else MessageOr(message, SignupFailed)
    case Thrown(message) => MessageOr(message, SignupError)
  }

  class SignupPage {
    var form: SignupForm
    var loading: bool
    var route: string

    constructor (route: string)
      ensures form == SignupForm("", "", "", "", "") && !loading && this.route == route
    {
      form, loading, this.route := SignupForm("", "", "", "", ""), false, route;
    }

    /** `handleSignup`: a failed check raises its alert and sends nothing; otherwise the body
        carries exactly name, email, password and location, and only an answer with
        `success` goes to the owner login page. */
    method HandleSignup(outcome: Outcome) returns (sent: Option<SignupRequest>, alert: string)
      modifies this
      ensures form == old(form)
      ensures SignupCheck(old(form)).Some? ==>
        sent.None? && alert == SignupCheck(old(form)).value && loading == old(loading) && route == old(route)
      ensures SignupCheck(old(form)).None? ==>
        && sent == Some(SignupRequest(form.name, form.email, form.password, form.location))
        && !loading
        && (route == if outcome.Answered? && outcome.success then "/owner/login" else old(route))
      ensures SignupCheck(old(form)).None? ==> alert == OutcomeAlert(outcome)
    {
      var refusal := SignupCheck(form);
      if refusal.Some? {
        return None, refusal.value;
      }
      loading := true;
      sent := Some(SignupRequest(form.name, form.email, form.password, form.location));
      alert := OutcomeAlert(outcome);
      if outcome.Answered? && outcome.success {
        route := "/owner/login";
      }
      loading := false;
    }
  }

  /** The first failing check decides: mismatched passwords win over a short password and a
      blank location; a six-character password passes the length check, five does not. */
  lemma CheckOrderExamples()
    ensures SignupCheck(SignupForm("A", "a@b.co", "abc", "abd", " ")) == Some(PasswordsDiffer)
    ensures SignupCheck(SignupForm("A", "a@b.co", "abcde", "abcde", " ")) == Some(PasswordTooShort)
    ensures SignupCheck(SignupForm("A", "a@b.co", "abcdef", "abcdef", " \t")) == Some(LocationRequired)
    ensures SignupCheck(SignupForm("A", "a@b.co", "abcdef", "abcdef", " Austin ")) == None
  {
    assert " \t"[0] == ' ' && " \t"[1] == '\t';
    assert !IsJsWhitespace(" Austin "[1]);
  }
}
