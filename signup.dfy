/** The sign-up form (frontend/src/components/SignupPage.jsx): the password
    policy, the order of the checks made on submit, the request that follows
    them and the clearing of the error on every edit. The network call is a
    parameter: its answer is given to `Submit`. */
module Signup {
  import opened Wrappers

  // ---------------------------------------------------------------------
  // Password policy (`validatePassword`)
  // ---------------------------------------------------------------------

  const MinPasswordLength: nat := 8

  /** `/[lo-hi]/.test(s)` */
  predicate HasCharIn(s: string, lo: char, hi: char)
  {
    exists i :: 0 <= i < |s| && lo <= s[i] <= hi
  }

  datatype PasswordStrength = PasswordStrength(
    minLength: bool, hasUpper: bool, hasLower: bool, hasNumber: bool, isValid: bool)

  function ValidatePassword(password: string): (r: PasswordStrength)
    ensures r.isValid <==> r.minLength && r.hasUpper && r.hasLower && r.hasNumber
    ensures r.minLength <==> |password| >= MinPasswordLength
    ensures r.hasUpper <==> exists i :: 0 <= i < |password| && 'A' <= password[i] <= 'Z'
    ensures r.hasLower <==> exists i :: 0 <= i < |password| && 'a' <= password[i] <= 'z'
    ensures r.hasNumber <==> exists i :: 0 <= i < |password| && '0' <= password[i] <= '9'
  {
    var minLength := |password| >= MinPasswordLength;
    var hasUpper := HasCharIn(password, 'A', 'Z');
    var hasLower := HasCharIn(password, 'a', 'z');
    var hasNumber := HasCharIn(password, '0', '9');
    PasswordStrength(minLength, hasUpper, hasLower, hasNumber,
      minLength && hasUpper && hasLower && hasNumber)
  }

  /** A character class present in a string is present in any extension. */
  lemma HasCharInExtended(s: string, before: string, after: string, lo: char, hi: char)
    requires HasCharIn(s, lo, hi)
    ensures HasCharIn(before + s + after, lo, hi)
  {
    var i :| 0 <= i < |s| && lo <= s[i] <= hi;
    assert (before + s + after)[|before| + i] == s[i];
  }

  /** Typing more characters before or after an acceptable password keeps
      it acceptable. */
  lemma StrongPasswordExtends(password: string, before: string, after: string)
    requires ValidatePassword(password).isValid
    ensures ValidatePassword(before + password + after).isValid
  {
    HasCharInExtended(password, before, after, 'A', 'Z');
    HasCharInExtended(password, before, after, 'a', 'z');
    HasCharInExtended(password, before, after, '0', '9');
  }

  /** A witness that the policy can be met: a password with all four
      classes passes. */
  lemma StrongPasswordExample()
    ensures ValidatePassword("Passw0rd").isValid
  {
    assert "Passw0rd"[0] == 'P' && "Passw0rd"[1] == 'a' && "Passw0rd"[5] == '0';
  }

  /** Each missing requirement on its own makes a password weak. */
  lemma MissingUpperIsWeak(password: string)
    requires forall i :: 0 <= i < |password| ==> !('A' <= password[i] <= 'Z')
    ensures !ValidatePassword(password).isValid
  {
  }

  lemma MissingLowerIsWeak(password: string)
    requires forall i :: 0 <= i < |password| ==> !('a' <= password[i] <= 'z')
    ensures !ValidatePassword(password).isValid
  {
  }

  lemma MissingDigitIsWeak(password: string)
    requires forall i :: 0 <= i < |password| ==> !('0' <= password[i] <= '9')
    ensures !ValidatePassword(password).isValid
  {
  }

  lemma ShortIsWeak(password: string)
    requires |password| < MinPasswordLength
    ensures !ValidatePassword(password).isValid
  {
  }

  // ---------------------------------------------------------------------
  // Submit checks (`handleSubmit`)
  // ---------------------------------------------------------------------

  const FillAllFields := "Please fill in all fields"
  const PasswordsDiffer := "Passwords do not match"
  const WeakPassword := "Password does not meet requirements"
  const SignupFailed := "Failed to create account."

  /** The message of the first failing check, or `None` when the request
      may be sent. */
  function SubmitError(name: string, email: string, password: string, confirmPassword: string): (r: Option<string>)
    ensures r.Some? ==> r.value == FillAllFields || r.value == PasswordsDiffer || r.value == WeakPassword
    ensures r == Some(PasswordsDiffer) <==>
      name != "" && email != "" && password != "" && confirmPassword != "" && password != confirmPassword
    ensures r == Some(WeakPassword) <==>
      name != "" && email != "" && password != "" && password == confirmPassword && !ValidatePassword(password).isValid
  {
    if name == "" || email == "" || password == "" || confirmPassword == "" then Some(FillAllFields)
    else if password != confirmPassword then Some(PasswordsDiffer)
    else if !ValidatePassword(password).isValid then Some(WeakPassword)
    else None
  }

  /** The request goes out exactly when the name and e-mail are filled in,
      the two passwords agree and the password meets the policy. */
  lemma SubmitAcceptsExactly(name: string, email: string, password: string, confirmPassword: string)
    ensures SubmitError(name, email, password, confirmPassword).None? <==>
      name != "" && email != "" && password == confirmPassword && ValidatePassword(password).isValid
  {
  }

  /** The checks come in a fixed order: an empty field is reported before a
      mismatch, and a mismatch before a weak password. */
  lemma SubmitCheckOrder(name: string, email: string, password: string, confirmPassword: string)
    ensures (name == "" || email == "" || password == "" || confirmPassword == "") ==>
      SubmitError(name, email, password, confirmPassword) == Some(FillAllFields)
    ensures name != "" && email != "" && password != "" && confirmPassword != "" && password != confirmPassword ==>
      SubmitError(name, email, password, confirmPassword) == Some(PasswordsDiffer)
  {
  }

  // ---------------------------------------------------------------------
  // The form
  // ---------------------------------------------------------------------

  datatype Field = Name | Email | Password | ConfirmPassword

  /** The body handed to `apiService.signupRequest`. */
  datatype SignupRequest = SignupRequest(name: string, email: string, password: string)

  /** The user record of a successful answer (`full_name` and `role` may be
      empty). */
  datatype RegisteredUser = RegisteredUser(email: string, fullName: string, role: string)

  /** The answer of the sign-up call: the (optional) user it returns, or
      the message of the error it throws. */
  datatype SignupResponse = Registered(user: Option<RegisteredUser>) | Failed(message: string)

  /** What `onSignup` is told. */
  datatype SignedUp = SignedUp(email: string, name: string, role: string)

  /** `err?.message || 'Failed to create account.'` */
  function FailureMessage(message: string): (r: string)
    ensures r != ""
    ensures message != "" ==> r == message
  {
    if message != "" then message else SignupFailed
  }

  /** `{ email, name: full_name || formData.name, role: role || 'User' }` */
  function Notification(user: RegisteredUser, formName: string): (n: SignedUp)
    ensures n.email == user.email
    ensures n.name == (if user.fullName != "" then user.fullName else formName)
    ensures n.role != "" && (user.role != "" ==> n.role == user.role)
  {
    SignedUp(user.email, if user.fullName != "" then user.fullName else formName,
             if user.role != "" then user.role else "User")
  }

  class SignupForm {
    var name: string
    var email: string
    var password: string
    var confirmPassword: string
    var error: string
    var loading: bool
    /** Every request sent, oldest first. */
    var sent: seq<SignupRequest>
    /** The last `onSignup` notification, if any. */
    var notified: Option<SignedUp>
    /** The route navigated to, if any. */
    var location: Option<string>

    constructor ()
      ensures name == "" && email == "" && password == "" && confirmPassword == ""
      ensures error == "" && !loading && sent == [] && notified.None? && location.None?
    {
      name, email, password, confirmPassword := "", "", "", "";
      error := "";
      loading := false;
      sent := [];
      notified := None;
      location := None;
    }

    /** `handleChange(field, value)`: the field takes the value and the
        error is cleared. */
    method Change(field: Field, value: string)
      modifies this
      ensures error == ""
      ensures name == (if field == Name then value else old(name))
      ensures email == (if field == Email then value else old(email))
      ensures password == (if field == Password then value else old(password))
      ensures confirmPassword == (if field == ConfirmPassword then value else old(confirmPassword))
      ensures loading == old(loading) && sent == old(sent)
      ensures notified == old(notified) && location == old(location)
    {
      match field {
        case Name => name := value;
        case Email => email := value;
        case Password => password := value;
        case ConfirmPassword => confirmPassword := value;
      }
      error := "";
    }

    /** `handleSubmit`: the checks in order; when they pass, the request is
        sent and `response` is its answer. */
    method Submit(response: SignupResponse, hasOnSignup: bool)
      modifies this
      ensures name == old(name) && email == old(email)
      ensures password == old(password) && confirmPassword == old(confirmPassword)
      ensures SubmitError(name, email, password, confirmPassword).Some? ==>
        error == SubmitError(name, email, password, confirmPassword).value
        && loading == old(loading) && sent == old(sent)
        && notified == old(notified) && location == old(location)
      ensures SubmitError(name, email, password, confirmPassword).None? ==>
        sent == old(sent) + [SignupRequest(name, email, password)] && !loading
      ensures SubmitError(name, email, password, confirmPassword).None? && response.Failed? ==>
        error == FailureMessage(response.message) && notified == old(notified) && location == old(location)
      ensures SubmitError(name, email, password, confirmPassword).None? && response.Registered? ==>
        error == "" && location == Some("/dashboard")
        && notified == (if hasOnSignup && response.user.Some?
                        then Some(Notification(response.user.value, name)) else old(notified))
    {
      error := "";
      if name == "" || email == "" || password == "" || confirmPassword == "" {
        error := FillAllFields;
        return;
      }
      if password != confirmPassword {
        error := PasswordsDiffer;
        return;
      }
      if !ValidatePassword(password).isValid {
        error := WeakPassword;
        return;
      }
      loading := true;
      sent := sent + [SignupRequest(name, email, password)];
      match response {
        case Registered(user) =>
          if hasOnSignup && user.Some? {
            notified := Some(Notification(user.value, name));
          }
          location := Some("/dashboard");
        case Failed(message) =>
          error := FailureMessage(message);
      }
      loading := false;
    }
  }
}
