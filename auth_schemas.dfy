/**
 * The login and sign-up form rules of src/components/auth/AuthForm.tsx, as a
 * function from the form's fields to the list of (field, message) issues the
 * schema reports, in the order the schema declares its checks.
 *
 * Form inputs are always strings. Each field's checks all run, and the
 * "passwords match" refinement of the sign-up schema runs as well, whatever
 * the field checks found. Whether a text is an e-mail address is decided by
 * the validation library and is a parameter here.
 */
module AuthSchemas {
  import opened Wrappers

  datatype Field = Email | Password | DisplayName | ConfirmPassword

  /** The issues the schemas can report; `Text` gives the message shown. */
  datatype Message = InvalidEmail | PasswordTooShort | DisplayNameTooShort | DisplayNameTooLong | PasswordsDiffer {
    function Text(): string {
      match this
      case InvalidEmail => "Invalid email address"
      case PasswordTooShort => "Password must be at least 6 characters"
      case DisplayNameTooShort => "Display name must be at least 3 characters"
      case DisplayNameTooLong => "Display name must be at most 30 characters"
      case PasswordsDiffer => "Passwords don't match"
    }
  }

  datatype FieldError = FieldError(field: Field, message: Message)

  datatype LoginInput = LoginInput(email: string, password: string)

  datatype SignupInput = SignupInput(displayName: string, email: string, password: string, confirmPassword: string)

  const MinPasswordLength: nat := 6
  const MinDisplayNameLength: nat := 3
  const MaxDisplayNameLength: nat := 30

  /** One check: no issue when it passes, else one issue on `field`. */
  function Check(ok: bool, field: Field, message: Message): seq<FieldError> {
    if ok then [] else [FieldError(field, message)]
  }

  /** `loginSchema`: a valid e-mail and a password of at least 6 characters. */
  function LoginErrors(input: LoginInput, isEmail: string -> bool): (errors: seq<FieldError>)
    ensures errors == [] <==> isEmail(input.email) && |input.password| >= MinPasswordLength
    ensures FieldError(Email, InvalidEmail) in errors <==> !isEmail(input.email)
    ensures FieldError(Password, PasswordTooShort) in errors <==> |input.password| < MinPasswordLength
    ensures forall e <- errors :: e == FieldError(Email, InvalidEmail) || e == FieldError(Password, PasswordTooShort)
  {
    Check(isEmail(input.email), Email, InvalidEmail)
    + Check(|input.password| >= MinPasswordLength, Password, PasswordTooShort)
  }

  /**
   * `signupSchema`: a display name of 3 to 30 characters, a valid e-mail, two
   * passwords of at least 6 characters each, and the two passwords equal, the
   * last reported on the confirmation field.
   */
  function SignupErrors(input: SignupInput, isEmail: string -> bool): (errors: seq<FieldError>)
    ensures errors == [] <==>
              && MinDisplayNameLength <= |input.displayName| <= MaxDisplayNameLength
              && isEmail(input.email)
              && |input.password| >= MinPasswordLength
              && |input.confirmPassword| >= MinPasswordLength
              && input.password == input.confirmPassword
    ensures FieldError(ConfirmPassword, PasswordsDiffer) in errors <==> input.password != input.confirmPassword
    ensures forall e <- errors :: e.message == PasswordsDiffer ==> e.field == ConfirmPassword
  {
    Check(|input.displayName| >= MinDisplayNameLength, DisplayName, DisplayNameTooShort)
    + Check(|input.displayName| <= MaxDisplayNameLength, DisplayName, DisplayNameTooLong)
    + Check(isEmail(input.email), Email, InvalidEmail)
    + Check(|input.password| >= MinPasswordLength, Password, PasswordTooShort)
    + Check(|input.confirmPassword| >= MinPasswordLength, ConfirmPassword, PasswordTooShort)
    + Check(input.password == input.confirmPassword, ConfirmPassword, PasswordsDiffer)
  }

  /**
   * The message the form's resolver reports under `field`: that of the first
   * issue on it, if any.
   */
  function ShownMessage(errors: seq<FieldError>, field: Field): (m: Option<Message>)
    ensures m.None? <==> forall k :: 0 <= k < |errors| ==> errors[k].field != field
    ensures m.Some? ==> exists k :: 0 <= k < |errors| && errors[k] == FieldError(field, m.value) &&
                                    forall j :: 0 <= j < k ==> errors[j].field != field
  {
    if errors == [] then None
    else if errors[0].field == field then Some(errors[0].message)
    else
      var m := ShownMessage(errors[1..], field);
      assert forall k :: 1 <= k < |errors| ==> errors[k] == errors[1..][k - 1];
      assert m.Some? ==> (exists k :: 0 < k < |errors| && errors[k] == FieldError(field, m.value) &&
                                      forall j :: 0 <= j < k ==> errors[j].field != field) by {
        if m.Some? {
          var k :| 0 <= k < |errors[1..]| && errors[1..][k] == FieldError(field, m.value) &&
                   forall j :: 0 <= j < k ==> errors[1..][j].field != field;
          assert errors[k + 1] == errors[1..][k];
        }
      }
      m
  }

  /** The first of two optional messages that is present. */
  function FirstOf(m: Option<Message>, n: Option<Message>): Option<Message> {
    if m.Some? then m else n
  }

  /** The message shown under `field` is that of the first of the sign-up checks on it that fails. */
  lemma SignupShownByCheck(input: SignupInput, isEmail: string -> bool, field: Field)
    ensures ShownMessage(SignupErrors(input, isEmail), field) ==
      var c1 := Check(|input.displayName| >= MinDisplayNameLength, DisplayName, DisplayNameTooShort);
      var c2 := Check(|input.displayName| <= MaxDisplayNameLength, DisplayName, DisplayNameTooLong);
      var c3 := Check(isEmail(input.email), Email, InvalidEmail);
      var c4 := Check(|input.password| >= MinPasswordLength, Password, PasswordTooShort);
      var c5 := Check(|input.confirmPassword| >= MinPasswordLength, ConfirmPassword, PasswordTooShort);
      var c6 := Check(input.password == input.confirmPassword, ConfirmPassword, PasswordsDiffer);
      FirstOf(FirstOf(FirstOf(FirstOf(FirstOf(ShownMessage(c1, field), ShownMessage(c2, field)),
        ShownMessage(c3, field)), ShownMessage(c4, field)), ShownMessage(c5, field)), ShownMessage(c6, field))
  {
    var c1 := Check(|input.displayName| >= MinDisplayNameLength, DisplayName, DisplayNameTooShort);
    var c2 := Check(|input.displayName| <= MaxDisplayNameLength, DisplayName, DisplayNameTooLong);
    var c3 := Check(isEmail(input.email), Email, InvalidEmail);
    var c4 := Check(|input.password| >= MinPasswordLength, Password, PasswordTooShort);
    var c5 := Check(|input.confirmPassword| >= MinPasswordLength, ConfirmPassword, PasswordTooShort);
    var c6 := Check(input.password == input.confirmPassword, ConfirmPassword, PasswordsDiffer);
    ShownMessageAppend(c1, c2, field);
    ShownMessageAppend(c1 + c2, c3, field);
    ShownMessageAppend(c1 + c2 + c3, c4, field);
    ShownMessageAppend(c1 + c2 + c3 + c4, c5, field);
    ShownMessageAppend(c1 + c2 + c3 + c4 + c5, c6, field);
  }

  /** Under the display name: too short, else too long, else nothing. */
  lemma DisplayNameMessage(input: SignupInput, isEmail: string -> bool)
    ensures ShownMessage(SignupErrors(input, isEmail), DisplayName) ==
              if |input.displayName| < MinDisplayNameLength then Some(DisplayNameTooShort)
              else if |input.displayName| > MaxDisplayNameLength then Some(DisplayNameTooLong)
              else None
  {
    SignupShownByCheck(input, isEmail, DisplayName);
  }

  /** Under the e-mail: the address message exactly when the address check fails. */
  lemma SignupEmailMessage(input: SignupInput, isEmail: string -> bool)
    ensures ShownMessage(SignupErrors(input, isEmail), Email) ==
              if isEmail(input.email) then None else Some(InvalidEmail)
  {
    SignupShownByCheck(input, isEmail, Email);
  }

  /** Under the password: only its length message, never the mismatch. */
  lemma SignupPasswordMessage(input: SignupInput, isEmail: string -> bool)
    ensures ShownMessage(SignupErrors(input, isEmail), Password) ==
              if |input.password| < MinPasswordLength then Some(PasswordTooShort) else None
  {
    SignupShownByCheck(input, isEmail, Password);
  }

  /**
   * Under the confirmation: its length message when too short, else "Passwords
   * don't match" when the two differ, whatever the other fields hold.
   */
  lemma ConfirmPasswordMessage(input: SignupInput, isEmail: string -> bool)
    ensures ShownMessage(SignupErrors(input, isEmail), ConfirmPassword) ==
              if |input.confirmPassword| < MinPasswordLength then Some(PasswordTooShort)
              else if input.password != input.confirmPassword then Some(PasswordsDiffer)
              else None
  {
    SignupShownByCheck(input, isEmail, ConfirmPassword);
  }

  /** The first issue on `field` in `a + b` is the first in `a`, or else the first in `b`. */
  lemma {:induction false} ShownMessageAppend(a: seq<FieldError>, b: seq<FieldError>, field: Field)
    ensures ShownMessage(a + b, field) ==
              if ShownMessage(a, field).Some? then ShownMessage(a, field) else ShownMessage(b, field)
  {
    if a == [] {
      assert a + b == b;
    } else {
      assert (a + b)[0] == a[0];
      assert (a + b)[1..] == a[1..] + b;
      ShownMessageAppend(a[1..], b, field);
    }
  }

}
