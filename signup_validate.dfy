/** The sign-up form's validator: an error message per field, and no error
    record at all when both fields are acceptable. */
module SignupValidate {
  import opened Common

  /** `{ email?: string; password?: string }` */
  datatype SignupErrors = SignupErrors(email: Option<string>, password: Option<string>)

  const EmailRequired := "Email is required."
  const EmailInvalid := "Please enter a valid email address."
  const PasswordRequired := "Password is required."
  const PasswordTooShort := "Password must be 8 characters or more."

  /** The minimum password length. */
  const MinPasswordLength := 8

  /** The message for the email field, which depends on the email alone: none
      exactly when it contains an "@". */
  function EmailError(email: string): (r: Option<string>)
    ensures r.None? <==> Contains(email, "@")
    ensures r.Some? ==> r.value == (if email == "" then EmailRequired else EmailInvalid)
  {
    if email == "" then Some(EmailRequired)
    else if !Contains(email, "@") then Some(EmailInvalid)
    else None
  }

  /** The message for the password field, which depends on the password
      alone: none exactly when it has at least 8 UTF-16 code units. */
  function PasswordError(password: string): (r: Option<string>)
    ensures r.None? <==> Utf16Length(password) >= MinPasswordLength
    ensures r.Some? ==> r.value == (if password == "" then PasswordRequired else PasswordTooShort)
  {
    if password == "" then Some(PasswordRequired)
    else if Utf16Length(password) < MinPasswordLength then Some(PasswordTooShort)
    else None
  }

  /** `Object.keys(errors).length` */
  function KeyCount(errors: SignupErrors): (n: nat)
    ensures n == 0 <==> errors.email.None? && errors.password.None?
  {
    (if errors.email.Some? then 1 else 0) + (if errors.password.Some? then 1 else 0)
  }

  /** `validate(email, password)`: fills in the message of each failing
      field and returns the record only when it has a key. */
  method Validate(email: string, password: string) returns (r: Option<SignupErrors>)
    ensures r.None? <==> Contains(email, "@") && Utf16Length(password) >= MinPasswordLength
    ensures r.Some? ==> r.value == SignupErrors(EmailError(email), PasswordError(password))
    ensures r.Some? ==> r.value.email.Some? || r.value.password.Some?
  {
    var errors := SignupErrors(None, None);

    if email == "" {
      errors := errors.(email := Some(EmailRequired));
    } else if !Contains(email, "@") {
      errors := errors.(email := Some(EmailInvalid));
    }

    if password == "" {
      errors := errors.(password := Some(PasswordRequired));
    } else if Utf16Length(password) < MinPasswordLength {
      errors := errors.(password := Some(PasswordTooShort));
    }

    assert errors == SignupErrors(EmailError(email), PasswordError(password));
    if KeyCount(errors) > 0 {
      r := Some(errors);
    } else {
      r := None;
    }
  }

  /** Each message, with the input that produces it. */
  lemma Messages(email: string, password: string)
    ensures email == "" ==> EmailError(email) == Some(EmailRequired)
    ensures email != "" && !Contains(email, "@") ==> EmailError(email) == Some(EmailInvalid)
    ensures password == "" ==> PasswordError(password) == Some(PasswordRequired)
    ensures 0 < Utf16Length(password) < MinPasswordLength ==> PasswordError(password) == Some(PasswordTooShort)
  {
  }

  /** Concrete inputs: a well-formed pair passes, a bare name and a short
      password get one message each. */
  lemma Examples()
    ensures EmailError("a@b") == None
    ensures EmailError("ab") == Some(EmailInvalid)
    ensures PasswordError("secret") == Some(PasswordTooShort)
    ensures PasswordError("password") == None
  {
    assert IsPrefix("@", "a@b"[1..]);
    ContainsAt("a@b", "@", 1);
    NotContainsChar("ab", '@');
  }

  /** `length` counts code units: four characters outside the Basic
      Multilingual Plane already make a long enough password, while seven
      ordinary ones do not. */
  lemma AstralPassword()
    ensures PasswordError("\U{1F600}\U{1F600}\U{1F600}\U{1F600}") == None
    ensures PasswordError("1234567") == Some(PasswordTooShort)
  {
  }
}
