// The sign-up form (client/src/pages/Register.tsx): five text fields that
// `handleChange` updates one at a time, and `handleRegister`, which runs
// three checks in order, stops at the first that fails with its message, and
// otherwise sends the account details (without the confirmation) to the
// server's registration endpoint.
module Registration {
  import opened Wrappers

  /** The inputs of the form, each named after the field it edits. */
  datatype Field = Username | Name | Email | Password | ConfirmPassword

  datatype FormData = FormData(
    username: string, name: string, email: string, password: string, confirmPassword: string)
  {
    function Get(f: Field): string {
      match f
      case Username => username
      case Name => name
      case Email => email
      case Password => password
      case ConfirmPassword => confirmPassword
    }

    /** `{ ...prev, [name]: value }`: the named field takes the value, the others keep theirs. */
    function With(f: Field, value: string): (d: FormData)
      ensures d.Get(f) == value
      ensures forall g :: g != f ==> d.Get(g) == Get(g)
    {
      match f
      case Username => this.(username := value)
      case Name => this.(name := value)
      case Email => this.(email := value)
      case Password => this.(password := value)
      case ConfirmPassword => this.(confirmPassword := value)
    }
  }

  const EmptyForm := FormData("", "", "", "", "")

  /** Typing a field's own value back changes nothing; a second edit of a field overrides the first. */
  lemma WithLaws(d: FormData, f: Field, v: string, w: string)
    ensures d.With(f, d.Get(f)) == d
    ensures d.With(f, v).With(f, w) == d.With(f, w)
  {
    match f
    case Username =>
    case Name =>
    case Email =>
    case Password =>
    case ConfirmPassword =>
  }

  /** Edits of two different fields commute. */
  lemma WithCommutes(d: FormData, f: Field, v: string, g: Field, w: string)
    requires f != g
    ensures d.With(f, v).With(g, w) == d.With(g, w).With(f, v)
  {
    var a := d.With(f, v).With(g, w);
    var b := d.With(g, w).With(f, v);
    assert forall h :: a.Get(h) == b.Get(h);
    assert a.username == b.username by { assert a.Get(Username) == b.Get(Username); }
    assert a.name == b.name by { assert a.Get(Name) == b.Get(Name); }
    assert a.email == b.email by { assert a.Get(Email) == b.Get(Email); }
    assert a.password == b.password by { assert a.Get(Password) == b.Get(Password); }
    assert a.confirmPassword == b.confirmPassword by { assert a.Get(ConfirmPassword) == b.Get(ConfirmPassword); }
  }

  /** The body of the registration request: confirmPassword is not part of it. */
  datatype RegisterRequest = RegisterRequest(username: string, name: string, email: string, password: string)

  /** Why the form refuses to send, in the order the checks run. */
  datatype Rejection = AllFieldsRequired | PasswordsDoNotMatch | PasswordTooShort
  {
    function Message(): string {
      match this
      case AllFieldsRequired => "All fields are required"
      case PasswordsDoNotMatch => "Passwords do not match"
      case PasswordTooShort => "Password must be at least 6 characters long"
    }
  }

  const MinPasswordLength := 6

  /** Some field the server needs (confirmPassword is not one) is empty. */
  predicate MissingField(d: FormData) {
    d.username == "" || d.password == "" || d.name == "" || d.email == ""
  }

  /** The checks of `handleRegister`: the first failing one decides; if none fails, the request to send. */
  function Validate(d: FormData): (r: Result<RegisterRequest, Rejection>)
    ensures r == Err(AllFieldsRequired) <==> MissingField(d)
    ensures r == Err(PasswordsDoNotMatch) <==> !MissingField(d) && d.password != d.confirmPassword
    ensures r == Err(PasswordTooShort) <==>
              !MissingField(d) && d.password == d.confirmPassword && |d.password| < MinPasswordLength
    ensures r.Ok? <==>
              !MissingField(d) && d.password == d.confirmPassword && |d.password| >= MinPasswordLength
    ensures r.Ok? ==> r.value == RegisterRequest(d.username, d.name, d.email, d.password)
  {
    if MissingField(d) then Err(AllFieldsRequired)
    else if d.password != d.confirmPassword then Err(PasswordsDoNotMatch)
    else if |d.password| < MinPasswordLength then Err(PasswordTooShort)
    else Ok(RegisterRequest(d.username, d.name, d.email, d.password))
  }

  /** A form that passes sends its four account fields unchanged, however it was filled in. */
  lemma ValidatedFormRoundTrip(r: RegisterRequest)
    requires r.username != "" && r.name != "" && r.email != "" && |r.password| >= MinPasswordLength
    ensures Validate(FormData(r.username, r.name, r.email, r.password, r.password)) == Ok(r)
  {
  }

  /** The outcome shown to the user. */
  datatype Notice =
    | Rejected(reason: Rejection)          // a check failed; nothing was sent
    | Registered                           // the account was created; the login page follows
    | RegistrationFailed(message: string)  // the server refused or the request failed

  /** The message of a refused registration: the server's message, or a generic one when it has none. */
  function FailureMessage(serverMessage: string): (m: string)
    ensures m != ""
    ensures serverMessage != "" ==> m == serverMessage
  {
    if serverMessage != "" then serverMessage else "Registration failed"
  }

  class RegisterForm {
    var formData: FormData
    var isLoading: bool

    constructor ()
      ensures formData == EmptyForm && !isLoading
    {
      formData := EmptyForm;
      isLoading := false;
    }

    /** `handleChange`: the input named `field` now holds `value`. */
    method HandleChange(field: Field, value: string)
      modifies this`formData
      ensures formData == old(formData).With(field, value)
    {
      formData := formData.With(field, value);
    }

    /**
     * `handleRegister`. `server` is the registration endpoint: None when
     * it accepts the request, or the message of its error reply ("" when it
     * has none). A request goes out only when every check passes; the form
     * is idle again afterwards.
     */
    method HandleRegister(server: RegisterRequest -> Option<string>) returns (sent: Option<RegisterRequest>, notice: Notice)
      modifies this`isLoading
      ensures Validate(formData).Err? ==>
                sent.None? && notice == Rejected(Validate(formData).error) && isLoading == old(isLoading)
      ensures Validate(formData).Ok? ==> sent == Some(Validate(formData).value) && !isLoading
      ensures sent.Some? && server(sent.value).None? ==> notice == Registered
      ensures sent.Some? && server(sent.value).Some? ==>
                notice == RegistrationFailed(FailureMessage(server(sent.value).value))
    {
      var checked := Validate(formData);
      if checked.Err? {
        return None, Rejected(checked.error);
      }
      isLoading := true;
      sent := Some(checked.value);
      var reply := server(checked.value);
      if reply.None? {
        notice := Registered;
      } else {
        notice := RegistrationFailed(FailureMessage(reply.value));
      }
      isLoading := false;
    }
  }
}
