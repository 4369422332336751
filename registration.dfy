/** The registration form (`NewUser`): the chain of checks run on submit,
    where the first failing check decides the one error shown, and what the
    form does with the server's answer. */
module Registration {
  import opened Wrappers
  import opened Strings
  import opened EmailFormat
  import Auth

  datatype UserData = UserData(username: string, email: string, password: string, passwordConfirmation: string)

  /** The checks of `handleSubmit`, in the order they run. */
  datatype RegistrationError =
    | MissingData
    | UsernameTooShort
    | UsernameChars
    | BadEmail
    | PasswordTooShort
    | PasswordSpaces
    | PasswordMismatch

  /** Position of a check in the chain. */
  function Rank(e: RegistrationError): nat {
    match e
    case MissingData => 0
    case UsernameTooShort => 1
    case UsernameChars => 2
    case BadEmail => 3
    case PasswordTooShort => 4
    case PasswordSpaces => 5
    case PasswordMismatch => 6
  }

  /** Whether the data fails one check, taken on its own. The e-mail is not
      part of the presence check. */
  predicate Fails(u: UserData, e: RegistrationError) {
    match e
    case MissingData => u.username == "" || u.password == "" || u.passwordConfirmation == ""
    case UsernameTooShort => |u.username| < 5
    case UsernameChars => exists i :: 0 <= i < |u.username| && !IsWordChar(u.username[i])
    case BadEmail => !IsValidEmail(u.email)
    case PasswordTooShort => |u.password| < 5
    case PasswordSpaces => HasSpace(u.password)
    case PasswordMismatch => u.password != u.passwordConfirmation
  }

  /** `handleSubmit` up to `registerUser`: the error of the first check that
      fails, or `None` when the data goes to the server. */
  function Validate(u: UserData): (r: Option<RegistrationError>)
    ensures r.Some? ==> Fails(u, r.value) && forall e :: Rank(e) < Rank(r.value) ==> !Fails(u, e)
    ensures r.None? <==> forall e :: !Fails(u, e)
  {
    if u.username == "" || u.password == "" || u.passwordConfirmation == "" then Some(MissingData)
    else if |u.username| < 5 then Some(UsernameTooShort)
    else if exists i :: 0 <= i < |u.username| && !IsWordChar(u.username[i]) then Some(UsernameChars)
    else if !IsValidEmail(u.email) then Some(BadEmail)
    else if |u.password| < 5 then Some(PasswordTooShort)
    else if HasSpace(u.password) then Some(PasswordSpaces)
    else if u.password != u.passwordConfirmation then Some(PasswordMismatch)
    else None
  }

  function Message(e: RegistrationError): string {
    match e
    case MissingData => "Falta alguno de los datos de registro."
    case UsernameTooShort => "La nombre de usuario debe tener, al menos, 5 caracteres"
    case UsernameChars => "El nombre de usuario solo puede contener letras, números y guiones bajos (_)"
    case BadEmail => "El correo electrónico no tiene un formato válido."
    case PasswordTooShort => "La contraseña debe tener, como mínimo, 5 caracteres"
    case PasswordSpaces => "La contraseña no debe contener espacios en blanco"
    case PasswordMismatch => "La contraseña y su confirmación no coinciden"
  }

  /** The error line after a submit: cleared first (`None`, the empty
      line), then set by the failing check. */
  function SubmitError(u: UserData): (msg: Option<string>)
    ensures msg.None? <==> forall e :: !Fails(u, e)
    ensures msg.Some? ==> exists e :: Fails(u, e) && msg.value == Message(e)
  {
    match Validate(u)
    case None => None
    case Some(e) => Some(Message(e))
  }

  /** Data the server receives meets every rule of the form: a user name of
      at least five characters from `[A-Za-z0-9_]`, an address matching the
      e-mail expression, a password of at least five characters with no
      white space, and a confirmation equal to it. */
  lemma SentDataMeetsRules(u: UserData)
    requires Validate(u).None?
    ensures |u.username| >= 5 && forall i :: 0 <= i < |u.username| ==> IsWordChar(u.username[i])
    ensures MatchesEmailRegex(u.email)
    ensures |u.password| >= 5 && !HasSpace(u.password)
    ensures u.passwordConfirmation == u.password
  {
    assert !Fails(u, UsernameChars);
    assert !Fails(u, BadEmail);
    EmailCheckMatchesRegex(u.email);
  }

  /** An empty e-mail is not reported as missing data: with everything else
      in order it is the format check that refuses it. */
  lemma EmptyEmailIsFormatError(u: UserData)
    requires u.email == ""
    requires !Fails(u, MissingData) && !Fails(u, UsernameTooShort) && !Fails(u, UsernameChars)
    ensures Validate(u) == Some(BadEmail)
  {
    assert Split("", '@') == [""];
  }

  /** The address the form tests fill in is well formed. */
  lemma DefaultEmailValid()
    ensures IsValidEmail("user@example.com")
  {
    var l, r := "user", "example.com";
    PrintableNoSpaceOrAt(l);
    PrintableNoSpaceOrAt(r);
    assert r[7] == '.';
    EmailFromParts(l, r);
    assert l + ['@'] + r == "user@example.com";
  }

  /** The data the form tests fill in passes every check. */
  lemma DefaultFormPasses()
    ensures Validate(UserData("usuario1", "user@example.com", "12345", "12345")).None?
  {
    DefaultEmailValid();
    DefaultNamePasswordPass();
  }

  lemma DefaultNamePasswordPass()
    ensures forall e :: e != BadEmail ==> !Fails(UserData("usuario1", "user@example.com", "12345", "12345"), e)
  {
    var u := UserData("usuario1", "user@example.com", "12345", "12345");
    assert !Fails(u, UsernameChars);
    assert !Fails(u, PasswordSpaces);
  }

  /** An empty form reports missing data; a three-letter user name reports
      its length. */
  lemma ShortFormsRefused()
    ensures Validate(UserData("", "", "", "")) == Some(MissingData)
    ensures Validate(UserData("abc", "user@example.com", "12345", "12345")) == Some(UsernameTooShort)
  {
  }

  // ------------------------------------------------------ server response

  const DuplicateUserMessage := "El nombre de usuario o el correo electrónico ya existen. Elija uno diferente"
  const RegistrationFailedMessage := "Ha fallado el registro y la autenticación"

  datatype RegisterOutcome = DuplicateUser | SignIn(token: string) | AuthFailed

  /** What the form does with `registerUser`'s answer: a refused call means
      the user or e-mail exists; an accepted one signs in with the returned
      token when it has the shape of a JWT, and fails otherwise. */
  function AfterRegister(ok: bool, accessToken: Option<string>): (o: RegisterOutcome)
    ensures o.DuplicateUser? <==> !ok
    ensures o.SignIn? <==> ok && Auth.HasJwtShape(accessToken)
    ensures o.SignIn? ==> Some(o.token) == accessToken && Count(o.token, '.') == 2
  {
    if !ok then DuplicateUser
    else if Auth.HasJwtShape(accessToken) then
      Auth.JwtShapeIsTwoDots(accessToken.value);
      SignIn(accessToken.value)
    else AuthFailed
  }

  function OutcomeError(o: RegisterOutcome): (e: Option<string>)
    ensures e.None? <==> o.SignIn?
  {
    match o
    case DuplicateUser => Some(DuplicateUserMessage)
    case SignIn(_) => None
    case AuthFailed => Some(RegistrationFailedMessage)
  }

  /** A refused call and a token without dots, as the form tests feed
      them in, end in an error. */
  lemma RefusedAnswers()
    ensures AfterRegister(false, None) == DuplicateUser
    ensures AfterRegister(true, Some("notajwt")) == AuthFailed
  {
    SplitNoSeparator("notajwt", '.');
  }

  /** A token of three dot-free segments, such as `valid.token.jwt` in the
      form tests, signs the user in with that token. */
  lemma SegmentedTokenSignsIn(a: string, b: string, c: string)
    requires '.' !in a && '.' !in b && '.' !in c
    ensures AfterRegister(true, Some(a + "." + b + "." + c)) == SignIn(a + "." + b + "." + c)
  {
    Auth.JwtShapeOfSegments(a, b, c);
  }
}
