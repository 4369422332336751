/** The profile form (`UpdateUserInfo`): the user's data, the switch that
    opens the password fields, editing one field, and the chain of checks run
    on submit, where the first failing check decides the one error shown. */
module Profile {
  import opened Wrappers
  import opened Strings
  import opened EmailFormat
  import Registration

  datatype ProfileData = ProfileData(
    username: string,
    email: string,
    oldPassword: string,
    newPassword: string,
    passwordConfirmation: string)

  /** The `name` attribute of an input, which `handleChange` uses as key. */
  datatype FieldName = Username | Email | OldPassword | NewPassword | PasswordConfirmation

  function FieldOf(d: ProfileData, f: FieldName): string {
    match f
    case Username => d.username
    case Email => d.email
    case OldPassword => d.oldPassword
    case NewPassword => d.newPassword
    case PasswordConfirmation => d.passwordConfirmation
  }

  /** `{...userData, [name]: value}` */
  function WithField(d: ProfileData, f: FieldName, v: string): (r: ProfileData)
    ensures FieldOf(r, f) == v
    ensures forall g :: g != f ==> FieldOf(r, g) == FieldOf(d, g)
  {
    match f
    case Username => d.(username := v)
    case Email => d.(email := v)
    case OldPassword => d.(oldPassword := v)
    case NewPassword => d.(newPassword := v)
    case PasswordConfirmation => d.(passwordConfirmation := v)
  }

  /** Two records that agree on every field are the same record. */
  lemma FieldsDetermineData(a: ProfileData, b: ProfileData)
    requires forall g :: FieldOf(a, g) == FieldOf(b, g)
    ensures a == b
  {
    assert FieldOf(a, Username) == FieldOf(b, Username);
    assert FieldOf(a, Email) == FieldOf(b, Email);
    assert FieldOf(a, OldPassword) == FieldOf(b, OldPassword);
    assert FieldOf(a, NewPassword) == FieldOf(b, NewPassword);
    assert FieldOf(a, PasswordConfirmation) == FieldOf(b, PasswordConfirmation);
  }

  /** Writing back the value a field already holds changes nothing, and a
      second write to the same field overrides the first. */
  lemma WithFieldLaws(d: ProfileData, f: FieldName, a: string, b: string)
    ensures WithField(d, f, FieldOf(d, f)) == d
    ensures WithField(WithField(d, f, a), f, b) == WithField(d, f, b)
  {
    FieldsDetermineData(WithField(d, f, FieldOf(d, f)), d);
    FieldsDetermineData(WithField(WithField(d, f, a), f, b), WithField(d, f, b));
  }

  /** The password fields emptied, as when the switch is turned off. */
  function ClearPasswords(d: ProfileData): (r: ProfileData)
    ensures r.oldPassword == "" && r.newPassword == "" && r.passwordConfirmation == ""
    ensures r.username == d.username && r.email == d.email
  {
    d.(oldPassword := "", newPassword := "", passwordConfirmation := "")
  }

  // ----------------------------------------------------------- the checks

  /** The checks of `handleSubmit`, in the order they run. */
  datatype ProfileError =
    | MissingEmail
    | BadEmail
    | MissingPasswords
    | NewPasswordTooShort
    | NewPasswordSpaces
    | NewPasswordMismatch

  function Rank(e: ProfileError): nat {
    match e
    case MissingEmail => 0
    case BadEmail => 1
    case MissingPasswords => 2
    case NewPasswordTooShort => 3
    case NewPasswordSpaces => 4
    case NewPasswordMismatch => 5
  }

  /** Whether the data fails one check, taken on its own. The password
      checks only apply while the password fields are open. */
  predicate Fails(d: ProfileData, modifyPassword: bool, e: ProfileError) {
    match e
    case MissingEmail => d.email == ""
    case BadEmail => !IsValidEmail(d.email)
    case MissingPasswords =>
      modifyPassword && (d.oldPassword == "" || d.newPassword == "" || d.passwordConfirmation == "")
    case NewPasswordTooShort => modifyPassword && |d.newPassword| < 5
    case NewPasswordSpaces => modifyPassword && HasSpace(d.newPassword)
    case NewPasswordMismatch => modifyPassword && d.newPassword != d.passwordConfirmation
  }

  /** `handleSubmit` up to `updateUserData`: the error of the first check
      that fails, or `None` when the data goes to the server. */
  function Validate(d: ProfileData, modifyPassword: bool): (r: Option<ProfileError>)
    ensures r.Some? ==> Fails(d, modifyPassword, r.value)
                        && forall e :: Rank(e) < Rank(r.value) ==> !Fails(d, modifyPassword, e)
    ensures r.None? <==> forall e :: !Fails(d, modifyPassword, e)
  {
    if d.email == "" then
      assert Fails(d, modifyPassword, MissingEmail);
      Some(MissingEmail)
    else if !IsValidEmail(d.email) then
      assert Fails(d, modifyPassword, BadEmail);
      Some(BadEmail)
    else if modifyPassword && (d.oldPassword == "" || d.newPassword == "" || d.passwordConfirmation == "") then
      assert Fails(d, modifyPassword, MissingPasswords);
      Some(MissingPasswords)
    else if modifyPassword && |d.newPassword| < 5 then
      assert Fails(d, modifyPassword, NewPasswordTooShort);
      Some(NewPasswordTooShort)
    else if modifyPassword && HasSpace(d.newPassword) then
      assert Fails(d, modifyPassword, NewPasswordSpaces);
      Some(NewPasswordSpaces)
    else if modifyPassword && d.newPassword != d.passwordConfirmation then
      assert Fails(d, modifyPassword, NewPasswordMismatch);
      Some(NewPasswordMismatch)
    else None
  }

  function Message(e: ProfileError): string {
    match e
    case MissingEmail => "Falta el correo electrónico"
    case BadEmail => "El correo electrónico no tiene un formato válido."
    case MissingPasswords => "Falta algún campo de contraseñas por rellenarse"
    case NewPasswordTooShort => "La nueva contraseña debe tener, como mínimo, 5 caracteres"
    case NewPasswordSpaces => "La nueva contraseña no debe contener espacios en blanco"
    case NewPasswordMismatch => "La nueva contraseña y su confirmación no coinciden"
  }

  const UpdateRefusedMessage := "Alguno de los datos introducidos son incorrectos"

  /** The error line for a check's outcome, `None` being the empty line. */
  function ErrorText(r: Option<ProfileError>): Option<string> {
    match r
    case None => None
    case Some(e) => Some(Message(e))
  }

  /** An empty e-mail is reported as missing, whatever else the form holds. */
  lemma EmptyEmailIsMissing(d: ProfileData, modifyPassword: bool)
    requires d.email == ""
    ensures Validate(d, modifyPassword) == Some(MissingEmail)
  {
  }

  /** With the password fields closed, only the e-mail decides: a well-formed
      address alone reaches the server, and the password fields are never
      looked at. */
  lemma ClosedPasswordsOnlyEmail(d: ProfileData, d': ProfileData)
    requires d.email == d'.email
    ensures Validate(d, false).None? <==> IsValidEmail(d.email)
    ensures Validate(d, false) == Validate(d', false)
  {
  }

  /** Data the server receives has an e-mail matching the expression; with
      the password fields open, the new password also meets the rules of the
      registration form for a password and its confirmation. */
  lemma SentProfileMeetsRules(d: ProfileData, modifyPassword: bool)
    requires Validate(d, modifyPassword).None?
    ensures MatchesEmailRegex(d.email)
    ensures modifyPassword ==> d.oldPassword != ""
    ensures modifyPassword ==>
              var u := Registration.UserData(d.username, d.email, d.newPassword, d.passwordConfirmation);
              && !Registration.Fails(u, Registration.PasswordTooShort)
              && !Registration.Fails(u, Registration.PasswordSpaces)
              && !Registration.Fails(u, Registration.PasswordMismatch)
  {
    assert !Fails(d, modifyPassword, BadEmail);
    EmailCheckMatchesRegex(d.email);
    if modifyPassword {
      assert !Fails(d, modifyPassword, MissingPasswords);
      assert !Fails(d, modifyPassword, NewPasswordTooShort);
      assert !Fails(d, modifyPassword, NewPasswordSpaces);
    }
  }

  /** The refused e-mail of the form tests is reported as badly formed. */
  lemma InvalidEmailRefused(d: ProfileData, modifyPassword: bool)
    requires d.email == "invalid-email"
    ensures Validate(d, modifyPassword) == Some(BadEmail)
  {
    EmailRefused();
  }

  // ----------------------------------------------------------------- form

  /** The state of the profile form. */
  class ProfileForm {
    var data: ProfileData
    var modifyPassword: bool
    /** The error line, `None` while it is empty. */
    var error: Option<string>

    /** The form opened for the signed-in user, before the e-mail loads. */
    constructor(userName: string)
      ensures data == ProfileData(userName, "", "", "", "")
      ensures !modifyPassword && error.None?
    {
      data := ProfileData(userName, "", "", "", "");
      modifyPassword := false;
      error := None;
    }

    /** `getUser` answered: the stored e-mail fills its field. */
    method EmailLoaded(email: string)
      modifies this
      ensures data == old(data).(email := email)
      ensures modifyPassword == old(modifyPassword) && error == old(error)
    {
      data := data.(email := email);
    }

    /** `handleChange`: only the named field takes the typed value. */
    method HandleChange(f: FieldName, v: string)
      modifies this
      ensures data == WithField(old(data), f, v)
      ensures modifyPassword == old(modifyPassword) && error == old(error)
    {
      data := WithField(data, f, v);
    }

    /** `toggleModifyPassword`: turning the switch off empties the three
        password fields and the error; turning it on changes nothing else. */
    method ToggleModifyPassword()
      modifies this
      ensures modifyPassword == !old(modifyPassword)
      ensures old(modifyPassword) ==> data == ClearPasswords(old(data)) && error.None?
      ensures !old(modifyPassword) ==> data == old(data) && error == old(error)
    {
      var newState := !modifyPassword;
      if !newState {
        data := ClearPasswords(data);
        error := None;
      }
      modifyPassword := newState;
    }

    /** `handleSubmit` up to the server call: the error is cleared, then set
        by the first failing check. */
    method Submit() returns (r: Option<ProfileError>)
      modifies this
      ensures r == Validate(data, modifyPassword)
      ensures error.None? <==> forall e :: !Fails(data, modifyPassword, e)
      ensures error == ErrorText(r)
      ensures data == old(data) && modifyPassword == old(modifyPassword)
    {
      error := None;
      if data.email == "" {
        r := Some(MissingEmail);
      } else if !IsValidEmail(data.email) {
        r := Some(BadEmail);
      } else if modifyPassword && (data.oldPassword == "" || data.newPassword == "" || data.passwordConfirmation == "") {
        r := Some(MissingPasswords);
      } else if modifyPassword && |data.newPassword| < 5 {
        r := Some(NewPasswordTooShort);
      } else if modifyPassword && HasSpace(data.newPassword) {
        r := Some(NewPasswordSpaces);
      } else if modifyPassword && data.newPassword != data.passwordConfirmation {
        r := Some(NewPasswordMismatch);
      } else {
        r := None;
      }
      if r.Some? {
        error := Some(Message(r.value));
      }
    }

    /** `updateUserData` answered for the data submitted with e-mail
        `submittedEmail`: a refusal sets the error; an acceptance puts the
        submitted e-mail back in its field. */
    method UpdateAnswered(ok: bool, submittedEmail: string)
      modifies this
      ensures !ok ==> error == Some(UpdateRefusedMessage) && data == old(data)
      ensures ok ==> data == old(data).(email := submittedEmail) && error == old(error)
      ensures modifyPassword == old(modifyPassword)
    {
      if !ok {
        error := Some(UpdateRefusedMessage);
        return;
      }
      data := data.(email := submittedEmail);
    }
  }

  /** After the switch is turned off, submitting checks the e-mail alone,
      whatever the password fields held. */
  lemma ClosingSwitchLeavesEmailCheck(d: ProfileData)
    ensures Validate(ClearPasswords(d), false) == Validate(d, false)
    ensures Validate(ClearPasswords(d), false).None? <==> IsValidEmail(d.email)
  {
    ClosedPasswordsOnlyEmail(ClearPasswords(d), d);
  }
}
