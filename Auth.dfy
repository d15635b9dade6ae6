/** The sign-in / sign-up form: its validator, input handler, mode toggle and submit guard
    (src/components/AuthFlow.jsx). */
module Auth {
  import opened Wrappers
  import opened Text

  /** Every test in the form is `mode === 'signup'`, so any other mode string acts as sign-in. */
  datatype Mode = SignUp | SignIn

  function ModeOf(s: string): (r: Mode)
    ensures r == SignUp <==> s == "signup"
  {
    if s == "signup" then SignUp else SignIn
  }

  datatype AuthField = EmailField | PasswordField | ConfirmPasswordField | NameField

  datatype AuthForm = AuthForm(email: string, password: string, confirmPassword: string, name: string)

  const MinPasswordLength := 6

  const EmailRequired := "Email is required"
  const EmailInvalid := "Please enter a valid email address"
  const PasswordRequired := "Password is required"
  const PasswordShort := "Password must be at least 6 characters"
  const NameRequired := "Name is required"
  const ConfirmRequired := "Please confirm your password"
  const ConfirmMismatch := "Passwords do not match"

  /** The validity the form demands, stated field by field. */
  ghost predicate FormValid(mode: Mode, f: AuthForm) {
    && f.email != "" && MatchesEmailPattern(f.email)
    && |f.password| >= MinPasswordLength
    && (mode == SignUp ==> f.name != "" && f.confirmPassword != "" && f.confirmPassword == f.password)
  }

  /** The email check: "required" when empty, otherwise the pattern. */
  function EmailError(email: string): (r: Option<string>)
    ensures r.None? <==> email != "" && MatchesEmailPattern(email)
    ensures email == "" ==> r == Some(EmailRequired)
    ensures email != "" && !MatchesEmailPattern(email) ==> r == Some(EmailInvalid)
  {
    if email == "" then Some(EmailRequired)
    else if !ValidEmail(email) then Some(EmailInvalid)
    else None
  }

  /** The password check: "required" when empty, otherwise the minimum length. */
  function PasswordError(password: string): (r: Option<string>)
    ensures r.None? <==> |password| >= MinPasswordLength
    ensures password == "" ==> r == Some(PasswordRequired)
    ensures password != "" && |password| < MinPasswordLength ==> r == Some(PasswordShort)
  {
    if password == "" then Some(PasswordRequired)
    else if |password| < MinPasswordLength then Some(PasswordShort)
    else None
  }

  /** The confirmation check: "required" when empty, otherwise equality with the password. */
  function ConfirmError(password: string, confirm: string): (r: Option<string>)
    ensures r.None? <==> confirm != "" && confirm == password
    ensures confirm == "" ==> r == Some(ConfirmRequired)
    ensures confirm != "" && confirm != password ==> r == Some(ConfirmMismatch)
  {
    if confirm == "" then Some(ConfirmRequired)
    else if password != confirm then Some(ConfirmMismatch)
    else None
  }

  /** The error one field records, if any; name and confirmation only in signup mode. */
  function FieldError(mode: Mode, f: AuthForm, field: AuthField): Option<string> {
    match field
    case EmailField => EmailError(f.email)
    case PasswordField => PasswordError(f.password)
    case NameField => if mode == SignUp && f.name == "" then Some(NameRequired) else None
    case ConfirmPasswordField => if mode == SignUp then ConfirmError(f.password, f.confirmPassword) else None
  }

  /** In signin mode only email and password are checked. */
  lemma SignInChecksTwoFields(f: AuthForm)
    ensures FieldError(SignIn, f, NameField).None? && FieldError(SignIn, f, ConfirmPasswordField).None?
  {
  }

  /** The form is valid exactly when no field records an error. */
  lemma FormValidIff(mode: Mode, f: AuthForm)
    ensures FormValid(mode, f) <==> forall field :: FieldError(mode, f, field).None?
  {
    if !FormValid(mode, f) {
      if EmailError(f.email).Some? {
        assert FieldError(mode, f, EmailField).Some?;
      } else if PasswordError(f.password).Some? {
        assert FieldError(mode, f, PasswordField).Some?;
      } else if f.name == "" {
        assert FieldError(mode, f, NameField).Some?;
      } else {
        assert FieldError(mode, f, ConfirmPasswordField).Some?;
      }
    }
  }

  /** The entry an error record holds for a field. */
  function Lookup(errors: map<AuthField, string>, field: AuthField): Option<string> {
    if field in errors then Some(errors[field]) else None
  }

  /** An error record holding exactly the fields' errors is empty iff the form is valid. */
  lemma NoErrorsIffValid(mode: Mode, f: AuthForm, errors: map<AuthField, string>)
    requires forall field :: Lookup(errors, field) == FieldError(mode, f, field)
    ensures |errors| == 0 <==> FormValid(mode, f)
  {
    FormValidIff(mode, f);
    if |errors| == 0 {
      assert errors.Keys == {};
      forall field
        ensures FieldError(mode, f, field).None?
      {
        assert Lookup(errors, field).None?;
      }
    } else {
      var field :| field in errors;
      assert Lookup(errors, field).Some?;
    }
  }

  /** `validateForm`: builds the error record field by field (each field's "required" message before its
      format or match message) and reports whether it is empty. */
  method ValidateForm(mode: Mode, f: AuthForm) returns (errors: map<AuthField, string>, ok: bool)
    ensures forall field :: Lookup(errors, field) == FieldError(mode, f, field)
    ensures ok <==> |errors| == 0
    ensures ok <==> FormValid(mode, f)
  {
    errors := map[];
    if f.email == "" {
      errors := errors[EmailField := EmailRequired];
    } else if !ValidEmail(f.email) {
      errors := errors[EmailField := EmailInvalid];
    }
    ghost var afterEmail := errors;
    assert Lookup(errors, EmailField) == EmailError(f.email);
    if f.password == "" {
      errors := errors[PasswordField := PasswordRequired];
    } else if |f.password| < MinPasswordLength {
      errors := errors[PasswordField := PasswordShort];
    }
    assert Lookup(errors, PasswordField) == PasswordError(f.password);
    assert Lookup(errors, EmailField) == Lookup(afterEmail, EmailField);
    assert errors.Keys <= {EmailField, PasswordField};
    ghost var afterPassword := errors;
    if mode == SignUp {
      if f.name == "" {
        errors := errors[NameField := NameRequired];
      }
      if f.confirmPassword == "" {
        errors := errors[ConfirmPasswordField := ConfirmRequired];
      } else if f.password != f.confirmPassword {
        errors := errors[ConfirmPasswordField := ConfirmMismatch];
      }
    }
    assert Lookup(errors, EmailField) == Lookup(afterPassword, EmailField);
    assert Lookup(errors, PasswordField) == Lookup(afterPassword, PasswordField);
    assert Lookup(errors, NameField) == FieldError(mode, f, NameField);
    assert Lookup(errors, ConfirmPasswordField) == FieldError(mode, f, ConfirmPasswordField);
    FieldByField(mode, f, errors);
    ok := |errors| == 0;
    NoErrorsIffValid(mode, f, errors);
  }

  /** A record that agrees with the field errors on each of the four fields agrees on all. */
  lemma FieldByField(mode: Mode, f: AuthForm, errors: map<AuthField, string>)
    requires Lookup(errors, EmailField) == FieldError(mode, f, EmailField)
    requires Lookup(errors, PasswordField) == FieldError(mode, f, PasswordField)
    requires Lookup(errors, NameField) == FieldError(mode, f, NameField)
    requires Lookup(errors, ConfirmPasswordField) == FieldError(mode, f, ConfirmPasswordField)
    ensures forall field :: Lookup(errors, field) == FieldError(mode, f, field)
  {
    forall field ensures Lookup(errors, field) == FieldError(mode, f, field) {
      match field
      case EmailField =>
      case PasswordField =>
      case NameField =>
      case ConfirmPasswordField =>
    }
  }

  /** The value of one field. */
  function Get(f: AuthForm, field: AuthField): string {
    match field
    case EmailField => f.email
    case PasswordField => f.password
    case ConfirmPasswordField => f.confirmPassword
    case NameField => f.name
  }

  function Set(f: AuthForm, field: AuthField, value: string): (r: AuthForm)
    ensures Get(r, field) == value
    ensures forall g | g != field :: Get(r, g) == Get(f, g)
  {
    match field
    case EmailField => f.(email := value)
    case PasswordField => f.(password := value)
    case ConfirmPasswordField => f.(confirmPassword := value)
    case NameField => f.(name := value)
  }

  /** The message a field displays: a recorded, non-empty error. */
  function Displayed(errors: map<AuthField, string>, field: AuthField): Option<string> {
    if field in errors && errors[field] != "" then Some(errors[field]) else None
  }

  /** `handleInputChange`'s error update: a displayed error on the edited field is blanked (its key
      stays), anything else is left as it is. */
  function ClearFieldError(errors: map<AuthField, string>, field: AuthField): (r: map<AuthField, string>)
    ensures r.Keys == errors.Keys
    ensures Displayed(r, field).None?
    ensures forall g | g != field :: Displayed(r, g) == Displayed(errors, g)
  {
    if field in errors && errors[field] != "" then errors[field := ""] else errors
  }

  /** `toggleMode`'s mode flip. */
  function Toggle(m: Mode): (r: Mode)
    ensures r != m
  {
    if m == SignUp then SignIn else SignUp
  }

  /** `toggleMode`'s form: only the email survives. */
  function ToggledForm(f: AuthForm): (r: AuthForm)
    ensures Get(r, EmailField) == f.email
    ensures forall g | g != EmailField :: Get(r, g) == ""
  {
    AuthForm(f.email, "", "", "")
  }

  /** Toggling twice returns to the same mode, and a second toggle leaves the form as the first did. */
  lemma ToggleTwice(m: Mode, f: AuthForm)
    ensures Toggle(Toggle(m)) == m
    ensures ToggledForm(ToggledForm(f)) == ToggledForm(f)
  {
  }

  /** The remote call a valid submit makes: `signUp(email, password)` or `signIn(email, password)`. */
  datatype AuthCall = SignUpCall(email: string, password: string) | SignInCall(email: string, password: string)

  /** The submit guard: no call unless the form is valid, then the call the mode selects. */
  function SubmitCall(mode: Mode, f: AuthForm, valid: bool): (r: Option<AuthCall>)
    ensures r.None? <==> !valid
    ensures valid && mode == SignUp ==> r == Some(SignUpCall(f.email, f.password))
    ensures valid && mode == SignIn ==> r == Some(SignInCall(f.email, f.password))
  {
    if !valid then None
    else if mode == SignUp then Some(SignUpCall(f.email, f.password))
    else Some(SignInCall(f.email, f.password))
  }

  /** Whatever the mode, a submit that validates the form sends the form's own email and password,
      and only credentials that pass the checks: an email matching the pattern and a password of at
      least the minimum length; in signup mode also a name and a matching confirmation. */
  lemma SubmitSendsCheckedCredentials(mode: Mode, f: AuthForm)
    ensures var r := SubmitCall(mode, f, FormValid(mode, f));
      r.Some? ==>
        && r.value.email == f.email && r.value.password == f.password
        && (r.value.SignUpCall? <==> mode == SignUp)
        && f.email != "" && MatchesEmailPattern(r.value.email)
        && |r.value.password| >= MinPasswordLength
        && (mode == SignUp ==> f.name != "" && f.confirmPassword == r.value.password)
  {
  }

  /** The form's local state. */
  class AuthFlow {
    var mode: Mode
    var form: AuthForm
    var errors: map<AuthField, string>

    constructor(initialMode: string)
      ensures mode == ModeOf(initialMode) && form == AuthForm("", "", "", "") && errors == map[]
    {
      mode, form, errors := ModeOf(initialMode), AuthForm("", "", "", ""), map[];
    }

    method HandleInputChange(field: AuthField, value: string)
      modifies this
      ensures form == Set(old(form), field, value)
      ensures errors == ClearFieldError(old(errors), field)
      ensures mode == old(mode)
    {
      form := Set(form, field, value);
      if field in errors && errors[field] != "" {
        errors := errors[field := ""];
      }
    }

    method ToggleMode()
      modifies this
      ensures mode == Toggle(old(mode)) && form == ToggledForm(old(form)) && errors == map[]
    {
      mode := if mode == SignUp then SignIn else SignUp;
      errors := map[];
      form := AuthForm(form.email, "", "", "");
    }

    /** `handleSubmit`: the form is validated (recording its errors) and a call is made only when it is valid. */
    method HandleSubmit() returns (call: Option<AuthCall>)
      modifies this
      ensures call.None? <==> !FormValid(mode, form)
      ensures call == SubmitCall(mode, form, FormValid(mode, form))
      ensures forall field :: Lookup(errors, field) == FieldError(mode, form, field)
      ensures mode == old(mode) && form == old(form)
    {
      var ok;
      errors, ok := ValidateForm(mode, form);
      call := SubmitCall(mode, form, ok);
    }
  }
}
