/** The login form of src/components/login-form.tsx: the credentials being
    typed, the pending flag of a submit, the inline error, and the demo-account
    shortcut.

    Every control of the form carries `disabled={loading}`, so while a submit
    is pending no input, toggle, demo or submit event reaches the handlers;
    the event methods below take that gate as their first test. Both inputs
    are also `required`: the browser blocks the submit event while either
    field is empty, so `handleSubmit` never runs then. */
module LoginForm {
  import opened Types
  import opened Text
  import opened Auth
  import opened Store

  datatype Credentials = Credentials(username: string, password: string)

  /** `keyof LoginCredentials` */
  datatype Field = Username | Password

  /** `{ ...prev, [field]: value }` */
  function WithField(c: Credentials, field: Field, value: string): Credentials {
    match field
    case Username => c.(username := value)
    case Password => c.(password := value)
  }

  /** An input change writes the named field and keeps the other. */
  lemma WithFieldWritesOnlyField(c: Credentials, field: Field, value: string)
    ensures field == Username ==> WithField(c, field, value).username == value && WithField(c, field, value).password == c.password
    ensures field == Password ==> WithField(c, field, value).password == value && WithField(c, field, value).username == c.username
  {
  }

  /** The `required` attribute of both inputs is met. */
  predicate Filled(c: Credentials) {
    c.username != "" && c.password != ""
  }

  const LoginFailed := "Login failed"
  const UnexpectedError := "An unexpected error occurred"

  /** `response.error || "Login failed"`: an absent or empty error is replaced. */
  function FailureMessage(response: AuthResponse): (r: string)
    ensures r != ""
    ensures response.error.Some? && response.error.value != "" ==> r == response.error.value
  {
    if response.error.Some? && response.error.value != "" then response.error.value else LoginFailed
  }

  /** The credentials `fillDemoCredentials` writes for each role. */
  function DemoCredentials(role: Role): Credentials {
    match role
    case Admin => Credentials("admin", "admin123")
    case Broker => Credentials("broker", "broker123")
  }

  /** Both demo pairs log in, as the user of the matching role. */
  lemma DemoCredentialsLogIn(role: Role)
    ensures var c := DemoCredentials(role);
      CheckCredentials(c.username, c.password).Some? &&
      CheckCredentials(c.username, c.password).value.role == role
  {
    match role
    case Admin =>
      assert MockUsers["admin"] == Account("admin123", AdminUser);
      CheckCredentialsOfEntry("admin");
    case Broker =>
      assert MockUsers["broker"] == Account("broker123", BrokerUser);
      CheckCredentialsOfEntry("broker");
  }

  class Form {
    var credentials: Credentials
    var showPassword: bool
    var loading: bool
    var error: Option<string>

    /** An error, once set, is never empty: every message the form sets is non-empty. */
    predicate Valid()
      reads this
    {
      error.Some? ==> error.value != ""
    }

    /** Whether the inputs and all buttons are disabled. */
    predicate ControlsDisabled()
      reads this
    {
      loading
    }

    constructor ()
      ensures Valid()
      ensures credentials == Credentials("", "") && !showPassword && !loading && error == None
    {
      credentials := Credentials("", "");
      showPassword, loading, error := false, false, None;
    }

    /** A submit event: it reaches `handleSubmit` only when the controls are
        enabled and both fields are filled; `handleSubmit` then sets `loading`
        and clears the error. */
    method BeginSubmit() returns (started: bool)
      requires Valid()
      modifies this
      ensures Valid()
      ensures started <==> !old(ControlsDisabled()) && Filled(old(credentials))
      ensures started ==> loading && error == None && credentials == old(credentials) && showPassword == old(showPassword)
      ensures !started ==> loading == old(loading) && error == old(error) && credentials == old(credentials) && showPassword == old(showPassword)
    {
      if loading || !Filled(credentials) {
        return false;
      }
      loading := true;
      error := None;
      started := true;
    }

    /** End of `handleSubmit`. `outcome` is the response `login` resolved to,
        or `None` when it threw. Success writes the user to the store; failure
        sets the error; the `finally` clears `loading` on every path. The
        credentials are left as typed. */
    method EndSubmit(outcome: Option<AuthResponse>, store: AppStore)
      requires Valid() && loading
      modifies this, store
      ensures Valid() && !loading
      ensures credentials == old(credentials) && showPassword == old(showPassword)
      ensures outcome.Some? && outcome.value.success && outcome.value.user.Some? ==>
        error == old(error) && store.Snapshot() == Apply(old(store.Snapshot()), SetUser(outcome.value.user.value))
      ensures outcome.Some? && !(outcome.value.success && outcome.value.user.Some?) ==>
        error == Some(FailureMessage(outcome.value)) && store.Snapshot() == old(store.Snapshot())
      ensures outcome.None? ==> error == Some(UnexpectedError) && store.Snapshot() == old(store.Snapshot())
    {
      if outcome.None? {
        error := Some(UnexpectedError);
      } else {
        var response := outcome.value;
        if response.success && response.user.Some? {
          store.SetUser(response.user.value);
        } else {
          error := Some(FailureMessage(response));
        }
      }
      loading := false;
    }

    /** A submit event followed by the completion of the login it starts, as
        one step. A blocked submit changes nothing. */
    method Submit(auth: AuthService, store: AppStore)
      requires Valid()
      modifies this, auth, store
      ensures Valid() && credentials == old(credentials) && showPassword == old(showPassword)
      ensures old(ControlsDisabled()) || !Filled(old(credentials)) ==>
        && loading == old(loading) && error == old(error)
        && store.Snapshot() == old(store.Snapshot()) && auth.storage == old(auth.storage)
      ensures !old(ControlsDisabled()) && Filled(old(credentials)) ==>
        var u := CheckCredentials(old(credentials).username, old(credentials).password);
        && !loading
        && (u.Some? ==> error == None && store.Snapshot() == Apply(old(store.Snapshot()), SetUser(u.value)))
        && (u.Some? ==> store.user == u && auth.GetCurrentUser() == u)
        && (u.None? ==> error == Some(InvalidCredentials) && store.Snapshot() == old(store.Snapshot()))
        && (u.None? ==> auth.storage == old(auth.storage))
    {
      var started := BeginSubmit();
      if started {
        var response := auth.Login(credentials.username, credentials.password);
        EndSubmit(Some(response), store);
      }
    }

    /** `handleInputChange(field)`: writes one field and clears a set error. */
    method InputChange(field: Field, value: string)
      requires Valid()
      modifies this
      ensures Valid()
      ensures old(ControlsDisabled()) ==> credentials == old(credentials) && error == old(error)
      ensures !old(ControlsDisabled()) ==> error == None && credentials == WithField(old(credentials), field, value)
      ensures loading == old(loading) && showPassword == old(showPassword)
    {
      if loading {
        return;
      }
      credentials := WithField(credentials, field, value);
      if error.Some? && error.value != "" {
        error := None;
      }
    }

    /** `fillDemoCredentials(role)`: replaces both fields and clears the error. */
    method FillDemoCredentials(role: Role)
      requires Valid()
      modifies this
      ensures Valid()
      ensures old(ControlsDisabled()) ==> credentials == old(credentials) && error == old(error)
      ensures !old(ControlsDisabled()) ==> credentials == DemoCredentials(role) && error == None
      ensures loading == old(loading) && showPassword == old(showPassword)
    {
      if loading {
        return;
      }
      credentials := DemoCredentials(role);
      error := None;
    }

    /** The eye button beside the password field. */
    method TogglePassword()
      modifies this
      ensures showPassword == if old(ControlsDisabled()) then old(showPassword) else !old(showPassword)
      ensures credentials == old(credentials) && loading == old(loading) && error == old(error)
    {
      if !loading {
        showPassword := !showPassword;
      }
    }
  }
}
