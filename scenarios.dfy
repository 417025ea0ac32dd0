/** The end-to-end flows of the repository's browser tests, replayed on the model:
    each method builds a fresh page (store, session, console, panels) and
    drives it through the same clicks. */
module Scenarios {
  import opened Types
  import opened Auth
  import opened Store
  import opened Logging
  import Api
  import LoginForm
  import BorrowerPipeline
  import BorrowerDetail
  import AuthWrapper
  import BrokerOverview
  import RoleGuard

  /** The pipeline data the load effect receives puts Sarah Dunn first. */
  lemma PipelineStartsWithSarah()
    ensures |Api.GetBorrowerPipeline().newBucket| > 0
    ensures Api.GetBorrowerPipeline().newBucket[0] == Api.Sarah
  {
  }

  /** The pair used by the rejected-login test is not an account. */
  lemma InvalidPairFails()
    ensures CheckCredentials("invalid", "wrong") == None
  {
    CheckCredentialsSucceedsIffValidPair("invalid", "wrong");
  }

  /** The two console lines of a settled "Request Documents" call for borrower 1. */
  lemma DocumentsLinesForSarah()
    ensures BorrowerDetail.ApiLine(BorrowerDetail.Call(BorrowerDetail.Documents, Api.Sarah.id)) == "Documents requested for borrower 1"
    ensures BorrowerDetail.CompletedLine(BorrowerDetail.Documents) == "documents completed:"
  {
    assert "Documents requested for borrower " + "1" == "Documents requested for borrower 1";
  }

  /** A fresh login form after a click on the demo button of `role`: both
      fields are filled with a pair that logs in as that role. */
  method DemoForm(role: Role) returns (form: LoginForm.Form)
    ensures fresh(form) && form.Valid() && !form.ControlsDisabled()
    ensures LoginForm.Filled(form.credentials)
    ensures var u := CheckCredentials(form.credentials.username, form.credentials.password);
      u.Some? && u.value.role == role
  {
    form := new LoginForm.Form();
    form.FillDemoCredentials(role);
    LoginForm.DemoCredentialsLogIn(role);
  }

  /** Log in with the demo pair of `role` from an empty browser. */
  method SignIn(role: Role) returns (store: AppStore)
    ensures fresh(store)
    ensures store.user.Some? && store.user.value.role == role
    ensures store.activeBorrower == None
  {
    store := new AppStore();
    var auth := new AuthService(Absent);
    var form := DemoForm(role);
    form.Submit(auth, store);
  }

  /** Sign in as `role` and load the pipeline; returns the store and the
      detail panel's view. */
  method SignInAndLoad(role: Role) returns (store: AppStore, view: BorrowerDetail.View)
    ensures fresh(store)
    ensures store.user.Some? && store.user.value.role == role
    ensures store.borrowers == Api.MockBorrowers && store.activeBorrower == Some(Api.Sarah)
    ensures view == BorrowerDetail.Render(Some(Api.Sarah), None, store.user)
  {
    store := SignIn(role);
    var console := new Console();
    PipelineStartsWithSarah();
    BorrowerPipeline.LoadBorrowers(store, console, Some(Api.GetBorrowerPipeline()));
    var panel := new BorrowerDetail.DetailPanel();
    view := BorrowerDetail.Render(store.activeBorrower, panel.loading, store.user);
  }

  /** As Admin, Sarah Dunn is selected on load, her two risk flags are
      counted, and all four action buttons are offered. Her status "Renew"
      has no case in the panel's colour switch, so its badge is gray. */
  method AdminSeesAllActions() returns (view: BorrowerDetail.View)
    ensures view.Details? && view.borrower.name == "Sarah Dunn" && view.borrower.amount == 300000
    ensures view.riskCount == 2 && view.statusColor == Gray
    ensures |view.slots| == 4 && forall i :: 0 <= i < 4 ==> view.slots[i].Children?
    ensures view.slots[3].node.caption == "Escalate to Credit Committee"
  {
    var store;
    store, view := SignInAndLoad(Admin);
    BorrowerDetail.OfferedByRole(store.user);
  }

  /** As Broker, the same borrower offers only "Request Documents"; each of
      the three admin-only buttons is replaced by the notice
      "Required role: Admin". */
  method BrokerSeesOnlyDocuments() returns (view: BorrowerDetail.View)
    ensures view.Details? && view.borrower.name == "Sarah Dunn"
    ensures |view.slots| == 4
    ensures view.slots[0] == RoleGuard.Children(BorrowerDetail.Button(BorrowerDetail.Documents, "Request Documents", false))
    ensures forall i :: 1 <= i < 4 ==> view.slots[i] == RoleGuard.PermissionDenied(Admin)
  {
    var store;
    store, view := SignInAndLoad(Broker);
    BorrowerDetail.OfferedByRole(store.user);
  }

  /** `invalid` / `wrong` shows the inline error and stores no session. */
  method InvalidCredentialsRejected() returns (error: Option<string>, stored: StoredSession, signedIn: bool)
    ensures error == Some("Invalid username or password")
    ensures stored == Absent && !signedIn
  {
    var store := new AppStore();
    var auth := new AuthService(Absent);
    var form := new LoginForm.Form();
    form.InputChange(LoginForm.Username, "invalid");
    form.InputChange(LoginForm.Password, "wrong");
    assert form.credentials == LoginForm.Credentials("invalid", "wrong");
    InvalidPairFails();
    form.Submit(auth, store);
    error, stored, signedIn := form.error, auth.storage, store.IsAuthenticated();
  }

  /** A session survives a reload until logout: after a login the wrapper
      restores the same user into a fresh store, so the page shows instead of
      the login form; after logout a reload restores nobody and the login form
      shows again. */
  method SessionLifecycle() returns (restored: Option<User>, showsFormAfterLogin: bool,
                                     afterLogout: Option<User>, showsFormAfterLogout: bool)
    ensures restored == Some(AdminUser) && !showsFormAfterLogin
    ensures afterLogout == None && showsFormAfterLogout
  {
    var auth := new AuthService(Absent);
    var response := auth.Login("Admin", "admin123");
    assert Text.Lower("Admin") == "admin";
    var reloaded := new AppStore();
    AuthWrapper.RestoreSession(auth, reloaded);
    restored := reloaded.user;
    showsFormAfterLogin := AuthWrapper.ShowsLoginForm(reloaded.Snapshot());
    auth.Logout();
    afterLogout := auth.GetCurrentUser();
    var reloadedAgain := new AppStore();
    AuthWrapper.RestoreSession(auth, reloadedAgain);
    showsFormAfterLogout := AuthWrapper.ShowsLoginForm(reloadedAgain.Snapshot());
  }

  /** Submitting the empty form is blocked by the `required` inputs: no
      request is made, no error shows and nobody is signed in. */
  method EmptyFormDoesNotSubmit() returns (error: Option<string>, loading: bool, stored: StoredSession, signedIn: bool)
    ensures error == None && !loading
    ensures stored == Absent && !signedIn
  {
    var store := new AppStore();
    var auth := new AuthService(Absent);
    var form := new LoginForm.Form();
    form.InputChange(LoginForm.Password, "admin123");
    form.Submit(auth, store);
    error, loading, stored, signedIn := form.error, form.loading, auth.storage, store.IsAuthenticated();
  }

  /** The overview of a signed-in broker after its load effect: "My Overview"
      with the broker's own name, the support row with the admin row's notice in its
      place, and seven steps of which the first three are complete. */
  method BrokerOverviewLoads() returns (view: BrokerOverview.View)
    ensures view.Overview? && view.title == "My Overview" && view.name == "Robert Turner"
    ensures view.brokerRow == RoleGuard.Children(BrokerOverview.BrokerContacts)
    ensures view.adminRow == RoleGuard.PermissionDenied(Admin)
    ensures |view.rows| == 7 && BrokerOverview.CompletedCount(view.rows) == 3
  {
    var store := new AppStore();
    store.SetUser(BrokerUser);
    var console := new Console();
    var steps := Api.GetWorkflowSteps();
    BrokerOverview.LoadBrokerData(store, console, Some((Api.GetBrokerInfo(), steps)));
    assert store.user == Some(BrokerUser) && store.brokerInfo == Some(Api.GetBrokerInfo()) && store.workflowSteps == steps;
    Api.PipelineShape();
    BrokerOverview.CompletedCountIsFirstThree(steps);
    BrokerOverview.RenderByRole(Some(BrokerUser), Some(Api.GetBrokerInfo()), steps);
    view := BrokerOverview.Render(store.user, store.brokerInfo, store.workflowSteps);
  }

  /** Three clicks on "Request Documents" while its first call is pending: the
      later two reach a disabled button, so one request line and one
      "documents completed:" line are written, and the button is idle again. */
  method DisabledClicksLogOnce() returns (entries: seq<Entry>, idle: bool)
    ensures entries == [Entry(Info, "Documents requested for borrower 1"), Entry(Info, "documents completed:")]
    ensures idle
  {
    var console := new Console();
    var panel := new BorrowerDetail.DetailPanel();
    var user := Some(BrokerUser);
    BorrowerDetail.OfferedByRole(user);
    var a := panel.Click(BorrowerDetail.Documents, Some(Api.Sarah), user);
    var b := panel.Click(BorrowerDetail.Documents, Some(Api.Sarah), user);
    var c := panel.Click(BorrowerDetail.Documents, Some(Api.Sarah), user);
    assert panel.inFlight == [BorrowerDetail.Call(BorrowerDetail.Documents, Api.Sarah.id)];
    panel.Settle(0, false, console);
    DocumentsLinesForSarah();
    entries := console.entries;
    idle := BorrowerDetail.ButtonFor(BorrowerDetail.Documents, panel.loading).caption == "Request Documents";
  }

  /** The clicking test as it runs: each click waits until a "Request
      Documents" button is visible and enabled, so every click comes after the
      previous call has settled. Three calls start, and three
      "documents completed:" lines are written. */
  method AwaitedClicksLogThrice() returns (entries: seq<Entry>, idle: bool)
    ensures var lines := [Entry(Info, "Documents requested for borrower 1"), Entry(Info, "documents completed:")];
      entries == lines + lines + lines
    ensures idle
  {
    var console := new Console();
    var panel := new BorrowerDetail.DetailPanel();
    var user := Some(BrokerUser);
    BorrowerDetail.OfferedByRole(user);
    DocumentsLinesForSarah();
    var call := BorrowerDetail.Call(BorrowerDetail.Documents, Api.Sarah.id);
    var lines := [Entry(Info, "Documents requested for borrower 1"), Entry(Info, "documents completed:")];
    var started := panel.Click(BorrowerDetail.Documents, Some(Api.Sarah), user);
    assert panel.inFlight == [call];
    panel.Settle(0, false, console);
    assert console.entries == lines;
    started := panel.Click(BorrowerDetail.Documents, Some(Api.Sarah), user);
    assert panel.inFlight == [call];
    panel.Settle(0, false, console);
    assert console.entries == lines + lines;
    started := panel.Click(BorrowerDetail.Documents, Some(Api.Sarah), user);
    assert panel.inFlight == [call];
    panel.Settle(0, false, console);
    entries := console.entries;
    idle := BorrowerDetail.ButtonFor(BorrowerDetail.Documents, panel.loading).caption == "Request Documents";
  }
}
