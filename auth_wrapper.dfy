/** The session-restore rule of src/components/auth-wrapper.tsx: on mount a
    stored session is copied into the store, but only when the store has no
    user yet; without a user the login form is shown instead of the page. */
module AuthWrapper {
  import opened Types
  import opened Auth
  import opened Store

  /** The store's user after the restore effect. */
  function RestoredUser(current: Option<User>, stored: StoredSession): Option<User> {
    var saved := ReadSession(stored);
    if saved.Some? && current.None? then saved else current
  }

  /** Restoring never replaces a signed-in user, adopts a saved session when
      nobody is signed in, and reads a missing or unreadable record as
      "not logged in"; running it again changes nothing. */
  lemma RestoredUserRule(current: Option<User>, stored: StoredSession)
    ensures current.Some? ==> RestoredUser(current, stored) == current
    ensures current.None? && stored.Saved? ==> RestoredUser(current, stored) == Some(stored.user)
    ensures !stored.Saved? ==> RestoredUser(current, stored) == current
    ensures RestoredUser(RestoredUser(current, stored), stored) == RestoredUser(current, stored)
  {
  }

  /** The restore effect. */
  method RestoreSession(auth: AuthService, store: AppStore)
    modifies store
    ensures store.user == RestoredUser(old(store.user), auth.storage)
    ensures store.Snapshot() == old(store.Snapshot()).(user := store.user)
  {
    var currentUser := auth.GetCurrentUser();
    if currentUser.Some? && store.user.None? {
      store.SetUser(currentUser.value);
    }
  }

  /** `!isAuthenticated` renders the login form in place of the page. */
  predicate ShowsLoginForm(s: AppState) {
    s.user.None?
  }
}
