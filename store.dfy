/** The application state store of src/lib/store.ts: one record of slices,
    each with a setter that replaces exactly that slice.

    The `user` slice, `isAuthenticated` and `setUser` are read by the role
    guard, the auth wrapper and the login form but are not declared in the
    store as written; they are added here as an assumption, with
    `isAuthenticated` standing for `user != null`. */
module Store {
  import opened Types

  /** The slices, as one value. */
  datatype AppState = AppState(
    activeBorrower: Option<Borrower>,
    activeTab: Tab,
    borrowers: Buckets,
    brokerInfo: Option<BrokerInfo>,
    workflowSteps: seq<string>,
    user: Option<User>)

  const InitialState := AppState(None, New, EmptyBuckets, None, [], None)

  /** One setter call. */
  datatype Update =
    | SetActiveBorrower(borrower: Borrower)
    | SetActiveTab(tab: Tab)
    | SetBorrowers(buckets: Buckets)
    | SetBrokerInfo(info: BrokerInfo)
    | SetWorkflowSteps(steps: seq<string>)
    | SetUser(u: User)

  /** The slice a setter writes. */
  datatype Slice = ActiveBorrowerSlice | ActiveTabSlice | BorrowersSlice | BrokerInfoSlice | WorkflowStepsSlice | UserSlice

  function Target(u: Update): Slice {
    match u
    case SetActiveBorrower(_) => ActiveBorrowerSlice
    case SetActiveTab(_) => ActiveTabSlice
    case SetBorrowers(_) => BorrowersSlice
    case SetBrokerInfo(_) => BrokerInfoSlice
    case SetWorkflowSteps(_) => WorkflowStepsSlice
    case SetUser(_) => UserSlice
  }

  /** Two states hold the same value in one slice. */
  predicate AgreeOn(s: AppState, t: AppState, slice: Slice) {
    match slice
    case ActiveBorrowerSlice => s.activeBorrower == t.activeBorrower
    case ActiveTabSlice => s.activeTab == t.activeTab
    case BorrowersSlice => s.borrowers == t.borrowers
    case BrokerInfoSlice => s.brokerInfo == t.brokerInfo
    case WorkflowStepsSlice => s.workflowSteps == t.workflowSteps
    case UserSlice => s.user == t.user
  }

  /** `set({ slice: value })`: a shallow replacement of one slice, no merge. */
  function Apply(s: AppState, u: Update): AppState {
    match u
    case SetActiveBorrower(b) => s.(activeBorrower := Some(b))
    case SetActiveTab(t) => s.(activeTab := t)
    case SetBorrowers(b) => s.(borrowers := b)
    case SetBrokerInfo(i) => s.(brokerInfo := Some(i))
    case SetWorkflowSteps(w) => s.(workflowSteps := w)
    case SetUser(v) => s.(user := Some(v))
  }

  /** The value a setter writes, read back from its slice. */
  predicate Holds(s: AppState, u: Update) {
    match u
    case SetActiveBorrower(b) => s.activeBorrower == Some(b)
    case SetActiveTab(t) => s.activeTab == t
    case SetBorrowers(b) => s.borrowers == b
    case SetBrokerInfo(i) => s.brokerInfo == Some(i)
    case SetWorkflowSteps(w) => s.workflowSteps == w
    case SetUser(v) => s.user == Some(v)
  }

  /** Each setter writes its value into its own slice and leaves every other
      slice as it was. */
  lemma ApplyWritesOnlyTarget(s: AppState, u: Update)
    ensures Holds(Apply(s, u), u)
    ensures forall slice :: slice != Target(u) ==> AgreeOn(Apply(s, u), s, slice)
  {
  }

  /** A state that agrees with another in every slice is that state. */
  lemma AgreeEverywhereIsEqual(s: AppState, t: AppState)
    requires forall slice :: AgreeOn(s, t, slice)
    ensures s == t
  {
    assert AgreeOn(s, t, ActiveBorrowerSlice) && AgreeOn(s, t, ActiveTabSlice) && AgreeOn(s, t, BorrowersSlice);
    assert AgreeOn(s, t, BrokerInfoSlice) && AgreeOn(s, t, WorkflowStepsSlice) && AgreeOn(s, t, UserSlice);
  }

  /** Every setter is idempotent. */
  lemma ApplyIdempotent(s: AppState, u: Update)
    ensures Apply(Apply(s, u), u) == Apply(s, u)
  {
  }

  /** Setters of different slices commute. */
  lemma ApplyCommutes(s: AppState, u: Update, v: Update)
    requires Target(u) != Target(v)
    ensures Apply(Apply(s, u), v) == Apply(Apply(s, v), u)
  {
  }

  /** `setActiveBorrower` does not check membership: the store admits an
      active borrower that is in no bucket. */
  lemma ActiveBorrowerNeedNotBeListed(b: Borrower)
    ensures var s := Apply(InitialState, SetActiveBorrower(b));
      s.activeBorrower == Some(b) && b !in s.borrowers.newBucket + s.borrowers.inReviewBucket + s.borrowers.approvedBucket
  {
  }

  /** The store, one mutable instance per page. */
  class AppStore {
    var activeBorrower: Option<Borrower>
    var activeTab: Tab
    var borrowers: Buckets
    var brokerInfo: Option<BrokerInfo>
    var workflowSteps: seq<string>
    var user: Option<User>

    function Snapshot(): AppState
      reads this
    {
      AppState(activeBorrower, activeTab, borrowers, brokerInfo, workflowSteps, user)
    }

    /** `isAuthenticated` (assumed): a user is set. */
    predicate IsAuthenticated()
      reads this
    {
      user.Some?
    }

    constructor ()
      ensures Snapshot() == InitialState
      ensures activeBorrower == None && activeTab == New && borrowers == EmptyBuckets
      ensures brokerInfo == None && workflowSteps == [] && user == None
    {
      activeBorrower, activeTab, borrowers := None, New, EmptyBuckets;
      brokerInfo, workflowSteps, user := None, [], None;
    }

    method SetActiveBorrower(b: Borrower)
      modifies this
      ensures Snapshot() == Apply(old(Snapshot()), Update.SetActiveBorrower(b))
    {
      activeBorrower := Some(b);
    }

    method SetActiveTab(tab: Tab)
      modifies this
      ensures Snapshot() == Apply(old(Snapshot()), Update.SetActiveTab(tab))
    {
      activeTab := tab;
    }

    method SetBorrowers(buckets: Buckets)
      modifies this
      ensures Snapshot() == Apply(old(Snapshot()), Update.SetBorrowers(buckets))
    {
      borrowers := buckets;
    }

    method SetBrokerInfo(info: BrokerInfo)
      modifies this
      ensures Snapshot() == Apply(old(Snapshot()), Update.SetBrokerInfo(info))
    {
      brokerInfo := Some(info);
    }

    method SetWorkflowSteps(steps: seq<string>)
      modifies this
      ensures Snapshot() == Apply(old(Snapshot()), Update.SetWorkflowSteps(steps))
    {
      workflowSteps := steps;
    }

    /** `setUser` (assumed): sets the user and so makes the store authenticated. */
    method SetUser(u: User)
      modifies this
      ensures Snapshot() == Apply(old(Snapshot()), Update.SetUser(u))
      ensures IsAuthenticated()
    {
      user := Some(u);
    }
  }
}
