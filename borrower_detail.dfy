/** The borrower detail panel of src/components/borrower-detail.tsx: what it
    shows for the active borrower, which action buttons it offers to whom, and
    the single `loading` slot that marks the pending action. */
module BorrowerDetail {
  import opened Types
  import opened Text
  import opened Auth
  import opened Logging
  import RoleGuard
  import Api

  /** The four action buttons, by the key passed to `handleAction`. */
  datatype Action = Documents | Valuer | Approve | Escalate

  const AllActions := [Documents, Valuer, Approve, Escalate]

  function Key(a: Action): string {
    match a
    case Documents => "documents"
    case Valuer => "valuer"
    case Approve => "approve"
    case Escalate => "escalate"
  }

  function IdleLabel(a: Action): string {
    match a
    case Documents => "Request Documents"
    case Valuer => "Send to Valuer"
    case Approve => "Approve"
    case Escalate => "Escalate to Credit Committee"
  }

  function PendingLabel(a: Action): string {
    match a
    case Documents => "Requesting..."
    case Valuer => "Sending..."
    case Approve => "Approving..."
    case Escalate => "Escalating..."
  }

  /** The guard around each button: "Request Documents" has none, the other
      three sit in `RoleGuard adminOnly`. */
  function GuardOf(a: Action): RoleGuard.Requirement {
    if a == Documents then RoleGuard.Unrestricted else RoleGuard.AdminOnly
  }

  /** The actions whose buttons are rendered for a user, in page order. */
  function Offered(user: Option<User>): seq<Action> {
    if RoleGuard.HasAccess(user, RoleGuard.AdminOnly) then AllActions else [Documents]
  }

  /** An admin sees all four buttons, anyone else only "Request Documents";
      a button is present exactly when its guard admits the user. */
  lemma OfferedByRole(user: Option<User>)
    ensures IsAdmin(user) ==> Offered(user) == [Documents, Valuer, Approve, Escalate]
    ensures !IsAdmin(user) ==> Offered(user) == [Documents]
    ensures forall a :: a in Offered(user) <==> RoleGuard.HasAccess(user, GuardOf(a))
  {
  }

  /** One rendered action button. */
  datatype Button = Button(action: Action, caption: string, disabled: bool)

  function ButtonFor(a: Action, loading: Option<Action>): Button {
    var pending := loading == Some(a);
    Button(a, if pending then PendingLabel(a) else IdleLabel(a), pending)
  }

  /** The switch of `getStatusColor` on the lower-cased status. */
  function StatusColor(status: string): Color {
    var s := Lower(status);
    if s == "new" then Blue
    else if s == "in review" then Yellow
    else if s == "approved" then Green
    else Gray
  }

  /** The colour does not depend on the status's letter case. */
  lemma StatusColorIgnoresCase(status: string)
    ensures StatusColor(status) == StatusColor(Lower(status))
  {
    LowerIdempotent(status);
  }

  /** `ai_flags?.length || 0` */
  function RiskCount(b: Borrower): nat {
    if b.aiFlags.Some? then |b.aiFlags.value| else 0
  }

  /** `ai_flags?.map(...)`: the listed flags, in order. */
  function RiskFlags(b: Borrower): seq<string> {
    b.aiFlags.GetOr([])
  }

  lemma RiskCountCountsListedFlags(b: Borrower)
    ensures RiskCount(b) == |RiskFlags(b)|
    ensures b.aiFlags.Some? ==> RiskFlags(b) == b.aiFlags.value
  {
  }

  /** What the panel shows. `slots` holds one entry per action in page order:
      the button, or what its denying guard renders in its place. */
  datatype View =
    | Placeholder
    | Details(borrower: Borrower, statusColor: Color, riskCount: nat, flags: seq<string>,
              slots: seq<RoleGuard.Rendered<Button>>)

  /** An action's place on the page. The unguarded "Request Documents" button
      goes through a guard with no requirement, which always shows it. */
  function Slot(a: Action, loading: Option<Action>, user: Option<User>): RoleGuard.Rendered<Button> {
    RoleGuard.Guard(user, GuardOf(a), ButtonFor(a, loading), None)
  }

  function Render(active: Option<Borrower>, loading: Option<Action>, user: Option<User>): View {
    if active.None? then Placeholder
    else
      var b := active.value;
      Details(b, StatusColor(b.status), RiskCount(b), RiskFlags(b),
              seq(|AllActions|, i requires 0 <= i < |AllActions| => Slot(AllActions[i], loading, user)))
  }

  /** Without an active borrower only the placeholder shows. With one, the
      panel shows that borrower and, for each action in page order, its button
      when offered to the user, and otherwise the notice "Required role: Admin";
      a shown button is disabled and shows its pending label exactly when its
      action is the pending one. */
  lemma RenderButtons(active: Option<Borrower>, loading: Option<Action>, user: Option<User>)
    ensures Render(active, loading, user).Placeholder? <==> active.None?
    ensures var v := Render(active, loading, user);
      v.Details? ==>
        && v.borrower == active.value
        && |v.slots| == |AllActions|
        && forall i :: 0 <= i < |v.slots| ==>
             && (v.slots[i].Children? <==> AllActions[i] in Offered(user))
             && (!v.slots[i].Children? ==> v.slots[i] == RoleGuard.PermissionDenied(Admin))
             && (v.slots[i].Children? ==>
                   && v.slots[i].node.action == AllActions[i]
                   && (v.slots[i].node.disabled <==> loading == Some(AllActions[i]))
                   && (v.slots[i].node.caption == PendingLabel(AllActions[i]) <==> loading == Some(AllActions[i]))
                   && (loading != Some(AllActions[i]) ==> v.slots[i].node.caption == IdleLabel(AllActions[i])))
  {
  }

  /** Calls started by `handleAction` and not settled yet. */
  datatype Call = Call(action: Action, borrowerId: string)

  /** The console line the mock API writes when a call resolves. */
  function ApiLine(c: Call): string {
    match c.action
    case Documents => "Documents requested for borrower " + c.borrowerId
    case Valuer => "Sent to valuer for borrower " + c.borrowerId
    case Approve => "Loan approved for borrower " + c.borrowerId
    case Escalate => "Escalated to credit committee for borrower " + c.borrowerId
  }

  function CompletedLine(a: Action): string {
    Key(a) + " completed:"
  }

  function FailedLine(a: Action): string {
    Key(a) + " failed:"
  }

  /** The success and failure lines start with the action key and differ. */
  lemma OutcomeLinesNameAction(a: Action)
    ensures CompletedLine(a)[..|Key(a)|] == Key(a) && FailedLine(a)[..|Key(a)|] == Key(a)
    ensures CompletedLine(a) != FailedLine(a)
  {
    assert CompletedLine(a)[|Key(a)|..] == " completed:";
    assert FailedLine(a)[|Key(a)|..] == " failed:";
  }

  /** The panel's local state: the `loading` slot, and the calls in flight. */
  class DetailPanel {
    var loading: Option<Action>
    var inFlight: seq<Call>

    constructor ()
      ensures loading == None && inFlight == []
    {
      loading, inFlight := None, [];
    }

    /** A click on action `a`'s button. It is rendered only with an active
        borrower and when its guard admits the user, and does nothing while
        disabled; otherwise `handleAction` sets `loading` and starts the call. */
    method Click(a: Action, active: Option<Borrower>, user: Option<User>) returns (started: bool)
      modifies this
      ensures started <==> active.Some? && a in Offered(user) && old(loading) != Some(a)
      ensures started ==> loading == Some(a) && inFlight == old(inFlight) + [Call(a, active.value.id)]
      ensures !started ==> loading == old(loading) && inFlight == old(inFlight)
    {
      started := active.Some? && a in Offered(user) && loading != Some(a);
      if started {
        loading := Some(a);
        inFlight := inFlight + [Call(a, active.value.id)];
      }
    }

    /** The `i`-th call in flight settles. `threw` says whether its promise
        rejected (the mock calls never do). The mock logs its own line and
        resolves, then `handleAction` logs the outcome; the `finally` clears
        `loading` whichever action it held. */
    method Settle(i: nat, threw: bool, console: Console)
      requires i < |inFlight|
      modifies this, console
      ensures loading == None
      ensures inFlight == old(inFlight[..i] + inFlight[i + 1..])
      ensures var c := old(inFlight[i]);
        console.entries == old(console.entries) +
          if threw then [Entry(Error, FailedLine(c.action))]
          else [Entry(Info, ApiLine(c)), Entry(Info, CompletedLine(c.action))]
    {
      var c := inFlight[i];
      inFlight := inFlight[..i] + inFlight[i + 1..];
      if threw {
        console.Fail(FailedLine(c.action));
      } else {
        var ack: Api.Ack;
        match c.action {
          case Documents => ack := Api.RequestDocuments(c.borrowerId, console);
          case Valuer => ack := Api.SendToValuer(c.borrowerId, console);
          case Approve => ack := Api.ApproveLoan(c.borrowerId, console);
          case Escalate => ack := Api.EscalateToCommittee(c.borrowerId, console);
        }
        console.Log(CompletedLine(c.action));
      }
      loading := None;
    }

    /** Repeated clicks on one button while its call is pending start exactly
        one call: the later clicks reach a button disabled by `loading`. */
    method RepeatedClicksStartOneCall(a: Action, b: Borrower, user: Option<User>)
      requires a in Offered(user) && loading != Some(a)
      modifies this
      ensures loading == Some(a) && inFlight == old(inFlight) + [Call(a, b.id)]
    {
      var s1 := Click(a, Some(b), user);
      var s2 := Click(a, Some(b), user);
      var s3 := Click(a, Some(b), user);
      assert s1 && !s2 && !s3;
    }

    /** The single slot does not deduplicate across actions: clicking another
        button re-enables the first, and a second click on it starts a
        second identical call. */
    method InterleavedClicksDuplicateCall(b: Borrower)
      requires loading == None && inFlight == []
      modifies this
      ensures inFlight == [Call(Documents, b.id), Call(Valuer, b.id), Call(Documents, b.id)]
    {
      var user := Some(AdminUser);
      var s1 := Click(Documents, Some(b), user);
      var s2 := Click(Valuer, Some(b), user);
      var s3 := Click(Documents, Some(b), user);
    }
  }
}
