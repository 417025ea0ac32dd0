/** The broker overview of src/components/broker-overview.tsx: the load effect
    that fills two store slices, the role-dependent title, name and button
    rows, the fixed "first three steps complete" rule and the assistant switch. */
module BrokerOverview {
  import opened Types
  import opened Auth
  import opened Logging
  import opened Store
  import RoleGuard

  /** A workflow step is shown complete by position alone. */
  predicate StepComplete(index: int) {
    index < 3
  }

  /** One row of the workflow list. */
  datatype StepRow = StepRow(number: int, step: string, complete: bool)

  /** `workflowSteps.map((step, index) => ...)` */
  function StepRows(steps: seq<string>): seq<StepRow> {
    seq(|steps|, i requires 0 <= i < |steps| => StepRow(i + 1, steps[i], StepComplete(i)))
  }

  /** The number of rows shown complete. */
  function CompletedCount(rows: seq<StepRow>): nat {
    if rows == [] then 0 else (if rows[0].complete then 1 else 0) + CompletedCount(rows[1..])
  }

  function Min(a: int, b: int): int {
    if a < b then a else b
  }

  /** Rows of the steps from position `from` on: row `k` has index `from + k`. */
  lemma {:induction false} CompletedCountFrom(steps: seq<string>, from: nat)
    requires from <= |steps|
    ensures CompletedCount(StepRows(steps)[from..]) == if from >= 3 then 0 else Min(3, |steps|) - from
    decreases |steps| - from
  {
    var rows := StepRows(steps);
    if from < |steps| {
      assert rows[from..][0] == rows[from];
      assert rows[from..][1..] == rows[from + 1..];
      CompletedCountFrom(steps, from + 1);
    } else {
      assert rows[from..] == [];
    }
  }

  /** Exactly the first three steps, or all when there are fewer, are shown
      complete, whatever the steps say. */
  lemma CompletedCountIsFirstThree(steps: seq<string>)
    ensures CompletedCount(StepRows(steps)) == Min(3, |steps|)
  {
    CompletedCountFrom(steps, 0);
    assert StepRows(steps)[0..] == StepRows(steps);
  }

  /** Row `i` is numbered `i + 1`, shows step `i`, and is complete iff `i < 3`. */
  lemma StepRowAt(steps: seq<string>, i: nat)
    requires i < |steps|
    ensures |StepRows(steps)| == |steps|
    ensures StepRows(steps)[i] == StepRow(i + 1, steps[i], i < 3)
  {
  }

  function Title(user: Option<User>): string {
    if IsAdmin(user) then "Broker Overview" else "My Overview"
  }

  /** `isBroker(user) ? user?.name : brokerInfo.name` */
  function DisplayName(user: Option<User>, info: BrokerInfo): string {
    if IsBroker(user) then user.value.name else info.name
  }

  /** The captions of the contact row behind `RoleGuard brokerOnly`. */
  const BrokerContacts := ["Call Support", "Email", "Chat"]

  /** The captions of the contact row behind `RoleGuard adminOnly`. */
  const AdminContacts := ["Call Broker", "Email Broker", "Message"]

  /** What the panel shows; each contact row is what its guard renders. */
  datatype View =
    | Loading
    | Overview(title: string, name: string, info: BrokerInfo,
               brokerRow: RoleGuard.Rendered<seq<string>>,
               adminRow: RoleGuard.Rendered<seq<string>>,
               rows: seq<StepRow>)

  function Render(user: Option<User>, info: Option<BrokerInfo>, steps: seq<string>): View {
    if info.None? then Loading
    else Overview(Title(user), DisplayName(user, info.value), info.value,
                  RoleGuard.Guard(user, RoleGuard.BrokerOnly, BrokerContacts, None),
                  RoleGuard.Guard(user, RoleGuard.AdminOnly, AdminContacts, None),
                  StepRows(steps))
  }

  /** The placeholder shows exactly while there is no broker info. Admins see
      "Broker Overview", everyone else "My Overview"; a broker sees their own
      name, everyone else the broker record's. A broker sees the support row
      and the notice "Required role: Admin" in place of the other; an admin
      the broker-contact row and the notice "Required role: Broker"; without a
      user both notices show. */
  lemma RenderByRole(user: Option<User>, info: Option<BrokerInfo>, steps: seq<string>)
    ensures Render(user, info, steps).Loading? <==> info.None?
    ensures var v := Render(user, info, steps);
      v.Overview? ==>
        && (v.title == "Broker Overview" <==> IsAdmin(user))
        && (IsBroker(user) ==> v.name == user.value.name)
        && (!IsBroker(user) ==> v.name == info.value.name)
        && (IsBroker(user) ==> v.brokerRow == RoleGuard.Children(BrokerContacts) && v.adminRow == RoleGuard.PermissionDenied(Admin))
        && (IsAdmin(user) ==> v.adminRow == RoleGuard.Children(AdminContacts) && v.brokerRow == RoleGuard.PermissionDenied(Broker))
        && (user.None? ==> v.brokerRow == RoleGuard.PermissionDenied(Broker) && v.adminRow == RoleGuard.PermissionDenied(Admin))
  {
  }

  /** The load effect. `fetched` is what `Promise.all` of broker info and
      workflow steps resolved to, or `None` when either rejected. */
  method LoadBrokerData(store: AppStore, console: Console, fetched: Option<(BrokerInfo, seq<string>)>)
    modifies store, console
    ensures fetched.Some? ==>
      store.Snapshot() == Apply(Apply(old(store.Snapshot()), SetBrokerInfo(fetched.value.0)), SetWorkflowSteps(fetched.value.1))
    ensures fetched.Some? ==> store.brokerInfo == Some(fetched.value.0) && store.workflowSteps == fetched.value.1
    ensures fetched.Some? ==> console.entries == old(console.entries)
    ensures fetched.None? ==> store.Snapshot() == old(store.Snapshot())
    ensures fetched.None? ==> console.entries == old(console.entries) + [Entry(Error, "Failed to load broker data:")]
  {
    if fetched.None? {
      console.Fail("Failed to load broker data:");
      return;
    }
    var (info, steps) := fetched.value;
    store.SetBrokerInfo(info);
    store.SetWorkflowSteps(steps);
  }

  /** The AI-assistant switch, local to the panel. */
  class AssistantSwitch {
    var enabled: bool

    constructor ()
      ensures !enabled
    {
      enabled := false;
    }

    /** `onCheckedChange`: takes whatever value the switch reports. */
    method CheckedChange(checked: bool)
      modifies this
      ensures enabled == checked
    {
      enabled := checked;
    }
  }
}
