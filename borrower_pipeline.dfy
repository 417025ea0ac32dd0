/** The borrower pipeline of src/components/borrower-pipeline.tsx: the tab of
    buckets, the highlighted card, the load effect that fills the store and
    auto-selects the first new borrower, and the card's status colour. */
module BorrowerPipeline {
  import opened Types
  import opened Text
  import opened Logging
  import opened Store
  import BorrowerDetail

  /** `borrowers[activeTab] || []`; with typed buckets the fallback never applies. */
  function CurrentBorrowers(b: Buckets, tab: Tab): seq<Borrower> {
    b.Get(tab)
  }

  /** The count in each tab label. */
  function TabCount(b: Buckets, tab: Tab): nat {
    |b.Get(tab)|
  }

  /** `BorrowerCard.getStatusColor`: the detail panel's switch with an extra
      "renew" case. */
  function CardStatusColor(status: string): Color {
    var s := Lower(status);
    if s == "new" then Blue
    else if s == "in review" then Yellow
    else if s == "renew" then Green
    else if s == "approved" then Green
    else Gray
  }

  /** The card colour agrees with the detail panel's except that "renew",
      in any letter case, is green instead of gray. */
  lemma CardColorDiffersOnlyOnRenew(status: string)
    ensures CardStatusColor(status) == if Lower(status) == "renew" then Green else BorrowerDetail.StatusColor(status)
    ensures Lower(status) == "renew" ==> BorrowerDetail.StatusColor(status) == Gray
  {
  }

  /** `activeBorrower?.id === borrower.id` */
  predicate IsActive(active: Option<Borrower>, b: Borrower) {
    active.Some? && active.value.id == b.id
  }

  predicate DistinctIds(bs: seq<Borrower>) {
    forall i, j :: 0 <= i < j < |bs| ==> bs[i].id != bs[j].id
  }

  /** The number of highlighted cards in a list. */
  function CountActive(active: Option<Borrower>, bs: seq<Borrower>): nat {
    if bs == [] then 0 else (if IsActive(active, bs[0]) then 1 else 0) + CountActive(active, bs[1..])
  }

  lemma {:induction false} NoneActiveCountsZero(active: Option<Borrower>, bs: seq<Borrower>)
    requires forall k :: 0 <= k < |bs| ==> !IsActive(active, bs[k])
    ensures CountActive(active, bs) == 0
  {
    if bs != [] {
      assert forall k :: 0 <= k < |bs[1..]| ==> bs[1..][k] == bs[k + 1];
      NoneActiveCountsZero(active, bs[1..]);
    }
  }

  /** With distinct ids at most one card of a tab is highlighted. */
  lemma {:induction false} AtMostOneActiveCard(active: Option<Borrower>, bs: seq<Borrower>)
    requires DistinctIds(bs)
    ensures CountActive(active, bs) <= 1
  {
    if bs != [] {
      var rest := bs[1..];
      assert forall k :: 0 <= k < |rest| ==> rest[k] == bs[k + 1];
      if IsActive(active, bs[0]) {
        forall k | 0 <= k < |rest| ensures !IsActive(active, rest[k]) {
          assert bs[0].id != bs[k + 1].id;
        }
        NoneActiveCountsZero(active, rest);
      } else {
        AtMostOneActiveCard(active, rest);
      }
    }
  }

  /** One rendered card. */
  datatype Card = Card(borrower: Borrower, active: bool, color: Color)

  /** A tab's content: its cards, or the notice of an empty approved bucket. */
  datatype TabView = Cards(cards: seq<Card>) | NoApprovedBorrowers

  function RenderTab(b: Buckets, tab: Tab, active: Option<Borrower>): TabView {
    var bs := b.Get(tab);
    if tab == Approved && |bs| == 0 then NoApprovedBorrowers
    else Cards(seq(|bs|, i requires 0 <= i < |bs| => Card(bs[i], IsActive(active, bs[i]), CardStatusColor(bs[i].status))))
  }

  /** Each tab shows its own bucket's borrowers in order, highlighting the
      active one; only an empty approved bucket shows the notice instead. */
  lemma RenderTabShowsBucket(b: Buckets, tab: Tab, active: Option<Borrower>)
    ensures RenderTab(b, tab, active).NoApprovedBorrowers? <==> tab == Approved && b.approvedBucket == []
    ensures var v := RenderTab(b, tab, active);
      v.Cards? ==>
        && |v.cards| == TabCount(b, tab)
        && forall i :: 0 <= i < |v.cards| ==>
             v.cards[i].borrower == CurrentBorrowers(b, tab)[i] &&
             (v.cards[i].active <==> IsActive(active, CurrentBorrowers(b, tab)[i]))
  {
  }

  /** The store after the load effect received `data`: the buckets are
      replaced, and `new[0]` becomes active if nothing was. */
  function AfterLoad(s: AppState, data: Buckets): AppState {
    var t := Apply(s, SetBorrowers(data));
    if s.activeBorrower.None? && |data.newBucket| > 0 then Apply(t, SetActiveBorrower(data.newBucket[0])) else t
  }

  /** Load replaces the buckets; it selects `new[0]` exactly when nothing was
      selected and the new bucket is non-empty, and otherwise keeps the
      selection; nothing else changes. */
  lemma AfterLoadEffect(s: AppState, data: Buckets)
    ensures AfterLoad(s, data).borrowers == data
    ensures s.activeBorrower.None? && |data.newBucket| > 0 ==> AfterLoad(s, data).activeBorrower == Some(data.newBucket[0])
    ensures s.activeBorrower.Some? || data.newBucket == [] ==> AfterLoad(s, data).activeBorrower == s.activeBorrower
    ensures AfterLoad(s, data).(borrowers := s.borrowers, activeBorrower := s.activeBorrower) == s
  {
  }

  /** The effect re-runs whenever the selection changes; loading the same data
      again changes nothing. */
  lemma AfterLoadIdempotent(s: AppState, data: Buckets)
    ensures AfterLoad(AfterLoad(s, data), data) == AfterLoad(s, data)
  {
  }

  /** An auto-selected borrower is a member of the loaded new bucket. */
  lemma AfterLoadSelectionIsListed(s: AppState, data: Buckets)
    requires s.activeBorrower.None?
    requires AfterLoad(s, data).activeBorrower.Some?
    ensures AfterLoad(s, data).activeBorrower.value in data.newBucket
  {
  }

  /** The load effect. `fetched` is what `getBorrowerPipeline` resolved to,
      or `None` when it rejected, in which case only an error is logged. */
  method LoadBorrowers(store: AppStore, console: Console, fetched: Option<Buckets>)
    modifies store, console
    ensures fetched.Some? ==> store.Snapshot() == AfterLoad(old(store.Snapshot()), fetched.value)
    ensures fetched.Some? ==> console.entries == old(console.entries)
    ensures fetched.None? ==> store.Snapshot() == old(store.Snapshot())
    ensures fetched.None? ==> console.entries == old(console.entries) + [Entry(Error, "Failed to load borrowers:")]
  {
    if fetched.None? {
      console.Fail("Failed to load borrowers:");
      return;
    }
    var data := fetched.value;
    var wasActive := store.activeBorrower;
    store.SetBorrowers(data);
    if wasActive.None? && |data.newBucket| > 0 {
      store.SetActiveBorrower(data.newBucket[0]);
    }
  }

  /** A click on a card makes exactly that borrower active. */
  method SelectCard(store: AppStore, b: Borrower)
    modifies store
    ensures store.Snapshot() == old(store.Snapshot()).(activeBorrower := Some(b))
  {
    store.SetActiveBorrower(b);
  }

  /** A click on a tab trigger. */
  method SelectTab(store: AppStore, tab: Tab)
    modifies store
    ensures store.Snapshot() == old(store.Snapshot()).(activeTab := tab)
  {
    store.SetActiveTab(tab);
  }
}
