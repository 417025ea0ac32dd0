/** The mock data service of src/lib/api.ts: constant borrower, broker and
    workflow data, a lookup by id, and four action calls that always succeed,
    leave the data alone and write one console line each. */
module Api {
  import opened Types
  import opened Logging

  const Sarah := Borrower(
    "1", "Sarah Dunn", "Home Loan", 300000, "Renew",
    Some("sarah.dunn@example.com"), Some("(355)123-4557"), Some(300000),
    Some("At Tech Company"), Some(120000), Some(240000), Some(720),
    Some("Declared"), Some("Missing Source of Funds declaration"),
    Some(["Income Inconsistent with Bank statements", "High Debt-to-Income Ratio detected"]))

  const Lisa := Borrower(
    "3", "Lisa Carter", "Home Loan", 450000, "New",
    Some("lisa.carter@example.com"), Some("(355)987-6543"), Some(450000),
    Some("Senior Manager"), Some(150000), Some(180000), Some(750),
    Some("Savings"), Some("High loan amount relative to income"),
    Some(["High Debt-to-Income Ratio detected"]))

  const Alan := Borrower(
    "2", "Alan Matthews", "Personal Loan", 20000, "In Review",
    Some("alan.matthews@example.com"), Some("(355)456-7890"), Some(20000),
    Some("Freelancer"), Some(60000), Some(15000), Some(680),
    Some("Business Income"), Some("Irregular income pattern"),
    Some(["Income Inconsistent with Bank statements"]))

  const MockBorrowers := Buckets([Sarah, Lisa], [Alan], [])

  const MockBrokerInfo := BrokerInfo("Robert Turner", 16, "75%", 7660)

  const MockWorkflowSteps := [
    "Deal Intake",
    "IDV & Credit Check",
    "Document Upload",
    "AI Validation",
    "Credit Committee",
    "Approval & Docs",
    "Funder Syndication"
  ]

  function GetBorrowerPipeline(): Buckets {
    MockBorrowers
  }

  function GetBrokerInfo(): BrokerInfo {
    MockBrokerInfo
  }

  function GetWorkflowSteps(): seq<string> {
    MockWorkflowSteps
  }

  /** The pipeline holds two new borrowers, one in review and none approved;
      there are seven workflow steps. */
  lemma PipelineShape()
    ensures |GetBorrowerPipeline().newBucket| == 2 && |GetBorrowerPipeline().inReviewBucket| == 1
    ensures GetBorrowerPipeline().approvedBucket == []
    ensures |GetWorkflowSteps()| == 7 && GetWorkflowSteps()[0] == "Deal Intake" && GetWorkflowSteps()[6] == "Funder Syndication"
  {
  }

  /** The buckets in search order: new, then in review, then approved. */
  function AllBorrowers(b: Buckets): seq<Borrower> {
    b.newBucket + b.inReviewBucket + b.approvedBucket
  }

  /** `Array.prototype.find` by id: the first borrower with that id, if any. */
  function Find(bs: seq<Borrower>, id: string): (r: Option<Borrower>)
    ensures r.None? <==> forall k :: 0 <= k < |bs| ==> bs[k].id != id
    ensures r.Some? ==> exists k :: 0 <= k < |bs| && bs[k] == r.value && bs[k].id == id &&
                                    forall j :: 0 <= j < k ==> bs[j].id != id
  {
    if bs == [] then None
    else if bs[0].id == id then Some(bs[0])
    else
      var r := Find(bs[1..], id);
      assert r.Some? ==> exists k :: 1 <= k < |bs| && bs[k] == r.value && bs[k].id == id &&
                                    forall j :: 0 <= j < k ==> bs[j].id != id by {
        if r.Some? {
          var k :| 0 <= k < |bs[1..]| && bs[1..][k] == r.value && bs[1..][k].id == id &&
                   forall j :: 0 <= j < k ==> bs[1..][j].id != id;
          assert bs[k + 1] == r.value;
          forall j | 0 <= j < k + 1 ensures bs[j].id != id {
            if j > 0 { assert bs[j] == bs[1..][j - 1]; }
          }
        }
      }
      assert r.None? ==> forall k :: 0 <= k < |bs| ==> bs[k].id != id by {
        if r.None? {
          forall k | 0 <= k < |bs| ensures bs[k].id != id {
            if k > 0 { assert bs[k] == bs[1..][k - 1]; }
          }
        }
      }
      r
  }

  /** Searching a concatenation searches the front first. */
  lemma {:induction false} FindAppend(a: seq<Borrower>, b: seq<Borrower>, id: string)
    ensures Find(a + b, id) == if Find(a, id).Some? then Find(a, id) else Find(b, id)
  {
    if a != [] {
      assert (a + b)[0] == a[0];
      assert (a + b)[1..] == a[1..] + b;
      FindAppend(a[1..], b, id);
    } else {
      assert a + b == b;
    }
  }

  /** `getBorrowerDetail`: a lookup over the three buckets in order; `null`
      when no borrower has the id. */
  function GetBorrowerDetail(id: string): Option<Borrower> {
    Find(AllBorrowers(MockBorrowers), id)
  }

  /** The lookup tries the new bucket, then in review, then approved. */
  lemma GetBorrowerDetailBucketOrder(id: string)
    ensures GetBorrowerDetail(id) ==
      if Find(MockBorrowers.newBucket, id).Some? then Find(MockBorrowers.newBucket, id)
      else if Find(MockBorrowers.inReviewBucket, id).Some? then Find(MockBorrowers.inReviewBucket, id)
      else Find(MockBorrowers.approvedBucket, id)
  {
    var b := MockBorrowers;
    FindAppend(b.newBucket + b.inReviewBucket, b.approvedBucket, id);
    FindAppend(b.newBucket, b.inReviewBucket, id);
  }

  /** Ids are distinct across all buckets, so the lookup is unambiguous. */
  lemma MockIdsDistinct()
    ensures var all := AllBorrowers(MockBorrowers);
      forall i, j :: 0 <= i < j < |all| ==> all[i].id != all[j].id
  {
  }

  /** The lookup finds exactly the ids "1", "3" and "2". */
  lemma GetBorrowerDetailFound(id: string)
    ensures GetBorrowerDetail(id).Some? <==> id in {"1", "2", "3"}
    ensures id == "1" ==> GetBorrowerDetail(id) == Some(Sarah)
    ensures id == "3" ==> GetBorrowerDetail(id) == Some(Lisa)
    ensures id == "2" ==> GetBorrowerDetail(id) == Some(Alan)
  {
    var all := AllBorrowers(MockBorrowers);
    assert all == [Sarah, Lisa, Alan];
    assert all[0].id == "1" && all[1].id == "3" && all[2].id == "2";
    if GetBorrowerDetail(id).Some? {
      var k :| 0 <= k < |all| && all[k] == GetBorrowerDetail(id).value && all[k].id == id;
      assert k == 0 || k == 1 || k == 2;
    } else {
      assert all[0].id != id && all[1].id != id && all[2].id != id;
    }
  }

  /** The acknowledgement an action call resolves to. */
  datatype Ack = Ack(success: bool, message: string)

  /** `requestDocuments`: the data is constant, so the call cannot change it. */
  method RequestDocuments(id: string, console: Console) returns (r: Ack)
    modifies console
    ensures r == Ack(true, "Documents requested.")
    ensures console.entries == old(console.entries) + [Entry(Info, "Documents requested for borrower " + id)]
  {
    console.Log("Documents requested for borrower " + id);
    r := Ack(true, "Documents requested.");
  }

  method SendToValuer(id: string, console: Console) returns (r: Ack)
    modifies console
    ensures r == Ack(true, "Valuer notified.")
    ensures console.entries == old(console.entries) + [Entry(Info, "Sent to valuer for borrower " + id)]
  {
    console.Log("Sent to valuer for borrower " + id);
    r := Ack(true, "Valuer notified.");
  }

  method ApproveLoan(id: string, console: Console) returns (r: Ack)
    modifies console
    ensures r == Ack(true, "Loan approved.")
    ensures console.entries == old(console.entries) + [Entry(Info, "Loan approved for borrower " + id)]
  {
    console.Log("Loan approved for borrower " + id);
    r := Ack(true, "Loan approved.");
  }

  method EscalateToCommittee(id: string, console: Console) returns (r: Ack)
    modifies console
    ensures r == Ack(true, "Escalated to Credit Committee.")
    ensures console.entries == old(console.entries) + [Entry(Info, "Escalated to credit committee for borrower " + id)]
  {
    console.Log("Escalated to credit committee for borrower " + id);
    r := Ack(true, "Escalated to Credit Committee.");
  }

  predicate EndsWith(s: string, suffix: string) {
    |suffix| <= |s| && s[|s| - |suffix|..] == suffix
  }

  /** Each action's log line ends with the borrower id. */
  lemma ActionLinesNameBorrower(id: string)
    ensures EndsWith("Documents requested for borrower " + id, id)
    ensures EndsWith("Sent to valuer for borrower " + id, id)
    ensures EndsWith("Loan approved for borrower " + id, id)
    ensures EndsWith("Escalated to credit committee for borrower " + id, id)
  {
  }
}
