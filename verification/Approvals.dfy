/** Permission requests across every transaction. */
module Approvals {
  import opened Model
  import opened Journal
  import opened Rules
  import opened Invariants

  type Decisions = map<RequestId, string>

  lemma ConsumeRequestWaiting(approvals: seq<ApprovalRow>, i: nat, r: RunId)
    requires i < |approvals|
    requires forall k :: 0 <= k < |approvals| && approvals[k].request == approvals[i].request ==> k == i
    ensures r != approvals[i].run ==> (Waiting(ConsumeRequest(approvals, approvals[i].request), r) <==> Waiting(approvals, r))
    ensures Waiting(ConsumeRequest(approvals, approvals[i].request), r) ==> Waiting(approvals, r)
  {
    var after := ConsumeRequest(approvals, approvals[i].request);
    if r != approvals[i].run && Waiting(approvals, r) {
      var k :| 0 <= k < |approvals| && approvals[k].run == r && !approvals[k].consumed;
      assert after[k].run == r && !after[k].consumed;
    }
    if Waiting(after, r) {
      var k :| 0 <= k < |after| && after[k].run == r && !after[k].consumed;
      assert approvals[k].run == r && !approvals[k].consumed;
    }
  }

  /** Answering one open request, by command or by policy. */
  lemma AnswerKeeps(j: Journal, i: nat, decisions: Decisions, option: string)
    requires ApprovalsOk(j.runs, j.approvals, j.decisions) && i < |j.approvals| && !j.approvals[i].consumed
    requires decisions == j.decisions || decisions == j.decisions[j.approvals[i].request := option]
    ensures var k := Answer(j, j.approvals[i].request, j.approvals[i].run); ApprovalsOk(k.runs, k.approvals, decisions)
  {
    var a := j.approvals[i];
    assert Waiting(j.approvals, a.run);
    forall r | IsRun(j.runs, r)
      ensures r != a.run ==> (Waiting(ConsumeRequest(j.approvals, a.request), r) <==> Waiting(j.approvals, r))
    {
      ConsumeRequestWaiting(j.approvals, i, r);
    }
    RowsKeep(j.runs, j.approvals, ConsumeRequest(j.approvals, a.request), j.decisions);
  }

  /** Marking rows consumed disturbs neither their identity nor earlier decisions. */
  lemma RowsKeep(runs: seq<RunRow>, approvals: seq<ApprovalRow>, after: seq<ApprovalRow>, decisions: Decisions)
    requires ApprovalRowsOk(runs, approvals, decisions) && |after| == |approvals|
    requires forall i :: 0 <= i < |after| ==> after[i] == approvals[i] || after[i] == approvals[i].(consumed := true)
    ensures ApprovalRowsOk(runs, after, decisions)
  {
    forall q | q in decisions
      ensures exists i :: 0 <= i < |after| && after[i].request == q && after[i].consumed
    {
      var i :| 0 <= i < |approvals| && approvals[i].request == q && approvals[i].consumed;
      assert after[i].request == q && after[i].consumed;
    }
  }

  lemma ExpireOneKeeps(cfg: Config, j: Journal, i: nat)
    requires ApprovalsOk(j.runs, j.approvals, j.decisions) && i < |j.approvals| && !j.approvals[i].consumed
    ensures var k := ExpireOne(cfg, j, j.approvals[i]).journal; ApprovalsOk(k.runs, k.approvals, k.decisions)
  {
    var a := j.approvals[i];
    assert Waiting(j.approvals, a.run);
    forall r | IsRun(j.runs, r)
      ensures r != a.run ==> (Waiting(ConsumeRequest(j.approvals, a.request), r) <==> Waiting(j.approvals, r))
    {
      ConsumeRequestWaiting(j.approvals, i, r);
    }
    RowsKeep(j.runs, j.approvals, ConsumeRequest(j.approvals, a.request), j.decisions);
  }

  /** A run leaves for a state in which it waits for nobody, taking its requests with it. */
  lemma CloseKeeps(runs: seq<RunRow>, approvals: seq<ApprovalRow>, decisions: Decisions, run: RunId, status: Status)
    requires ApprovalsOk(runs, approvals, decisions) && IsRun(runs, run) && !status.WaitingApproval?
    ensures ApprovalsOk(SetStatus(runs, run, status), ConsumeRun(approvals, run), decisions)
  {
    var after := ConsumeRun(approvals, run);
    RowsKeep(runs, approvals, after, decisions);
    forall r | IsRun(runs, r) && r != run
      ensures Waiting(after, r) <==> Waiting(approvals, r)
    {
      if Waiting(approvals, r) {
        var k :| 0 <= k < |approvals| && approvals[k].run == r && !approvals[k].consumed;
        assert after[k].run == r && !after[k].consumed;
      }
    }
  }

  lemma AskKeeps(runs: seq<RunRow>, approvals: seq<ApprovalRow>, decisions: Decisions, row: ApprovalRow)
    requires ApprovalsOk(runs, approvals, decisions) && IsRun(runs, row.run) && !row.consumed
    requires FindApproval(approvals, row.request).None?
    ensures ApprovalsOk(SetStatus(runs, row.run, WaitingApproval), approvals + [row], decisions)
  {
    var after := approvals + [row];
    assert after[|approvals|] == row;
    forall q | q in decisions
      ensures exists i :: 0 <= i < |after| && after[i].request == q && after[i].consumed
    {
      var i :| 0 <= i < |approvals| && approvals[i].request == q && approvals[i].consumed;
      assert after[i].request == q && after[i].consumed;
    }
    forall r | IsRun(runs, r)
      ensures Waiting(after, r) <==> Waiting(approvals, r) || r == row.run
    {
      if Waiting(approvals, r) {
        var k :| 0 <= k < |approvals| && approvals[k].run == r && !approvals[k].consumed;
        assert after[k].run == r && !after[k].consumed;
      }
    }
  }

  lemma DispatchKeeps(runs: seq<RunRow>, approvals: seq<ApprovalRow>, decisions: Decisions, run: RunId)
    requires ApprovalsOk(runs, approvals, decisions) && IsRun(runs, run) && runs[run].status.Queued?
    ensures ApprovalsOk(SetStatus(runs, run, Running), approvals, decisions)
  {}

  lemma AddRunKeeps(runs: seq<RunRow>, approvals: seq<ApprovalRow>, decisions: Decisions, row: RunRow)
    requires ApprovalsOk(runs, approvals, decisions) && row.status.Queued?
    ensures ApprovalsOk(runs + [row], approvals, decisions)
  {
    assert !Waiting(approvals, |runs|);
  }
}
