/**
 Transactions that start nothing, end nothing and take no follow-up in: statuses move among active ones, follow-ups are
 at most dropped. Answering a request, letting it expire, stopping a run and all that policy does on its own are of this
 kind.
 */
module SoftSteps {
  import opened Model
  import opened Journal
  import opened Rules
  import opened Invariants
  import opened Steps
  import opened EventSteps
  import opened Recovery
  import opened Delivery

  lemma SameRuns(j: Journal, k: Journal)
    requires k.runs == j.runs && k.inputs == j.inputs && k.steers == j.steers
    ensures Soft(j, k)
  {}

  lemma SoftStatus(j: Journal, k: Journal, r: RunId, status: Status)
    requires IsRun(j.runs, r) && k.runs == SetStatus(j.runs, r, status) && k.inputs == j.inputs && k.steers == j.steers
    requires j.runs[r].status.Active() && !j.runs[r].status.Queued? && !j.runs[r].status.Cancelling?
    requires status.Running? || status.WaitingApproval?
    ensures Soft(j, k)
  {}

  lemma AnswerSoft(j: Journal, i: nat)
    requires ApprovalsOk(j.runs, j.approvals, j.decisions) && i < |j.approvals| && !j.approvals[i].consumed
    ensures Soft(j, Answer(j, j.approvals[i].request, j.approvals[i].run))
  {
    var a := j.approvals[i];
    assert Waiting(j.approvals, a.run);
    var k := Answer(j, a.request, a.run);
    if k.runs == j.runs { SameRuns(j, k); } else { SoftStatus(j, k, a.run, Running); }
  }

  lemma AutoOneSoft(cfg: Config, j: Journal, a: ApprovalRow)
    requires ApprovalsOk(j.runs, j.approvals, j.decisions) && StillOpen(j.approvals, a)
    ensures Soft(j, AutoOne(cfg, j, a).journal)
  {
    var i :| 0 <= i < |j.approvals| && j.approvals[i] == a && !a.consumed;
    AnswerSoft(j, i);
  }

  lemma ExpireOneSoft(cfg: Config, j: Journal, a: ApprovalRow)
    ensures Soft(j, ExpireOne(cfg, j, a).journal)
  {
    var k := ExpireOne(cfg, j, a).journal;
    if k.runs == j.runs { SameRuns(j, k); } else { SoftStatus(j, k, a.run, Running); }
  }

  lemma {:induction false} AutoAllSoft(cfg: Config, j: Journal, rows: seq<ApprovalRow>)
    requires Inv(cfg, j) && Queried(j, rows)
    ensures Soft(j, AutoAll(cfg, j, rows).journal)
    decreases |rows|
  {
    if rows != [] {
      var front, a := rows[..|rows| - 1], rows[|rows| - 1];
      QueriedPrefix(j, rows);
      AutoAllSoft(cfg, j, front);
      AutoAllGood(cfg, j, front);
      AutoAllOpen(cfg, j, front, a);
      var m := AutoAll(cfg, j, front).journal;
      AutoOneSoft(cfg, m, a);
      SoftTransitive(j, m, AutoOne(cfg, m, a).journal);
    }
  }

  lemma {:induction false} ExpireAllSoft(cfg: Config, j: Journal, rows: seq<ApprovalRow>)
    ensures Soft(j, ExpireAll(cfg, j, rows).journal)
    decreases |rows|
  {
    if rows != [] {
      var front := rows[..|rows| - 1];
      ExpireAllSoft(cfg, j, front);
      var m := ExpireAll(cfg, j, front).journal;
      ExpireOneSoft(cfg, m, rows[|rows| - 1]);
      SoftTransitive(j, m, ExpireAll(cfg, j, rows).journal);
    }
  }

  lemma StopRunSoft(j: Journal, run: RunId, statements: nat)
    requires IsRun(j.runs, run)
    ensures Soft(j, StopRun(j, run, statements))
  {
    var k := StopRun(j, run, statements);
    StopRunTables(j, k, run, statements);
    StoppedSoft(j, k, run, statements);
  }

  lemma StopRunTables(j: Journal, k: Journal, run: RunId, statements: nat)
    requires IsRun(j.runs, run) && k == StopRun(j, run, statements)
    ensures k.inputs == j.inputs
    ensures k.steers == if statements >= 1 then CancelRunSteers(j.steers, run) else j.steers
    ensures k.runs == if statements >= 2 && j.runs[run].status.Active() then SetStatus(j.runs, run, Status.Cancelling) else j.runs
  {
    var j1 := if statements >= 1 then j.(steers := CancelRunSteers(j.steers, run)) else j;
    if !j.runs[run].status.Active() {
      assert k == j1;
    } else {
      var j2 := if statements >= 2 then j1.(runs := SetStatus(j.runs, run, Status.Cancelling)) else j1;
      assert k == if statements >= 3 then j2.(approvals := ConsumeRun(j.approvals, run)) else j2;
    }
  }

  lemma StoppedSoft(j: Journal, k: Journal, run: RunId, statements: nat)
    requires IsRun(j.runs, run) && k.inputs == j.inputs
    requires k.steers == if statements >= 1 then CancelRunSteers(j.steers, run) else j.steers
    requires k.runs == if statements >= 2 && j.runs[run].status.Active() then SetStatus(j.runs, run, Status.Cancelling) else j.runs
    ensures Soft(j, k)
  {}

  lemma {:induction false} ReconcileAllSoft(cfg: Config, j: Journal, runs: seq<RunId>, room: RoomSnapshot)
    ensures Soft(j, ReconcileAll(cfg, j, runs, room).journal)
    decreases |runs|
  {
    if runs != [] {
      var front, last := runs[..|runs| - 1], runs[|runs| - 1];
      ReconcileAllSoft(cfg, j, front, room);
      var m := ReconcileAll(cfg, j, front, room).journal;
      if IsRun(m.runs, last) { StopRunSoft(m, last, 3); }
      SoftTransitive(j, m, ReconcileAll(cfg, j, runs, room).journal);
    }
  }

  /** A crash inside an operation leaves nothing but settled follow-ups, unless it was resuming them. */
  lemma TornSoft(cfg: Config, j: Journal, torn: Torn)
    requires Inv(cfg, j) && !torn.Resuming?
    ensures Soft(j, TornBy(cfg, j, torn))
  {
    SoftReflexive(j);
    match torn
    case Whole =>
    case Answering(now, n) =>
      OpenQueried(j, now, |j.approvals|);
      PrefixQueried(j, Open(j, now, |j.approvals|), n);
      AutoAllSoft(cfg, j, Upto(Open(j, now, |j.approvals|), n));
    case Reconciling(id, room, n, statements) =>
      var runs := EngagedRuns(j, id, |j.runs|);
      HalfStoppedSoft(cfg, j, Upto(runs, n), if n < |runs| then runs[n] else -1, room, statements);
  }

  lemma HalfStoppedSoft(cfg: Config, j: Journal, stopped: seq<RunId>, run: int, room: RoomSnapshot, statements: nat)
    ensures Soft(j, HalfStopped(cfg, ReconcileAll(cfg, j, stopped, room).journal, run, room, statements))
  {
    var m := ReconcileAll(cfg, j, stopped, room).journal;
    ReconcileAllSoft(cfg, j, stopped, room);
    if IsRun(m.runs, run) {
      StopRunSoft(m, run, statements);
      SoftTransitive(j, m, StopRun(m, run, statements));
    }
  }

  lemma StopSoft(cfg: Config, j: Journal, conv: ConvKey)
    requires forall i :: 0 <= i < |j.steers| ==> IsRun(j.runs, j.steers[i].run)
    ensures Soft(j, StopConversation(cfg, j, conv).journal)
  {
    StopShape(cfg, j, conv);
  }

  lemma ApproveTables(cfg: Config, j: Journal, conv: ConvKey, request: RequestId, option: string, now: int)
    requires Answerable(j, conv, request, now)
    ensures var s := ApproveCommand(cfg, j, conv, request, option, now);
            var answered := Answer(j, request, j.approvals[FindApproval(j.approvals, request).value].run);
            s.journal == (if s.value == [] then j else answered).(outbox := s.journal.outbox)
  {}

  lemma SoftOutbox(j: Journal, k: Journal, outbox: seq<OutRow>)
    requires Soft(j, k)
    ensures Soft(j, k.(outbox := outbox))
  {}

  lemma ApproveSoft(cfg: Config, j: Journal, conv: ConvKey, request: RequestId, option: string, now: int)
    requires ApprovalsOk(j.runs, j.approvals, j.decisions)
    ensures Soft(j, ApproveCommand(cfg, j, conv, request, option, now).journal)
  {
    if Answerable(j, conv, request, now) {
      var i := FindApproval(j.approvals, request).value;
      var k := ApproveCommand(cfg, j, conv, request, option, now).journal;
      AnswerSoft(j, i);
      SoftReflexive(j);
      ApproveTables(cfg, j, conv, request, option, now);
      SoftOutbox(j, j, k.outbox);
      SoftOutbox(j, Answer(j, request, j.approvals[i].run), k.outbox);
    }
  }

  lemma CommandSoft(cfg: Config, j: Journal, conv: ConvKey, command: BridgeCommand, now: int)
    requires LifeOk(cfg, j) && ApprovalsOk(j.runs, j.approvals, j.decisions)
    ensures Soft(j, RunCommand(cfg, j, conv, command, now).journal)
  {
    match command
    case CmdStop => StopSoft(cfg, j, conv);
    case CmdApprove(request, option) => ApproveSoft(cfg, j, conv, request, option, now);
    case _ =>
  }
}
