/** What a restart makes of any committed journal. */
module Recovery {
  import opened Model
  import opened Text
  import opened Journal
  import opened Rules
  import opened Invariants
  import opened Lifecycle
  import opened Ledger
  import opened Steps
  import opened EventSteps
  import Approvals
  import Reactions

  /**
   What is committed at any instant. Between the separate statements that stop a run its requests may still be
   open, and an administrator may have reset sessions of conversations that were busy; the rest holds always.
   */
  ghost predicate Committed(cfg: Config, j: Journal) {
    && LifeOk(cfg, j) && ApprovalRowsOk(j.runs, j.approvals, j.decisions)
    && (forall i :: 0 <= i < |j.output| ==> IsRun(j.runs, j.output[i].run))
    && ReactionsOk(j) && BatchRowsOk(j) && ToldOnce(j)
    && (forall c :: Stale(j, c) ==> Current(j, c).None?)
  }

  /** Nothing runs, nothing waits, nothing is buffered or on its way. */
  ghost predicate AtRest(j: Journal) {
    && (forall r :: IsRun(j.runs, r) ==> !j.runs[r].status.Active())
    && (forall i :: 0 <= i < |j.steers| ==> !j.steers[i].status.Pending?)
    && (forall e :: e in j.batches ==> j.batches[e].state.Told? || j.batches[e].state.Abandoned?)
    && (forall i :: 0 <= i < |j.approvals| ==> j.approvals[i].consumed)
    && j.output == []
  }

  lemma {:induction false} FlushAllShape(j: Journal, runs: seq<RunId>) returns (rows: seq<OutRow>)
    requires forall r :: r in runs ==> IsRun(j.runs, r)
    ensures TextOnly(rows) && FlushAll(j, runs).outbox == j.outbox + rows
    ensures FlushAll(j, runs) == j.(outbox := FlushAll(j, runs).outbox, output := FlushAll(j, runs).output)
    ensures forall o :: o in FlushAll(j, runs).output ==> o in j.output && o.run !in runs
    decreases |runs|
  {
    if runs == [] {
      rows := [];
    } else {
      var last := runs[|runs| - 1];
      assert IsRun(j.runs, last);
      rows := FlushAllShape(j, runs[..|runs| - 1]);
      rows := FlushedShape(j, FlushAll(j, runs[..|runs| - 1]), last, runs[..|runs| - 1], rows);
      assert runs == runs[..|runs| - 1] + [last];
    }
  }

  /** One more run's buffer is published. */
  lemma FlushedShape(j: Journal, before: Journal, last: RunId, front: seq<RunId>, rows: seq<OutRow>) returns (more: seq<OutRow>)
    requires IsRun(j.runs, last) && TextOnly(rows) && before.outbox == j.outbox + rows
    requires before == j.(outbox := before.outbox, output := before.output)
    requires forall o :: o in before.output ==> o in j.output && o.run !in front
    ensures var k := Flush(before, last, j.runs[last].conv);
      && TextOnly(more) && k.outbox == j.outbox + more && k == j.(outbox := k.outbox, output := k.output)
      && forall o :: o in k.output ==> o in j.output && o.run !in front && o.run != last
  {
    var text := Buffer(before.output, last);
    more := if Blank(text) then rows else rows + TextRows(j.runs[last].conv, text);
    assert !Blank(text) ==> before.outbox + TextRows(j.runs[last].conv, text) == j.outbox + more;
  }

  lemma {:induction false} InterruptAllRows(cfg: Config, j: Journal, runs: seq<RunId>) returns (rows: seq<OutRow>)
    requires forall r :: r in runs ==> IsRun(j.runs, r)
    ensures TextOnly(rows) && InterruptAll(cfg, j, runs).outbox == j.outbox + rows
    decreases |runs|
  {
    if runs == [] {
      rows := [];
    } else {
      var last := runs[|runs| - 1];
      assert IsRun(j.runs, last);
      rows := InterruptAllRows(cfg, j, runs[..|runs| - 1]);
      var more := TextRows(j.runs[last].conv, cfg.text(RunInterrupted(last)));
      MoreRows(j.outbox, rows, more);
      rows := rows + more;
    }
  }

  lemma MoreRows(outbox: seq<OutRow>, rows: seq<OutRow>, more: seq<OutRow>)
    requires TextOnly(rows) && TextOnly(more)
    ensures outbox + rows + more == outbox + (rows + more) && TextOnly(rows + more)
  {}

  lemma {:induction false} InterruptAllRuns(cfg: Config, j: Journal, runs: seq<RunId>)
    requires forall r :: r in runs ==> IsRun(j.runs, r)
    ensures var k := InterruptAll(cfg, j, runs);
      && k == j.(outbox := k.outbox, runs := k.runs) && |k.runs| == |j.runs|
      && forall r :: IsRun(j.runs, r) ==> k.runs[r] == if r in runs then j.runs[r].(status := Interrupted) else j.runs[r]
    decreases |runs|
  {
    if runs != [] {
      var before, last := runs[..|runs| - 1], runs[|runs| - 1];
      assert runs == before + [last];
      assert IsRun(j.runs, last);
      InterruptAllRuns(cfg, j, before);
    }
  }

  /** The whole of recovery, table by table. */
  ghost predicate Recovers(j: Journal, k: Journal, rows: seq<OutRow>) {
    && |k.runs| == |j.runs|
    && (forall r :: IsRun(j.runs, r) ==> k.runs[r] == if j.runs[r].status.Active() then j.runs[r].(status := Interrupted) else j.runs[r])
    && k.approvals == ConsumeAll(j.approvals) && k.batches == AbandonUntold(j.batches) && k.steers == CutOffSteers(j.steers)
    && k.output == [] && k.outbox == j.outbox + rows && TextOnly(rows)
    && k == j.(runs := k.runs, approvals := k.approvals, batches := k.batches, steers := k.steers, output := [], outbox := k.outbox)
  }

  lemma HeadIn<T>(s: seq<T>)
    ensures s == [] || s[0] in s
  {}

  lemma FlushedClean(j: Journal, runs: seq<RunId>)
    requires forall i :: 0 <= i < |j.output| ==> j.output[i].run in runs
    requires forall r :: r in runs ==> IsRun(j.runs, r)
    requires forall o :: o in FlushAll(j, runs).output ==> o in j.output && o.run !in runs
    ensures FlushAll(j, runs).output == []
  {
    HeadIn(FlushAll(j, runs).output);
  }

  lemma RecoverShape(cfg: Config, j: Journal) returns (rows: seq<OutRow>)
    requires forall i :: 0 <= i < |j.output| ==> IsRun(j.runs, j.output[i].run)
    ensures Recovers(j, Recover(cfg, j).journal, rows)
  {
    var buffered := Buffered(j, |j.output|);
    var first := FlushAllShape(j, buffered);
    FlushedClean(j, buffered);
    var j1 := FlushAll(j, buffered);
    var active := ActiveRuns(j1.runs, |j1.runs|);
    var second := InterruptAllRows(cfg, j1, active);
    InterruptAllRuns(cfg, j1, active);
    rows := first + second;
    RecoverRows(j, InterruptAll(cfg, j1, active), first, second, rows);
  }

  lemma RecoverRows(j: Journal, j2: Journal, first: seq<OutRow>, second: seq<OutRow>, rows: seq<OutRow>)
    requires TextOnly(first) && TextOnly(second) && rows == first + second
    requires j2 == j.(outbox := j.outbox + first + second, output := [], runs := j2.runs) && |j2.runs| == |j.runs|
    requires forall r :: IsRun(j.runs, r) ==> j2.runs[r] == if j.runs[r].status.Active() then j.runs[r].(status := Interrupted) else j.runs[r]
    ensures Recovers(j, j2.(approvals := ConsumeAll(j2.approvals), batches := AbandonUntold(j2.batches), steers := CutOffSteers(j2.steers)), rows)
  {
    assert j.outbox + rows == j.outbox + first + second;
  }

  lemma RecoversLife(cfg: Config, j: Journal, k: Journal, rows: seq<OutRow>)
    requires LifeOk(cfg, j) && Recovers(j, k, rows)
    ensures LifeOk(cfg, k) && Grows(j, k)
  {
    RecoversRuns(j, k, rows);
    forall i | 0 <= i < |j.steers| && IsRun(j.runs, j.steers[i].run) ensures SteerGrows(j, k, i) {}
  }

  lemma RecoversRuns(j: Journal, k: Journal, rows: seq<OutRow>)
    requires Recovers(j, k, rows)
    ensures forall c, r :: !ActiveIn(k.runs, c, r)
    ensures forall r :: IsRun(k.runs, r) <==> IsRun(j.runs, r)
  {}

  lemma RecoversApprovals(j: Journal, k: Journal, rows: seq<OutRow>)
    requires ApprovalRowsOk(j.runs, j.approvals, j.decisions) && Recovers(j, k, rows)
    ensures ApprovalsOk(k.runs, k.approvals, k.decisions) && ApprovalsGrow(j.approvals, k.approvals)
  {
    Approvals.RowsKeep(j.runs, j.approvals, k.approvals, j.decisions);
  }

  lemma RecoversLedger(j: Journal, k: Journal, rows: seq<OutRow>)
    requires BatchRowsOk(j) && ToldOnce(j) && Recovers(j, k, rows) && forall c :: Stale(j, c) ==> Current(j, c).None?
    ensures LedgerOk(k) && Fades(j, k)
  {
    SameSessions(j, k);
    QuiesceKeeps(j, k);
  }

  lemma RecoversRest(j: Journal, k: Journal, rows: seq<OutRow>)
    requires Recovers(j, k, rows)
    ensures AtRest(k) && j.outbox <= k.outbox && OutboxGrows(j.outbox, k.outbox)
  {}

  /** Whatever was committed, recovery restores every invariant, keeps every outbound row, and leaves nothing going on. */
  lemma RecoverRestores(cfg: Config, j: Journal)
    requires Committed(cfg, j)
    ensures var k := Recover(cfg, j).journal;
            && Inv(cfg, k) && AtRest(k) && Onward(j, k)
            && j.outbox <= k.outbox
  {
    var rows := RecoverShape(cfg, j);
    var k := Recover(cfg, j).journal;
    RecoversRest(j, k, rows);
    RecoversAll(cfg, j, k, rows);
  }

  lemma RecoversAll(cfg: Config, j: Journal, k: Journal, rows: seq<OutRow>)
    requires Committed(cfg, j) && Recovers(j, k, rows) && OutboxGrows(j.outbox, k.outbox)
    ensures Inv(cfg, k) && Onward(j, k)
  {
    RecoversLife(cfg, j, k, rows);
    RecoversApprovals(j, k, rows);
    RecoversLedger(j, k, rows);
    Reactions.TextKeeps(j, k, rows);
  }

  /** A second recovery finds nothing to do. */
  lemma RecoverIdempotent(cfg: Config, j: Journal)
    requires Committed(cfg, j)
    ensures Recover(cfg, Recover(cfg, j).journal) == Step(Recover(cfg, j).journal, 0)
  {
    RecoverRestores(cfg, j);
    RestIsFixed(cfg, Recover(cfg, j).journal);
  }

  lemma RestIsFixed(cfg: Config, k: Journal)
    requires AtRest(k)
    ensures Recover(cfg, k) == Step(k, 0)
  {
    var active := ActiveRuns(k.runs, |k.runs|);
    HeadIn(active);
    assert ConsumeAll(k.approvals) == k.approvals;
    assert CutOffSteers(k.steers) == k.steers;
    assert AbandonUntold(k.batches) == k.batches;
  }

  lemma InvCommitted(cfg: Config, j: Journal)
    requires Inv(cfg, j)
    ensures Committed(cfg, j)
  {}

  // ---------------------------------------------------------------- crashes between commits

  /** Where a process may end inside an operation that commits more than once. */
  datatype Torn =
    | Whole
    | Answering(now: int, rows: nat)
    | Resuming(convs: nat)
    | Reconciling(id: RoomId, room: RoomSnapshot, runs: nat, statements: nat)

  function Upto<T>(s: seq<T>, n: nat): seq<T> {
    if n <= |s| then s[..n] else s
  }

  /** Some of the statements that stop a run which may no longer be delivered. */
  function HalfStopped(cfg: Config, j: Journal, run: int, room: RoomSnapshot, statements: nat): Journal {
    if IsRun(j.runs, run) && !MayDeliver(cfg, j, j.runs[run].conv, room) then StopRun(j, run, statements) else j
  }

  /** The journal such an operation leaves when it is cut short: the rows it had dealt with, and part of the next. */
  function TornBy(cfg: Config, j: Journal, torn: Torn): Journal {
    match torn
    case Whole => j
    case Answering(now, n) => AutoAll(cfg, j, Upto(Open(j, now, |j.approvals|), n)).journal
    case Resuming(n) => ResumeAll(cfg, j, Upto(LeftoverConvs(j, |j.steers|), n)).journal
    case Reconciling(id, room, n, statements) =>
      var runs := EngagedRuns(j, id, |j.runs|);
      HalfStopped(cfg, ReconcileAll(cfg, j, Upto(runs, n), room).journal, if n < |runs| then runs[n] else -1, room, statements)
  }

  /** What is committed, and has come about without undoing anything. */
  ghost predicate Follows(cfg: Config, j: Journal, k: Journal) {
    Committed(cfg, k) && Onward(j, k)
  }

  lemma GoodFollows(cfg: Config, j: Journal, k: Journal)
    requires Inv(cfg, k) && Onward(j, k)
    ensures Follows(cfg, j, k)
  {
    InvCommitted(cfg, k);
  }

  /** A crash between the statements that stop a run. */
  lemma StopRunFollows(cfg: Config, j: Journal, run: RunId, statements: nat)
    requires Inv(cfg, j) && IsRun(j.runs, run)
    ensures Follows(cfg, j, StopRun(j, run, statements))
  {
    OnwardReflexive(j);
    InvCommitted(cfg, j);
    if statements >= 1 {
      StopIdleGood(cfg, j, run);
      var j1 := j.(steers := CancelRunSteers(j.steers, run));
      InvCommitted(cfg, j1);
      if j.runs[run].status.Active() && statements == 2 {
        CancellingFollows(cfg, j1, run);
        OnwardTransitive(j, j1, StopRun(j, run, 2));
      } else if j.runs[run].status.Active() && statements >= 3 {
        StopActiveGood(cfg, j, StopRun(j, run, 3), run);
        GoodFollows(cfg, j, StopRun(j, run, 3));
      }
    }
  }

  /** A run marked as cancelling whose requests are still open. */
  lemma CancellingFollows(cfg: Config, j: Journal, run: RunId)
    requires Inv(cfg, j) && IsRun(j.runs, run) && j.runs[run].status.Active()
    ensures Follows(cfg, j, j.(runs := SetStatus(j.runs, run, Status.Cancelling)))
  {
    var k := j.(runs := SetStatus(j.runs, run, Status.Cancelling));
    CancellingLife(cfg, j, run);
    CancellingLedger(j, k, run);
    CancellingReactions(j, k, run);
    assert forall i :: 0 <= i < |j.output| ==> IsRun(j.runs, j.output[i].run);
  }

  lemma CancellingLife(cfg: Config, j: Journal, run: RunId)
    requires LifeOk(cfg, j) && ApprovalRowsOk(j.runs, j.approvals, j.decisions) && IsRun(j.runs, run) && j.runs[run].status.Active()
    ensures var k := j.(runs := SetStatus(j.runs, run, Status.Cancelling));
            LifeOk(cfg, k) && Grows(j, k) && ApprovalRowsOk(k.runs, k.approvals, k.decisions)
  {
    StatusKeeps(cfg, j, run, Status.Cancelling);
  }

  lemma CancellingLedger(j: Journal, k: Journal, run: RunId)
    requires LedgerOk(j) && IsRun(j.runs, run) && j.runs[run].status.Active() && k == j.(runs := SetStatus(j.runs, run, Status.Cancelling))
    ensures BatchRowsOk(k) && ToldOnce(k) && StaleIdle(k) && Fades(j, k)
  {
    StatusCalm(j, k, run, Status.Cancelling);
    CalmKeeps(j, k);
  }

  lemma CancellingReactions(j: Journal, k: Journal, run: RunId)
    requires ReactionsOk(j) && InputsOk(j.runs, j.inputs) && SteersOk(j.runs, j.inputs, j.steers)
    requires IsRun(j.runs, run) && j.runs[run].status.Active() && k == j.(runs := SetStatus(j.runs, run, Status.Cancelling))
    ensures ReactionsOk(k)
  {
    assert k.outbox == j.outbox + [];
    forall i | 0 <= i < |j.steers| && IsRun(j.runs, j.steers[i].run) ensures SteerGrows(j, k, i) {}
    Reactions.TextKeeps(j, k, []);
  }

  lemma PrefixQueried(j: Journal, rows: seq<ApprovalRow>, n: nat)
    requires Queried(j, rows)
    ensures Queried(j, Upto(rows, n))
  {}

  lemma AnsweringFollows(cfg: Config, j: Journal, now: int, n: nat)
    requires Inv(cfg, j)
    ensures Follows(cfg, j, TornBy(cfg, j, Answering(now, n)))
  {
    var rows := Open(j, now, |j.approvals|);
    OpenQueried(j, now, |j.approvals|);
    PrefixQueried(j, rows, n);
    AutoAllGood(cfg, j, Upto(rows, n));
    GoodFollows(cfg, j, AutoAll(cfg, j, Upto(rows, n)).journal);
  }

  lemma ReconcilingFollows(cfg: Config, j: Journal, stopped: seq<RunId>, run: int, room: RoomSnapshot, statements: nat)
    requires Inv(cfg, j)
    ensures Follows(cfg, j, HalfStopped(cfg, ReconcileAll(cfg, j, stopped, room).journal, run, room, statements))
  {
    var m := ReconcileAll(cfg, j, stopped, room).journal;
    ReconcileAllGood(cfg, j, stopped, room);
    GoodFollows(cfg, j, m);
    if IsRun(m.runs, run) {
      StopRunFollows(cfg, m, run, statements);
      OnwardTransitive(j, m, StopRun(m, run, statements));
    }
  }

  /** Wherever an operation is cut short, what it leaves is committed and undoes nothing. */
  lemma TornFollows(cfg: Config, j: Journal, torn: Torn)
    requires Inv(cfg, j)
    ensures Follows(cfg, j, TornBy(cfg, j, torn))
  {
    match torn
    case Whole => OnwardReflexive(j); GoodFollows(cfg, j, j);
    case Answering(now, n) => AnsweringFollows(cfg, j, now, n);
    case Resuming(n) =>
      var convs := Upto(LeftoverConvs(j, |j.steers|), n);
      ResumeAllGood(cfg, j, convs);
      GoodFollows(cfg, j, ResumeAll(cfg, j, convs).journal);
    case Reconciling(id, room, n, statements) =>
      var runs := EngagedRuns(j, id, |j.runs|);
      ReconcilingFollows(cfg, j, Upto(runs, n), if n < |runs| then runs[n] else -1, room, statements);
  }

  // ---------------------------------------------------------------- sessions reset while the bridge is down

  /** Resetting a session touches no row of the ledger; it only makes the ledger stale. */
  lemma ResetStale(j: Journal, conv: ConvKey)
    requires forall c :: Stale(j, c) ==> Current(j, c).None?
    ensures var k := ResetSession(j, conv); forall c :: (Stale(j, c) ==> Stale(k, c)) && (Stale(k, c) ==> Current(k, c).None?)
  {
    forall c
      ensures Stale(j, c) ==> Stale(ResetSession(j, conv), c)
      ensures Stale(ResetSession(j, conv), c) ==> Current(ResetSession(j, conv), c).None?
    {
      assert c != conv ==> (Stale(ResetSession(j, conv), c) <==> Stale(j, c));
    }
  }

  lemma ResetLedger(j: Journal, k: Journal)
    requires BatchRowsOk(j) && ToldOnce(j) && k == j.(convs := k.convs) && k.convs.Keys == j.convs.Keys
    requires forall c :: Stale(j, c) ==> Stale(k, c)
    ensures BatchRowsOk(k) && ToldOnce(k) && Fades(j, k)
  {
    forall e | e in k.batches
      ensures LiveRow(k, e) ==> LiveRow(j, e)
      ensures Live(k, e) ==> Live(j, e)
    {
      assert Stale(j, k.batches[e].conv) ==> Stale(k, k.batches[e].conv);
    }
    FadedToldOnce(j, k);
  }

  /** Resetting a session while the bridge is down is repaired by the recovery that follows. */
  lemma ResetCommitted(cfg: Config, j: Journal, conv: ConvKey)
    requires Committed(cfg, j)
    ensures Committed(cfg, ResetSession(j, conv))
    ensures Onward(j, ResetSession(j, conv)) && ResetSession(j, conv).outbox == j.outbox
  {
    var k := ResetSession(j, conv);
    ResetStale(j, conv);
    ResetLedger(j, k);
    ResetReactions(j, k);
    ResetLife(cfg, j, k);
    SameRunsGrow(j, k);
  }

  lemma ResetLife(cfg: Config, j: Journal, k: Journal)
    requires LifeOk(cfg, j) && k == j.(convs := k.convs) && k.convs.Keys == j.convs.Keys
    ensures LifeOk(cfg, k)
  {}

  lemma ResetReactions(j: Journal, k: Journal)
    requires ReactionsOk(j) && k == j.(convs := k.convs)
    ensures ReactionsOk(k)
  {
    Reactions.KnownReads(j, k);
  }

  function ResetAll(j: Journal, convs: seq<ConvKey>): Journal {
    if convs == [] then j else ResetSession(ResetAll(j, convs[..|convs| - 1]), convs[|convs| - 1])
  }

  lemma {:induction false} ResetAllCommitted(cfg: Config, j: Journal, convs: seq<ConvKey>)
    requires Committed(cfg, j)
    ensures Follows(cfg, j, ResetAll(j, convs))
  {
    if convs == [] {
      OnwardReflexive(j);
    } else {
      var m := ResetAll(j, convs[..|convs| - 1]);
      ResetAllCommitted(cfg, j, convs[..|convs| - 1]);
      ResetCommitted(cfg, m, convs[|convs| - 1]);
      OnwardTransitive(j, m, ResetAll(j, convs));
    }
  }

  // ---------------------------------------------------------------- the restart

  /** The process ends, perhaps inside an operation; sessions may be reset while it is down; it starts again. */
  function Restarted(cfg: Config, j: Journal, torn: Torn, resets: seq<ConvKey>): Journal {
    Recover(cfg, ResetAll(TornBy(cfg, j, torn), resets)).journal
  }

  lemma RestartGood(cfg: Config, j: Journal, torn: Torn, resets: seq<ConvKey>)
    requires Inv(cfg, j)
    ensures var k := Restarted(cfg, j, torn, resets); Inv(cfg, k) && Onward(j, k) && AtRest(k)
  {
    var i := TornBy(cfg, j, torn);
    TornFollows(cfg, j, torn);
    RestartedGood(cfg, j, i, ResetAll(i, resets), resets);
  }

  lemma RestartedGood(cfg: Config, j: Journal, i: Journal, m: Journal, resets: seq<ConvKey>)
    requires Follows(cfg, j, i) && m == ResetAll(i, resets)
    ensures var k := Recover(cfg, m).journal; Inv(cfg, k) && Onward(j, k) && AtRest(k)
  {
    ResetAllCommitted(cfg, i, resets);
    RecoverRestores(cfg, m);
    OnwardTransitive(j, i, m);
    OnwardTransitive(j, m, Recover(cfg, m).journal);
  }
}
