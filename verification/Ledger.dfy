/**
 The context ledger across every transaction: batches are staged, put in flight, told and dropped together with the run
 that carries them, live batches of a conversation stay disjoint, at most one carries the baseline, and a batch that is
 no longer live stays so.
 */
module Ledger {
  import opened Model
  import opened Context
  import opened Journal
  import opened Rules
  import opened Invariants
  import opened Lifecycle

  lemma FadesTransitive(i: Journal, j: Journal, k: Journal)
    requires Fades(i, j) && Fades(j, k)
    ensures Fades(i, k)
  {
    forall e | e in k.batches && k.batches[e].row < i.nextBatch
      ensures e in i.batches && SameBatch(i.batches[e], k.batches[e])
      ensures (LiveRow(k, e) ==> LiveRow(i, e)) && (Live(k, e) ==> Live(i, e))
    {
      assert k.batches[e].row < j.nextBatch;
      assert e in j.batches && j.batches[e].row == k.batches[e].row;
    }
  }

  /** Where no batch is added, fading preserves the disjointness of what is live. */
  lemma FadedToldOnce(j: Journal, k: Journal)
    requires ToldOnce(j) && Fades(j, k) && k.nextBatch == j.nextBatch && BatchRowsOk(k)
    ensures ToldOnce(k)
  {
    forall e, o | LiveRow(k, e) && LiveRow(k, o) && k.batches[e].conv == k.batches[o].conv && k.batches[e].row < k.batches[o].row
      ensures Apart(k, e, o)
    {
      assert k.batches[o].row < k.nextBatch;
      assert LiveRow(j, e) && LiveRow(j, o);
      assert Apart(j, e, o);
    }
  }

  /** Runs whose status may have changed, but not whether they are active. */
  ghost predicate StatusOnly(runs: seq<RunRow>, after: seq<RunRow>) {
    && |after| >= |runs|
    && forall r :: IsRun(runs, r) ==>
         && after[r].conv == runs[r].conv
         && (after[r].status.Active() <==> runs[r].status.Active())
         && (!runs[r].status.Active() ==> after[r].status == runs[r].status)
  }

  /** Pending follow-ups may be settled; rows for other events may be added. */
  ghost predicate FewerPending(j: Journal, k: Journal) {
    forall e :: e in j.batches && HasPendingSteer(k.steers, e) ==> HasPendingSteer(j.steers, e)
  }

  /** Statuses move among active ones, nothing becomes pending, and ledger rows stay or are settled. */
  lemma StatusFades(j: Journal, k: Journal)
    requires BatchRowsOk(j) && InFlightOk(j.runs, j.batches)
    requires StatusOnly(j.runs, k.runs) && FewerPending(j, k) && k.nextBatch == j.nextBatch
    requires k.batches.Keys <= j.batches.Keys
    requires forall e :: e in k.batches ==>
      var a, b := j.batches[e], k.batches[e];
      && SameBatch(a, b) && b.run == a.run
      && (b.state == a.state || b.state.Abandoned? || (a.state.InFlight? && b.state.Told?)
          || (a.state.Staged? && b.state.InFlight? && j.runs[a.run].status.Active()))
    requires forall c :: Stale(j, c) ==> Stale(k, c)
    ensures Fades(j, k)
  {
    forall e | e in k.batches
      ensures LiveRow(k, e) ==> LiveRow(j, e)
      ensures Live(k, e) ==> Live(j, e)
    {
      assert Stale(j, j.batches[e].conv) ==> Stale(k, j.batches[e].conv);
    }
  }

  /** One run ends and settles its batches. */
  lemma FinishFades(j: Journal, k: Journal, run: RunId, status: Status)
    requires BatchRowsOk(j)
    requires IsRun(j.runs, run) && j.runs[run].status.Active() && !status.Active()
    requires k.runs == SetStatus(j.runs, run, status) && k.batches == SettleBatches(j.batches, run, status)
    requires k.steers == j.steers && k.sessions == j.sessions && k.convs == j.convs && k.nextBatch == j.nextBatch
    ensures Fades(j, k)
  {
    forall e | e in k.batches
      ensures SameBatch(j.batches[e], k.batches[e])
      ensures LiveRow(k, e) ==> LiveRow(j, e)
      ensures Live(k, e) ==> Live(j, e)
    {
      FinishFadesRow(j, k, run, status, e);
    }
  }

  lemma FinishFadesRow(j: Journal, k: Journal, run: RunId, status: Status, e: EventId)
    requires e in j.batches && IsRun(j.runs, run) && j.runs[run].status.Active() && !status.Active()
    requires k.runs == SetStatus(j.runs, run, status) && k.batches == SettleBatches(j.batches, run, status)
    requires k.steers == j.steers && k.sessions == j.sessions && k.convs == j.convs
    ensures e in k.batches && SameBatch(j.batches[e], k.batches[e])
    ensures (LiveRow(k, e) ==> LiveRow(j, e)) && (Live(k, e) ==> Live(j, e))
  {
    assert k.batches[e] == Settled(j.batches[e], run, status);
  }

  /** Ledger rows keep their identity and run, and only a batch of an active run goes out. */
  ghost predicate RowsSettle(batches: map<EventId, Batch>, after: map<EventId, Batch>) {
    && after.Keys == batches.Keys
    && forall e :: e in batches ==>
         && SameBatch(batches[e], after[e]) && after[e].run == batches[e].run
         && (after[e].state.Staged? ==> batches[e].state.Staged?)
  }

  lemma RowsKeep(j: Journal, k: Journal)
    requires BatchRowsOk(j) && RowsSettle(j.batches, k.batches)
    requires forall r :: IsRun(j.runs, r) ==> IsRun(k.runs, r) && k.runs[r].conv == j.runs[r].conv
    requires k.nextBatch == j.nextBatch && j.inbox <= k.inbox
    requires k.sessions.Keys == j.sessions.Keys && j.convs.Keys <= k.convs.Keys
    ensures BatchRowsOk(k)
  {}

  lemma StagedKeep(steers: seq<SteerRow>, after: seq<SteerRow>, batches: map<EventId, Batch>, settled: map<EventId, Batch>)
    requires StagedOk(steers, batches) && RowsSettle(batches, settled) && |after| >= |steers|
    requires forall i :: 0 <= i < |steers| ==> after[i].event == steers[i].event && after[i].run == steers[i].run
    requires forall i :: 0 <= i < |steers| && after[i].status.Taken? ==>
      steers[i].status.Taken? || (steers[i].event in settled ==> !settled[steers[i].event].state.Staged? || settled[steers[i].event].run != steers[i].run)
    ensures StagedOk(after, settled)
  {
    forall e | e in settled && settled[e].state.Staged?
      ensures exists i :: 0 <= i < |after| && after[i].event == e && after[i].run == settled[e].run && !after[i].status.Taken?
    {
      var i :| 0 <= i < |steers| && steers[i].event == e && steers[i].run == batches[e].run && !steers[i].status.Taken?;
      assert after[i].event == e;
    }
  }

  lemma FinishRows(j: Journal, k: Journal, run: RunId, status: Status)
    requires BatchRowsOk(j) && InFlightOk(j.runs, j.batches) && StagedOk(j.steers, j.batches)
    requires IsRun(j.runs, run) && !status.Active()
    requires k.runs == SetStatus(j.runs, run, status) && k.batches == SettleBatches(j.batches, run, status)
    requires k.steers == j.steers && k.sessions == j.sessions && k.convs == j.convs && k.nextBatch == j.nextBatch && k.inbox == j.inbox
    ensures BatchRowsOk(k) && InFlightOk(k.runs, k.batches) && StagedOk(k.steers, k.batches)
  {
    FinishSettles(j.batches, run, status);
    RowsKeep(j, k);
    StagedKeep(j.steers, k.steers, j.batches, k.batches);
    FinishInFlight(j, k, run, status);
  }

  lemma FinishSettles(batches: map<EventId, Batch>, run: RunId, status: Status)
    ensures RowsSettle(batches, SettleBatches(batches, run, status))
  {}

  lemma FinishInFlight(j: Journal, k: Journal, run: RunId, status: Status)
    requires InFlightOk(j.runs, j.batches) && IsRun(j.runs, run) && !status.Active()
    requires k.runs == SetStatus(j.runs, run, status) && k.batches == SettleBatches(j.batches, run, status)
    ensures InFlightOk(k.runs, k.batches)
  {}

  lemma FinishKeeps(j: Journal, k: Journal, run: RunId, status: Status)
    requires LedgerOk(j)
    requires IsRun(j.runs, run) && j.runs[run].status.Active() && !status.Active()
    requires k.runs == SetStatus(j.runs, run, status) && k.batches == SettleBatches(j.batches, run, status)
    requires k.steers == j.steers && k.sessions == j.sessions && k.convs == j.convs && k.nextBatch == j.nextBatch && k.inbox == j.inbox
    ensures LedgerOk(k) && Fades(j, k)
  {
    FinishRows(j, k, run, status);
    FinishFades(j, k, run, status);
    StaleKeeps(j, k, run);
    StatusLedger(j, k);
  }

  /** A conversation with an active run is not stale, so ending that run leaves stale ones idle. */
  lemma StaleKeeps(j: Journal, k: Journal, run: RunId)
    requires IsRun(j.runs, run) && StaleIdle(j) && ActiveIn(j.runs, j.runs[run].conv, run)
    requires k.sessions == j.sessions && k.convs == j.convs && k.steers == j.steers && |k.runs| == |j.runs|
    requires k.runs[run].conv == j.runs[run].conv && !k.runs[run].status.Active()
    requires forall r :: IsRun(j.runs, r) && r != run ==> k.runs[r] == j.runs[r]
    ensures StaleIdle(k)
  {
    assert !Stale(j, j.runs[run].conv);
    assert forall c :: Stale(k, c) <==> Stale(j, c);
    assert forall c, r :: ActiveIn(k.runs, c, r) ==> ActiveIn(j.runs, c, r);
    assert forall c, i :: LeftoverOf(k, c, i) && c != j.runs[run].conv ==> LeftoverOf(j, c, i);
  }

  /** Abandoning or settling without touching liveness upwards keeps the ledger. */
  lemma StatusLedger(j: Journal, k: Journal)
    requires LedgerOk(j) && BatchRowsOk(k) && InFlightOk(k.runs, k.batches) && StagedOk(k.steers, k.batches) && StaleIdle(k)
    requires Fades(j, k) && k.nextBatch == j.nextBatch
    ensures LedgerOk(k)
  {
    FadedToldOnce(j, k);
  }

  /** Stale conversations stay idle while nothing starts, resumes or becomes pending in them. */
  lemma StaleCalm(j: Journal, k: Journal)
    requires StaleIdle(j) && StatusOnly(j.runs, k.runs) && |k.runs| == |j.runs|
    requires forall c :: Stale(k, c) ==> Stale(j, c) && Current(k, c) == Current(j, c)
    requires |k.steers| == |j.steers|
    requires forall i :: 0 <= i < |k.steers| && k.steers[i].status.Pending? ==> k.steers[i] == j.steers[i]
    ensures StaleIdle(k)
  {
    assert forall c, r :: ActiveIn(k.runs, c, r) ==> ActiveIn(j.runs, c, r);
    assert forall c, i :: LeftoverOf(k, c, i) ==> LeftoverOf(j, c, i);
  }

  // ---------------------------------------------------------------- transactions that add no batch and end no run

  /** Follow-ups may be settled; one may be taken only together with its batch going out. */
  ghost predicate SteersCalm(j: Journal, k: Journal) {
    && |k.steers| == |j.steers|
    && forall i :: 0 <= i < |j.steers| ==>
         && k.steers[i] == j.steers[i].(status := k.steers[i].status)
         && (k.steers[i].status != j.steers[i].status ==>
               && j.steers[i].status.Pending?
               && (k.steers[i].status.Taken? && j.steers[i].event in k.batches ==> !k.batches[j.steers[i].event].state.Staged?))
  }

  ghost predicate BatchesCalm(j: Journal, k: Journal) {
    && RowsSettle(j.batches, k.batches)
    && forall e :: e in j.batches && IsRun(j.runs, j.batches[e].run) ==>
         var a, b := j.batches[e], k.batches[e];
         || b.state == a.state || b.state.Abandoned? || (a.state.InFlight? && b.state.Told?)
         || (a.state.Staged? && b.state.InFlight? && j.runs[a.run].status.Active())
  }

  ghost predicate Calm(j: Journal, k: Journal) {
    && StatusOnly(j.runs, k.runs) && |k.runs| == |j.runs|
    && SteersCalm(j, k) && BatchesCalm(j, k)
    && k.nextBatch == j.nextBatch && j.inbox <= k.inbox
    && k.sessions.Keys == j.sessions.Keys && j.convs.Keys <= k.convs.Keys
    && (forall c :: Stale(j, c) <==> Stale(k, c))
    && (forall c :: Stale(k, c) ==> Current(k, c) == Current(j, c))
  }

  lemma CalmFades(j: Journal, k: Journal)
    requires BatchRowsOk(j) && InFlightOk(j.runs, j.batches) && Calm(j, k)
    ensures Fades(j, k)
  {
    forall e | HasPendingSteer(k.steers, e)
      ensures HasPendingSteer(j.steers, e)
    {
      var i :| 0 <= i < |k.steers| && k.steers[i].event == e && k.steers[i].status.Pending?;
      assert j.steers[i].event == e && j.steers[i].status.Pending?;
    }
    StatusFades(j, k);
  }

  lemma CalmKeeps(j: Journal, k: Journal)
    requires LedgerOk(j) && Calm(j, k)
    ensures LedgerOk(k) && Fades(j, k)
  {
    CalmFades(j, k);
    RowsKeep(j, k);
    CalmStaged(j, k);
    CalmInFlight(j, k);
    StaleCalm(j, k);
    FadedToldOnce(j, k);
  }

  lemma CalmInFlight(j: Journal, k: Journal)
    requires BatchRowsOk(j) && InFlightOk(j.runs, j.batches) && Calm(j, k)
    ensures InFlightOk(k.runs, k.batches)
  {
    forall e | e in k.batches && k.batches[e].state.InFlight?
      ensures k.runs[k.batches[e].run].status.Active()
    {
      assert k.batches[e].run == j.batches[e].run;
    }
  }

  lemma CalmStaged(j: Journal, k: Journal)
    requires StagedOk(j.steers, j.batches) && Calm(j, k)
    ensures StagedOk(k.steers, k.batches)
  {
    StagedKeep(j.steers, k.steers, j.batches, k.batches);
  }

  // ---------------------------------------------------------------- staging

  /** `k` is `j` with one more batch, prepared against `j`, and its input's run or follow-up. */
  ghost predicate Stages(j: Journal, k: Journal, conv: ConvKey, run: RunId, input: EventId, p: Prepared, steering: bool) {
    && k.batches == (if Stale(j, conv) then WithoutConv(j.batches, conv) else j.batches)
         [input := Batch(j.nextBatch, conv, run, p.events, p.initial, if steering then Staged else InFlight, p.delivery)]
    && k.nextBatch == j.nextBatch + 1
    && k.sessions.Keys == j.sessions.Keys + {conv}
    && (forall c :: Stale(k, c) <==> Stale(j, c) && c != conv)
    && (forall c :: Stale(k, c) ==> Current(k, c) == Current(j, c))
    && StatusOnly(j.runs, k.runs)
    && (forall c, r :: ActiveIn(k.runs, c, r) && c != conv ==> ActiveIn(j.runs, c, r))
    && ActiveIn(k.runs, conv, run)
    && |k.steers| >= |j.steers|
    && (forall i :: 0 <= i < |j.steers| ==> k.steers[i] == j.steers[i])
    && (forall i :: |j.steers| <= i < |k.steers| ==> k.steers[i] == SteerRow(input, run, k.steers[i].prompt, Pending))
    && (steering ==> |k.steers| == |j.steers| + 1)
    && j.inbox <= k.inbox && (conv.room, input) in k.inbox
    && j.convs.Keys + {conv} <= k.convs.Keys
    && p.events != [] && (forall m :: m in p.events[..|p.events| - 1] ==> m !in Seen(j, conv))
    && p.initial == !Initialized(j, conv)
    && input !in j.batches
  }

  lemma StageFades(j: Journal, k: Journal, conv: ConvKey, run: RunId, input: EventId, p: Prepared, steering: bool)
    requires BatchRowsOk(j) && Stages(j, k, conv, run, input, p, steering)
    ensures Fades(j, k)
    ensures forall e :: e in j.batches && LiveRow(k, e) ==> LiveRow(j, e)
  {
    forall e | e in k.batches && e != input
      ensures e in j.batches && k.batches[e] == j.batches[e] && (LiveRow(k, e) ==> LiveRow(j, e)) && (Live(k, e) ==> Live(j, e))
    {
      StageFadesRow(j, k, conv, run, input, p, steering, e);
    }
  }

  lemma StageFadesRow(j: Journal, k: Journal, conv: ConvKey, run: RunId, input: EventId, p: Prepared, steering: bool, e: EventId)
    requires Stages(j, k, conv, run, input, p, steering) && e in k.batches && e != input
    requires e in j.batches ==> IsRun(j.runs, j.batches[e].run)
    ensures e in j.batches && k.batches[e] == j.batches[e] && (LiveRow(k, e) ==> LiveRow(j, e)) && (Live(k, e) ==> Live(j, e))
  {
    if HasPendingSteer(k.steers, e) {
      var i :| 0 <= i < |k.steers| && k.steers[i].event == e && k.steers[i].status.Pending?;
      assert i < |j.steers| && j.steers[i] == k.steers[i];
    }
    assert Stale(j, j.batches[e].conv) ==> j.batches[e].conv != conv;
  }

  /** The new batch against every live one: it quotes only what none of them carries. */
  lemma StageApart(j: Journal, k: Journal, conv: ConvKey, run: RunId, input: EventId, p: Prepared, steering: bool, e: EventId)
    requires LedgerOk(j) && Stages(j, k, conv, run, input, p, steering)
    requires e != input && LiveRow(k, e) && k.batches[e].conv == conv
    ensures Apart(k, e, input)
  {
    StageFades(j, k, conv, run, input, p, steering);
    assert e in j.batches && LiveRow(j, e) && !Stale(j, conv);
    assert Live(j, e);
    forall m | m in Quoted(k.batches[input])
      ensures m !in k.batches[e].events
    {
      assert m in p.events[..|p.events| - 1] && m !in Seen(j, conv);
      assert k.batches[e] == j.batches[e];
      assert m in j.batches[e].events ==> m in SeenInBatches(j, conv);
    }
  }

  lemma StageToldOnce(j: Journal, k: Journal, conv: ConvKey, run: RunId, input: EventId, p: Prepared, steering: bool)
    requires LedgerOk(j) && Stages(j, k, conv, run, input, p, steering)
    ensures ToldOnce(k)
  {
    StageFades(j, k, conv, run, input, p, steering);
    forall e, o | LiveRow(k, e) && LiveRow(k, o) && k.batches[e].conv == k.batches[o].conv && k.batches[e].row < k.batches[o].row
      ensures Apart(k, e, o)
    {
      assert e != input;
      if o == input {
        StageApart(j, k, conv, run, input, p, steering, e);
      } else {
        assert LiveRow(j, e) && LiveRow(j, o);
        assert Apart(j, e, o);
      }
    }
  }

  lemma StageRows(j: Journal, k: Journal, conv: ConvKey, run: RunId, input: EventId, p: Prepared, steering: bool)
    requires BatchRowsOk(j) && InFlightOk(j.runs, j.batches) && Stages(j, k, conv, run, input, p, steering)
    ensures BatchRowsOk(k) && InFlightOk(k.runs, k.batches)
  {
    StageKept(j, k, conv, run, input, p, steering);
    forall e | e in k.batches
      ensures IsRun(k.runs, k.batches[e].run) && k.runs[k.batches[e].run].conv == k.batches[e].conv
      ensures k.batches[e].state.InFlight? ==> k.runs[k.batches[e].run].status.Active()
      ensures k.batches[e].conv in k.sessions && (k.batches[e].conv.room, e) in k.inbox
      ensures k.batches[e].row < k.nextBatch && (k.batches[e].row == j.nextBatch <==> e == input)
    {
      assert e != input ==> k.batches[e] == j.batches[e];
    }
  }

  lemma StageKept(j: Journal, k: Journal, conv: ConvKey, run: RunId, input: EventId, p: Prepared, steering: bool)
    requires Stages(j, k, conv, run, input, p, steering)
    ensures forall e :: e in k.batches && e != input ==> e in j.batches && k.batches[e] == j.batches[e]
    ensures forall c :: c in k.sessions ==> c in j.sessions || c == conv
  {}

  lemma StageStaged(j: Journal, k: Journal, conv: ConvKey, run: RunId, input: EventId, p: Prepared, steering: bool)
    requires LedgerOk(j) && Stages(j, k, conv, run, input, p, steering)
    ensures StagedOk(k.steers, k.batches)
  {
    forall e | e in k.batches && k.batches[e].state.Staged?
      ensures exists i :: 0 <= i < |k.steers| && k.steers[i].event == e && k.steers[i].run == k.batches[e].run && !k.steers[i].status.Taken?
    {
      if e == input {
        assert k.steers[|j.steers|].event == e;
      } else {
        var i :| 0 <= i < |j.steers| && j.steers[i].event == e && j.steers[i].run == j.batches[e].run && !j.steers[i].status.Taken?;
        assert k.steers[i] == j.steers[i];
      }
    }
  }

  lemma StageIdle(j: Journal, k: Journal, conv: ConvKey, run: RunId, input: EventId, p: Prepared, steering: bool)
    requires LedgerOk(j) && Stages(j, k, conv, run, input, p, steering)
    requires forall i :: 0 <= i < |j.steers| ==> IsRun(j.runs, j.steers[i].run)
    ensures StaleIdle(k)
  {
    forall c, i | Stale(k, c)
      ensures !LeftoverOf(k, c, i)
    {
      if LeftoverOf(k, c, i) {
        assert i < |j.steers| ==> LeftoverOf(j, c, i);
      }
    }
  }

  lemma StageKeeps(j: Journal, k: Journal, conv: ConvKey, run: RunId, input: EventId, p: Prepared, steering: bool)
    requires LedgerOk(j) && Stages(j, k, conv, run, input, p, steering)
    requires forall i :: 0 <= i < |j.steers| ==> IsRun(j.runs, j.steers[i].run)
    ensures LedgerOk(k) && Fades(j, k)
  {
    StageFades(j, k, conv, run, input, p, steering);
    StageToldOnce(j, k, conv, run, input, p, steering);
    StageRows(j, k, conv, run, input, p, steering);
    StageStaged(j, k, conv, run, input, p, steering);
    StageIdle(j, k, conv, run, input, p, steering);
  }

  // ---------------------------------------------------------------- continuations

  /** A staged batch moves exactly when its follow-up is one of the conversation's leftovers. */
  ghost predicate BatchesMoved(j: Journal, conv: ConvKey, k: Journal) {
    && k.batches.Keys == j.batches.Keys
    && forall e :: e in j.batches ==>
         if j.batches[e].state.Staged? && LeftoverEvent(j, conv, e)
         then k.batches[e] == j.batches[e].(run := |j.runs|, state := InFlight)
         else k.batches[e] == j.batches[e]
  }

  ghost predicate LeftoverEvent(j: Journal, conv: ConvKey, e: EventId) {
    exists i :: LeftoverOf(j, conv, i) && j.steers[i].event == e
  }

  lemma LeftoverEvents(j: Journal, conv: ConvKey)
    ensures forall e :: e in Events(Leftovers(j, conv, |j.steers|)) <==> LeftoverEvent(j, conv, e)
  {
    var rows := Leftovers(j, conv, |j.steers|);
    forall e
      ensures e in Events(rows) <==> LeftoverEvent(j, conv, e)
    {
      if e in Events(rows) {
        var k :| 0 <= k < |rows| && Events(rows)[k] == e;
        assert rows[k] in rows;
      }
      if LeftoverEvent(j, conv, e) {
        var i :| LeftoverOf(j, conv, i) && j.steers[i].event == e;
        assert j.steers[i] in rows;
        var k :| 0 <= k < |rows| && rows[k] == j.steers[i];
        assert Events(rows)[k] == e;
      }
    }
  }

  /** A leftover's batch still sits with the run the leftover belongs to. */
  lemma LeftoverBatch(cfg: Config, j: Journal, conv: ConvKey, e: EventId)
    requires LifeOk(cfg, j) && StagedOk(j.steers, j.batches) && BatchRowsOk(j)
    requires e in j.batches && j.batches[e].state.Staged? && LeftoverEvent(j, conv, e)
    ensures LiveRow(j, e) && j.batches[e].conv == conv
  {
    var i :| LeftoverOf(j, conv, i) && j.steers[i].event == e;
    var k :| 0 <= k < |j.steers| && j.steers[k].event == e && j.steers[k].run == j.batches[e].run && !j.steers[k].status.Taken?;
    assert i == k;
  }

  ghost predicate ResumesLedger(cfg: Config, j: Journal, conv: ConvKey, k: Journal) {
    && BatchesMoved(j, conv, k) && Moved(j, conv, k.steers)
    && |k.runs| == |j.runs| + 1 && (forall r :: IsRun(j.runs, r) ==> k.runs[r] == j.runs[r])
    && k.runs[|j.runs|].conv == conv && k.runs[|j.runs|].status.Queued?
    && k.nextBatch == j.nextBatch && k.inbox == j.inbox && k.sessions == j.sessions && k.convs == j.convs
    && LifeOk(cfg, j) && LedgerOk(j)
    && exists i :: LeftoverOf(j, conv, i)
  }

  lemma ResumeFades(cfg: Config, j: Journal, conv: ConvKey, k: Journal)
    requires ResumesLedger(cfg, j, conv, k)
    ensures Fades(j, k)
  {
    forall e | e in k.batches
      ensures SameBatch(j.batches[e], k.batches[e])
      ensures LiveRow(k, e) ==> LiveRow(j, e)
      ensures Live(k, e) ==> Live(j, e)
    {
      assert Stale(k, j.batches[e].conv) <==> Stale(j, j.batches[e].conv);
      if j.batches[e].state.Staged? && LeftoverEvent(j, conv, e) {
        LeftoverBatch(cfg, j, conv, e);
      } else if HasPendingSteer(k.steers, e) {
        var i :| 0 <= i < |k.steers| && k.steers[i].event == e && k.steers[i].status.Pending?;
        assert j.steers[i] == k.steers[i];
      }
    }
  }

  lemma ResumeRows(cfg: Config, j: Journal, conv: ConvKey, k: Journal)
    requires ResumesLedger(cfg, j, conv, k)
    ensures BatchRowsOk(k) && InFlightOk(k.runs, k.batches)
  {
    forall e | e in j.batches
      ensures SameBatch(j.batches[e], k.batches[e])
      ensures IsRun(k.runs, k.batches[e].run) && k.runs[k.batches[e].run].conv == k.batches[e].conv
      ensures k.batches[e].state.InFlight? ==> k.runs[k.batches[e].run].status.Active()
    {
      ResumeRow(cfg, j, conv, k, e);
    }
  }

  lemma ResumeRow(cfg: Config, j: Journal, conv: ConvKey, k: Journal, e: EventId)
    requires LifeOk(cfg, j) && StagedOk(j.steers, j.batches) && BatchRowsOk(j) && InFlightOk(j.runs, j.batches) && BatchesMoved(j, conv, k)
    requires |k.runs| == |j.runs| + 1 && (forall r :: IsRun(j.runs, r) ==> k.runs[r] == j.runs[r])
    requires k.runs[|j.runs|].conv == conv && k.runs[|j.runs|].status.Queued? && e in j.batches
    ensures SameBatch(j.batches[e], k.batches[e])
    ensures IsRun(k.runs, k.batches[e].run) && k.runs[k.batches[e].run].conv == k.batches[e].conv
    ensures k.batches[e].state.InFlight? ==> k.runs[k.batches[e].run].status.Active()
  {
    if j.batches[e].state.Staged? && LeftoverEvent(j, conv, e) {
      LeftoverBatch(cfg, j, conv, e);
    }
  }

  lemma ResumeStaged(cfg: Config, j: Journal, conv: ConvKey, k: Journal)
    requires ResumesLedger(cfg, j, conv, k)
    ensures StagedOk(k.steers, k.batches)
  {
    forall e | e in k.batches && k.batches[e].state.Staged?
      ensures exists i :: 0 <= i < |k.steers| && k.steers[i].event == e && k.steers[i].run == k.batches[e].run && !k.steers[i].status.Taken?
    {
      var i :| 0 <= i < |j.steers| && j.steers[i].event == e && j.steers[i].run == j.batches[e].run && !j.steers[i].status.Taken?;
      assert !LeftoverOf(j, conv, i);
      assert k.steers[i] == j.steers[i];
    }
  }

  lemma ResumeIdle(cfg: Config, j: Journal, conv: ConvKey, k: Journal)
    requires ResumesLedger(cfg, j, conv, k)
    ensures StaleIdle(k)
  {
    ResumeIdleSo(j, conv, k);
  }

  lemma ResumeIdleSo(j: Journal, conv: ConvKey, k: Journal)
    requires StaleIdle(j) && Moved(j, conv, k.steers) && k.sessions == j.sessions && k.convs == j.convs
    requires |k.runs| == |j.runs| + 1 && (forall r :: IsRun(j.runs, r) ==> k.runs[r] == j.runs[r]) && k.runs[|j.runs|].conv == conv
    requires k.runs[|j.runs|].status.Queued? && forall i :: 0 <= i < |j.steers| ==> IsRun(j.runs, j.steers[i].run)
    requires exists i :: LeftoverOf(j, conv, i)
    ensures StaleIdle(k)
  {
    var l :| LeftoverOf(j, conv, l);
    assert !Stale(j, conv);
    assert forall c :: Stale(k, c) <==> Stale(j, c);
    forall c, r | Stale(k, c)
      ensures !ActiveIn(k.runs, c, r)
    {
      assert !ActiveIn(j.runs, c, r);
    }
    forall c, i | Stale(k, c)
      ensures !LeftoverOf(k, c, i)
    {
      assert !LeftoverOf(j, c, i);
    }
  }

  lemma ResumeKeeps(cfg: Config, j: Journal, conv: ConvKey, k: Journal)
    requires ResumesLedger(cfg, j, conv, k)
    ensures LedgerOk(k) && Fades(j, k)
  {
    ResumeFades(cfg, j, conv, k);
    ResumeRows(cfg, j, conv, k);
    ResumeStaged(cfg, j, conv, k);
    ResumeIdle(cfg, j, conv, k);
    FadedToldOnce(j, k);
  }

  // ---------------------------------------------------------------- recovery

  /** Nothing runs, nothing is pending, nothing is on its way; the sessions may have been reset. */
  ghost predicate Quiesces(j: Journal, k: Journal) {
    && |k.runs| == |j.runs|
    && (forall r :: IsRun(j.runs, r) ==> k.runs[r].conv == j.runs[r].conv && !k.runs[r].status.Active())
    && |k.steers| == |j.steers| && (forall i :: 0 <= i < |k.steers| ==> !k.steers[i].status.Pending?)
    && k.batches == AbandonUntold(j.batches)
    && k.nextBatch == j.nextBatch && k.inbox == j.inbox
    && k.sessions == j.sessions && k.convs.Keys == j.convs.Keys
    && (forall c :: Stale(j, c) ==> Stale(k, c))
    && (forall c :: Stale(k, c) ==> Current(k, c).None?)
  }

  lemma QuiesceKeeps(j: Journal, k: Journal)
    requires BatchRowsOk(j) && ToldOnce(j) && Quiesces(j, k)
    ensures LedgerOk(k) && Fades(j, k)
  {
    forall e | e in k.batches
      ensures SameBatch(j.batches[e], k.batches[e]) && k.batches[e].run == j.batches[e].run
      ensures LiveRow(k, e) ==> LiveRow(j, e)
      ensures Live(k, e) ==> Live(j, e)
    {
      QuiesceRow(j, k, e);
    }
    QuiesceRest(j, k);
    FadedToldOnce(j, k);
  }

  lemma QuiesceRow(j: Journal, k: Journal, e: EventId)
    requires Quiesces(j, k) && e in k.batches && IsRun(j.runs, j.batches[e].run)
    ensures SameBatch(j.batches[e], k.batches[e]) && k.batches[e].run == j.batches[e].run
    ensures (LiveRow(k, e) ==> LiveRow(j, e)) && (Live(k, e) ==> Live(j, e))
  {
    assert Stale(j, j.batches[e].conv) ==> Stale(k, j.batches[e].conv);
  }

  lemma QuiesceRest(j: Journal, k: Journal)
    requires BatchRowsOk(j) && Quiesces(j, k)
    ensures BatchRowsOk(k) && InFlightOk(k.runs, k.batches) && StagedOk(k.steers, k.batches) && StaleIdle(k)
  {
    assert RowsSettle(j.batches, k.batches);
    RowsKeep(j, k);
    assert forall e :: e in k.batches ==> !k.batches[e].state.Staged? && !k.batches[e].state.InFlight?;
    QuiesceIdle(j, k);
  }

  lemma QuiesceIdle(j: Journal, k: Journal)
    requires Quiesces(j, k)
    ensures StaleIdle(k)
  {}
}
