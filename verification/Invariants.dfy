/** What every reachable journal satisfies, table group by table group. */
module Invariants {
  import opened Model
  import opened Text
  import opened Context
  import opened Journal
  import opened Rules

  // ---------------------------------------------------------------- runs, inputs and follow-ups

  /** At most one active run per conversation: what the partial unique index enforces. */
  ghost predicate OneActive(runs: seq<RunRow>) {
    forall c, a, b :: ActiveIn(runs, c, a) && ActiveIn(runs, c, b) ==> a == b
  }

  ghost predicate InputsOk(runs: seq<RunRow>, inputs: map<RunId, EventId>) {
    && (forall r: RunId :: r in inputs <==> IsRun(runs, r))
    && (forall a: RunId, b: RunId :: a in inputs && b in inputs && inputs[a] == inputs[b] ==> a == b)
  }

  ghost predicate SteersOk(runs: seq<RunRow>, inputs: map<RunId, EventId>, steers: seq<SteerRow>) {
    && (forall i :: 0 <= i < |steers| ==> IsRun(runs, steers[i].run))
    && (forall i, k :: 0 <= i < |steers| && 0 <= k < |steers| && steers[i].event == steers[k].event ==> i == k)
    && (forall i, r: RunId :: 0 <= i < |steers| && r in inputs && inputs[r] == steers[i].event ==>
          steers[i].run == r && steers[i].status.Taken?)
  }

  ghost predicate Arrived(inbox: set<(RoomId, EventId)>, runs: seq<RunRow>, inputs: map<RunId, EventId>, steers: seq<SteerRow>) {
    && (forall r: RunId :: r in inputs && IsRun(runs, r) ==> (runs[r].conv.room, inputs[r]) in inbox)
    && (forall i :: 0 <= i < |steers| && IsRun(runs, steers[i].run) ==> (runs[steers[i].run].conv.room, steers[i].event) in inbox)
  }

  ghost predicate InboxOk(cfg: Config, inbox: set<(RoomId, EventId)>) {
    forall k :: k in inbox ==> k.0 == cfg.home(k.1)
  }

  ghost predicate ConvsOk(runs: seq<RunRow>, convs: map<ConvKey, ConvRow>) {
    forall r :: IsRun(runs, r) ==> runs[r].conv in convs
  }

  ghost predicate LifeOk(cfg: Config, j: Journal) {
    && OneActive(j.runs)
    && InputsOk(j.runs, j.inputs)
    && SteersOk(j.runs, j.inputs, j.steers)
    && Arrived(j.inbox, j.runs, j.inputs, j.steers)
    && InboxOk(cfg, j.inbox)
    && ConvsOk(j.runs, j.convs)
  }

  /** How runs and follow-ups may change: terminal states absorb, cancelling only ends, what was taken stays taken. */
  ghost predicate Grows(j: Journal, k: Journal) {
    && |j.runs| <= |k.runs| && |j.steers| <= |k.steers|
    && (forall r :: IsRun(j.runs, r) ==>
          && k.runs[r].conv == j.runs[r].conv && k.runs[r].prompt == j.runs[r].prompt
          && (!j.runs[r].status.Active() ==> k.runs[r].status == j.runs[r].status)
          && (j.runs[r].status.Cancelling? ==> k.runs[r].status.Cancelling? || !k.runs[r].status.Active()))
    && (forall r: RunId :: r in j.inputs ==> r in k.inputs && k.inputs[r] == j.inputs[r])
    && (forall i :: 0 <= i < |j.steers| && IsRun(j.runs, j.steers[i].run) ==> SteerGrows(j, k, i))
  }

  ghost predicate SteerGrows(j: Journal, k: Journal, i: int)
    requires 0 <= i < |j.steers| && i < |k.steers| && IsRun(j.runs, j.steers[i].run)
  {
    && k.steers[i].event == j.steers[i].event && k.steers[i].prompt == j.steers[i].prompt
    && IsRun(k.runs, k.steers[i].run) && k.runs[k.steers[i].run].conv == j.runs[j.steers[i].run].conv
    && (!j.steers[i].status.Pending? ==> k.steers[i] == j.steers[i])
  }

  // ---------------------------------------------------------------- approvals

  ghost predicate ApprovalRowsOk(runs: seq<RunRow>, approvals: seq<ApprovalRow>, decisions: map<RequestId, string>) {
    && (forall i :: 0 <= i < |approvals| ==> IsRun(runs, approvals[i].run))
    && (forall i, k :: 0 <= i < |approvals| && 0 <= k < |approvals| && approvals[i].request == approvals[k].request ==> i == k)
    && (forall q :: q in decisions ==> exists i :: 0 <= i < |approvals| && approvals[i].request == q && approvals[i].consumed)
  }

  /** A run waits exactly when one of its requests is unanswered. */
  ghost predicate WaitsExactly(runs: seq<RunRow>, approvals: seq<ApprovalRow>) {
    forall r :: IsRun(runs, r) ==> (runs[r].status.WaitingApproval? <==> Waiting(approvals, r))
  }

  ghost predicate ApprovalsOk(runs: seq<RunRow>, approvals: seq<ApprovalRow>, decisions: map<RequestId, string>) {
    ApprovalRowsOk(runs, approvals, decisions) && WaitsExactly(runs, approvals)
  }

  // ---------------------------------------------------------------- buffered output

  /** Only an active run holds unpublished text. */
  ghost predicate OutputOk(runs: seq<RunRow>, output: seq<OutputRow>) {
    forall i :: 0 <= i < |output| ==> IsRun(runs, output[i].run) && runs[output[i].run].status.Active()
  }

  // ---------------------------------------------------------------- reactions

  /** The run that will report, or has reported, on a message. */
  ghost predicate Owns(j: Journal, r: int, e: EventId) {
    && IsRun(j.runs, r)
    && ( || (r in j.inputs && j.inputs[r] == e)
         || exists i :: 0 <= i < |j.steers| && j.steers[i].event == e && j.steers[i].run == r && j.steers[i].status.Taken?)
  }

  ghost predicate Known(j: Journal, conv: ConvKey, e: EventId) {
    || (exists r: RunId :: r in j.inputs && IsRun(j.runs, r) && j.inputs[r] == e && j.runs[r].conv == conv)
    || (exists i :: 0 <= i < |j.steers| && IsRun(j.runs, j.steers[i].run) && j.steers[i].event == e && j.runs[j.steers[i].run].conv == conv)
  }

  predicate Reacts(outbox: seq<OutRow>, t: int) {
    0 <= t < |outbox| && outbox[t].reaction.Some?
  }

  /** Both the eyes, or both the outcome, of one message. */
  predicate SameReport(a: Reaction, b: Reaction) {
    a.event == b.event && (a.emoji.Eyes? <==> b.emoji.Eyes?)
  }

  ghost predicate ReactionsOnce(outbox: seq<OutRow>) {
    forall a, b :: Reacts(outbox, a) && Reacts(outbox, b) && SameReport(outbox[a].reaction.value, outbox[b].reaction.value) ==> a == b
  }

  ghost predicate ReactionsGrounded(j: Journal) {
    forall t :: Reacts(j.outbox, t) ==>
      var e := j.outbox[t].reaction.value.event;
      && Known(j, j.outbox[t].conv, e)
      && (j.outbox[t].reaction.value.emoji.Terminal() ==> Reported(j, e, j.outbox[t].reaction.value.emoji))
  }

  /** The run that owns the message has ended, in the state the emoji stands for. */
  ghost predicate Reported(j: Journal, e: EventId, emoji: Emoji) {
    exists r :: Owns(j, r, e) && !j.runs[r].status.Active() && emoji == EmojiFor(j.runs[r].status)
  }

  /** A cleanup row exists exactly for eyes whose later terminal reaction has been acknowledged, and once. */
  ghost predicate CleanupOk(outbox: seq<OutRow>, cleanup: seq<CleanupRow>) {
    && (forall i, k :: 0 <= i < |cleanup| && 0 <= k < |cleanup| && cleanup[i].target == cleanup[k].target ==> i == k)
    && (forall t: Txn :: HasCleanup(cleanup, t) <==> CleanupDue(outbox, t))
  }

  ghost predicate CleanupDue(outbox: seq<OutRow>, t: int) {
    exists k :: Superseded(outbox, k, t) && outbox[k].delivered.Some?
  }

  ghost predicate ReactionsOk(j: Journal) {
    ReactionsOnce(j.outbox) && ReactionsGrounded(j) && CleanupOk(j.outbox, j.cleanup)
  }

  // ---------------------------------------------------------------- the context ledger

  /** Everything quoted besides the request itself. */
  function Quoted(b: Batch): seq<Mark> {
    if b.events == [] then [] else b.events[..|b.events| - 1]
  }

  ghost predicate BatchRowsOk(j: Journal) {
    && (forall e :: e in j.batches ==>
          && IsRun(j.runs, j.batches[e].run)
          && j.runs[j.batches[e].run].conv == j.batches[e].conv
          && j.batches[e].row < j.nextBatch
          && j.batches[e].conv in j.sessions
          && (j.batches[e].conv.room, e) in j.inbox)
    && (forall e, o :: e in j.batches && o in j.batches && j.batches[e].row == j.batches[o].row ==> e == o)
    && (forall c :: c in j.sessions ==> c in j.convs)
  }

  ghost predicate InFlightOk(runs: seq<RunRow>, batches: map<EventId, Batch>) {
    forall e :: e in batches && batches[e].state.InFlight? && IsRun(runs, batches[e].run) ==> runs[batches[e].run].status.Active()
  }

  /** A staged batch travels with its follow-up. */
  ghost predicate StagedOk(steers: seq<SteerRow>, batches: map<EventId, Batch>) {
    forall e :: e in batches && batches[e].state.Staged? ==>
      exists i :: 0 <= i < |steers| && steers[i].event == e && steers[i].run == batches[e].run && !steers[i].status.Taken?
  }

  /** While the ledger belongs to another session, nothing of the conversation is going on. */
  ghost predicate StaleIdle(j: Journal) {
    && (forall c, r :: Stale(j, c) ==> !ActiveIn(j.runs, c, r))
    && (forall c, i :: Stale(j, c) ==> !LeftoverOf(j, c, i))
    && (forall c :: Stale(j, c) ==> Current(j, c).None?)
  }

  ghost predicate Apart(j: Journal, earlier: EventId, later: EventId)
    requires earlier in j.batches && later in j.batches
  {
    && (forall m :: m in Quoted(j.batches[later]) ==> m !in j.batches[earlier].events)
    && !(j.batches[earlier].initial && j.batches[later].initial)
  }

  /** Nothing is told twice: live batches of a conversation quote disjointly, and only one carries the baseline. */
  ghost predicate ToldOnce(j: Journal) {
    forall e, o :: LiveRow(j, e) && LiveRow(j, o) && j.batches[e].conv == j.batches[o].conv && j.batches[e].row < j.batches[o].row ==>
      Apart(j, e, o)
  }

  /** The same batch, wherever it has got to. */
  predicate SameBatch(a: Batch, b: Batch) {
    a.row == b.row && a.conv == b.conv && a.events == b.events && a.initial == b.initial && a.delivery == b.delivery
  }

  /** Later in a history, an earlier batch can only have lost its claim to be told. */
  ghost predicate Fades(j: Journal, k: Journal) {
    && j.nextBatch <= k.nextBatch
    && forall e :: e in k.batches && k.batches[e].row < j.nextBatch ==>
         && e in j.batches && SameBatch(j.batches[e], k.batches[e])
         && (LiveRow(k, e) ==> LiveRow(j, e))
         && (Live(k, e) ==> Live(j, e))
  }

  ghost predicate LedgerOk(j: Journal) {
    BatchRowsOk(j) && InFlightOk(j.runs, j.batches) && StagedOk(j.steers, j.batches) && StaleIdle(j) && ToldOnce(j)
  }

  ghost predicate Inv(cfg: Config, j: Journal) {
    LifeOk(cfg, j) && ApprovalsOk(j.runs, j.approvals, j.decisions) && OutputOk(j.runs, j.output) && ReactionsOk(j) && LedgerOk(j)
  }
}
