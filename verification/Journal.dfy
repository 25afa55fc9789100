/**
 The journal as a value: one component per table, in row order where rows have an order, and one
 function per SQL statement or transaction. The `Bridge` class is proved against these functions.
 */
module Journal {
  import opened Model
  import opened Text
  import opened Context

  datatype SteerStatus = Pending | Taken | Dropped | CutOff      // 'pending' 'delivered' 'cancelled' 'interrupted'
  datatype BatchState = Staged | InFlight | Told | Abandoned     // 'pending' 'inflight' 'delivered' 'abandoned'

  datatype ConvRow = ConvRow(policy: string, audience: Audience, session: Option<SessionId>)
  datatype RunRow = RunRow(conv: ConvKey, prompt: string, status: Status)
  datatype SteerRow = SteerRow(event: EventId, run: RunId, prompt: string, status: SteerStatus)
  datatype Batch = Batch(row: nat, conv: ConvKey, run: RunId, events: seq<Mark>, initial: bool, state: BatchState, delivery: Delivery)
  datatype ApprovalRow = ApprovalRow(request: RequestId, run: RunId, options: seq<Choice>, expires: int, consumed: bool)
  datatype OutputRow = OutputRow(run: RunId, body: string)
  datatype OutRow = OutRow(conv: ConvKey, body: string, reaction: Option<Reaction>, delivered: Option<EventId>)
  datatype CleanupRow = CleanupRow(target: Txn, delivered: Option<EventId>)

  datatype Journal = Journal(
    inbox: set<(RoomId, EventId)>,
    convs: map<ConvKey, ConvRow>,
    permissions: map<ConvKey, bool>,
    runs: seq<RunRow>,
    inputs: map<RunId, EventId>,
    steers: seq<SteerRow>,
    batches: map<EventId, Batch>,
    nextBatch: nat,
    sessions: map<ConvKey, Option<SessionId>>,
    approvals: seq<ApprovalRow>,
    decisions: map<RequestId, string>,
    output: seq<OutputRow>,
    outbox: seq<OutRow>,
    cleanup: seq<CleanupRow>,
    explicit: map<Txn, RunId>,
    failures: set<Txn>)

  datatype Step<+T> = Step(journal: Journal, value: T)

  // ---------------------------------------------------------------- runs

  predicate IsRun(runs: seq<RunRow>, r: int) { 0 <= r < |runs| }

  predicate ActiveIn(runs: seq<RunRow>, conv: ConvKey, r: int) {
    IsRun(runs, r) && runs[r].conv == conv && runs[r].status.Active()
  }

  /** The partial unique index: the active run of a conversation, first row first. */
  function FindActive(runs: seq<RunRow>, conv: ConvKey): (r: Option<RunId>)
    ensures r.Some? ==> ActiveIn(runs, conv, r.value)
    ensures r.None? ==> forall k :: !ActiveIn(runs, conv, k)
  {
    FindActiveFrom(runs, conv, 0)
  }

  function FindActiveFrom(runs: seq<RunRow>, conv: ConvKey, from: nat): (r: Option<RunId>)
    requires from <= |runs|
    ensures r.Some? ==> from <= r.value && ActiveIn(runs, conv, r.value)
    ensures r.None? ==> forall k :: from <= k ==> !ActiveIn(runs, conv, k)
    decreases |runs| - from
  {
    if from == |runs| then None
    else if ActiveIn(runs, conv, from) then Some(from)
    else FindActiveFrom(runs, conv, from + 1)
  }

  function CountActive(runs: seq<RunRow>): nat {
    if runs == [] then 0
    else CountActive(runs[..|runs| - 1]) + (if runs[|runs| - 1].status.Active() then 1 else 0)
  }

  /** The conversation's newest run. */
  function LastRun(runs: seq<RunRow>, conv: ConvKey): (r: Option<RunId>)
    ensures r.Some? ==> IsRun(runs, r.value) && runs[r.value].conv == conv
    ensures forall k :: IsRun(runs, k) && runs[k].conv == conv ==> r.Some? && k <= r.value
  {
    if runs == [] then None
    else if runs[|runs| - 1].conv == conv then Some(|runs| - 1)
    else LastRun(runs[..|runs| - 1], conv)
  }

  function SetStatus(runs: seq<RunRow>, r: RunId, status: Status): seq<RunRow>
    requires IsRun(runs, r)
  {
    runs[r := runs[r].(status := status)]
  }

  // ---------------------------------------------------------------- steers

  function CancelConvSteers(steers: seq<SteerRow>, runs: seq<RunRow>, conv: ConvKey): (s: seq<SteerRow>)
    ensures |s| == |steers|
    ensures forall i :: 0 <= i < |s| ==>
      s[i] == if steers[i].status.Pending? && steers[i].run < |runs| && runs[steers[i].run].conv == conv
              then steers[i].(status := Dropped) else steers[i]
  {
    seq(|steers|, i requires 0 <= i < |steers| =>
      if steers[i].status.Pending? && steers[i].run < |runs| && runs[steers[i].run].conv == conv
      then steers[i].(status := Dropped) else steers[i])
  }

  function CancelRunSteers(steers: seq<SteerRow>, run: RunId): (s: seq<SteerRow>)
    ensures |s| == |steers|
    ensures forall i :: 0 <= i < |s| ==>
      s[i] == if steers[i].status.Pending? && steers[i].run == run then steers[i].(status := Dropped) else steers[i]
  {
    seq(|steers|, i requires 0 <= i < |steers| =>
      if steers[i].status.Pending? && steers[i].run == run then steers[i].(status := Dropped) else steers[i])
  }

  function DeliverSteer(steers: seq<SteerRow>, event: EventId, run: RunId): (s: seq<SteerRow>)
    ensures |s| == |steers|
    ensures forall i :: 0 <= i < |s| ==>
      s[i] == if steers[i].status.Pending? && steers[i].event == event && steers[i].run == run
              then steers[i].(status := Taken) else steers[i]
  {
    seq(|steers|, i requires 0 <= i < |steers| =>
      if steers[i].status.Pending? && steers[i].event == event && steers[i].run == run
      then steers[i].(status := Taken) else steers[i])
  }

  function MoveSteer(steers: seq<SteerRow>, event: EventId, run: RunId): (s: seq<SteerRow>)
    ensures |s| == |steers|
    ensures forall i :: 0 <= i < |s| ==>
      s[i] == if steers[i].event == event then steers[i].(run := run, status := Taken) else steers[i]
  {
    seq(|steers|, i requires 0 <= i < |steers| =>
      if steers[i].event == event then steers[i].(run := run, status := Taken) else steers[i])
  }

  function CutOffSteers(steers: seq<SteerRow>): (s: seq<SteerRow>)
    ensures |s| == |steers|
    ensures forall i :: 0 <= i < |s| ==>
      s[i] == if steers[i].status.Pending? then steers[i].(status := CutOff) else steers[i]
  {
    seq(|steers|, i requires 0 <= i < |steers| =>
      if steers[i].status.Pending? then steers[i].(status := CutOff) else steers[i])
  }

  predicate HasSteer(steers: seq<SteerRow>, event: EventId) {
    exists i :: 0 <= i < |steers| && steers[i].event == event
  }

  predicate HasPendingSteer(steers: seq<SteerRow>, event: EventId) {
    exists i :: 0 <= i < |steers| && steers[i].event == event && steers[i].status.Pending?
  }

  predicate RunHasPendingSteer(steers: seq<SteerRow>, run: RunId) {
    exists i :: 0 <= i < |steers| && steers[i].run == run && steers[i].status.Pending?
  }

  /** `SELECT event FROM run_steers WHERE run=? AND status='delivered' AND event<>?`. */
  function TakenBy(steers: seq<SteerRow>, run: RunId, except: EventId): (r: seq<EventId>)
    ensures forall e :: e in r <==> exists i :: 0 <= i < |steers| && steers[i] .event == e && steers[i].run == run && steers[i].status.Taken? && e != except
  {
    if steers == [] then []
    else
      var last := steers[|steers| - 1];
      var rest := TakenBy(steers[..|steers| - 1], run, except);
      if last.run == run && last.status.Taken? && last.event != except then rest + [last.event] else rest
  }

  // ---------------------------------------------------------------- approvals

  function FindApproval(approvals: seq<ApprovalRow>, request: RequestId): (r: Option<nat>)
    ensures r.Some? ==> r.value < |approvals| && approvals[r.value].request == request
    ensures r.None? ==> forall i :: 0 <= i < |approvals| ==> approvals[i].request != request
  {
    if approvals == [] then None
    else if approvals[|approvals| - 1].request == request then Some(|approvals| - 1)
    else FindApproval(approvals[..|approvals| - 1], request)
  }

  /** Some approval of the run is still unanswered. */
  predicate Waiting(approvals: seq<ApprovalRow>, run: RunId) {
    exists i :: 0 <= i < |approvals| && approvals[i].run == run && !approvals[i].consumed
  }

  function ConsumeRun(approvals: seq<ApprovalRow>, run: RunId): (a: seq<ApprovalRow>)
    ensures |a| == |approvals|
    ensures forall i :: 0 <= i < |a| ==>
      a[i] == if approvals[i].run == run then approvals[i].(consumed := true) else approvals[i]
  {
    seq(|approvals|, i requires 0 <= i < |approvals| =>
      if approvals[i].run == run then approvals[i].(consumed := true) else approvals[i])
  }

  function ConsumeRequest(approvals: seq<ApprovalRow>, request: RequestId): (a: seq<ApprovalRow>)
    ensures |a| == |approvals|
    ensures forall i :: 0 <= i < |a| ==>
      a[i] == if approvals[i].request == request then approvals[i].(consumed := true) else approvals[i]
  {
    seq(|approvals|, i requires 0 <= i < |approvals| =>
      if approvals[i].request == request then approvals[i].(consumed := true) else approvals[i])
  }

  function ConsumeAll(approvals: seq<ApprovalRow>): (a: seq<ApprovalRow>)
    ensures |a| == |approvals|
    ensures forall i :: 0 <= i < |a| ==> a[i] == approvals[i].(consumed := true)
  {
    seq(|approvals|, i requires 0 <= i < |approvals| => approvals[i].(consumed := true))
  }

  // ---------------------------------------------------------------- context ledger

  function AbandonStaged(batches: map<EventId, Batch>, conv: ConvKey): map<EventId, Batch> {
    map e | e in batches ::
      if batches[e].conv == conv && batches[e].state.Staged? then batches[e].(state := Abandoned) else batches[e]
  }

  function AbandonRunStaged(batches: map<EventId, Batch>, run: RunId): map<EventId, Batch> {
    map e | e in batches ::
      if batches[e].run == run && batches[e].state.Staged? then batches[e].(state := Abandoned) else batches[e]
  }

  function AbandonRunInFlight(batches: map<EventId, Batch>, run: RunId): map<EventId, Batch> {
    map e | e in batches ::
      if batches[e].run == run && batches[e].state.InFlight? then batches[e].(state := Abandoned) else batches[e]
  }

  function AbandonUntold(batches: map<EventId, Batch>): map<EventId, Batch> {
    map e | e in batches ::
      if batches[e].state.Staged? || batches[e].state.InFlight? then batches[e].(state := Abandoned) else batches[e]
  }

  /** The agent produced something after reading its input: what was in flight has been told. */
  function Observed(batches: map<EventId, Batch>, run: RunId): map<EventId, Batch> {
    map e | e in batches ::
      if batches[e].run == run && batches[e].state.InFlight? then batches[e].(state := Told) else batches[e]
  }

  function SendBatch(batches: map<EventId, Batch>, input: EventId, run: RunId): map<EventId, Batch> {
    if input in batches && batches[input].run == run && batches[input].state.Staged?
    then batches[input := batches[input].(state := InFlight)] else batches
  }

  function MoveBatch(batches: map<EventId, Batch>, input: EventId, run: RunId): map<EventId, Batch> {
    if input in batches && batches[input].state.Staged?
    then batches[input := batches[input].(run := run, state := InFlight)] else batches
  }

  function WithoutConv(batches: map<EventId, Batch>, conv: ConvKey): map<EventId, Batch> {
    map e | e in batches && batches[e].conv != conv :: batches[e]
  }

  function Current(j: Journal, conv: ConvKey): Option<SessionId> {
    if conv in j.convs then j.convs[conv].session else None
  }

  /** The ledger was kept for a session other than the conversation's present one. */
  predicate Stale(j: Journal, conv: ConvKey) {
    conv in j.sessions && (conv !in j.convs || j.sessions[conv] != j.convs[conv].session)
  }

  /** A batch whose events count as told, or as on their way to the agent. */
  predicate LiveRow(j: Journal, e: EventId)
  {
    e in j.batches &&
    var b := j.batches[e];
    b.run < |j.runs| &&
    ( || b.state.Told?
      || ((b.state.Staged? || b.state.InFlight?) && j.runs[b.run].status.Active())
      || (b.state.Staged? && j.runs[b.run].status.Resumable() && HasPendingSteer(j.steers, e)) )
  }

  predicate Live(j: Journal, e: EventId) {
    LiveRow(j, e) && !Stale(j, j.batches[e].conv)
  }

  function Acknowledged(outbox: seq<OutRow>, conv: ConvKey): (s: set<Mark>)
    ensures forall m :: m in s <==>
      exists i :: 0 <= i < |outbox| && outbox[i].conv == conv && outbox[i].delivered.Some? && m == Said(outbox[i].delivered.value)
  {
    set i | 0 <= i < |outbox| && outbox[i].conv == conv && outbox[i].delivered.Some? :: Said(outbox[i].delivered.value)
  }

  predicate Initialized(j: Journal, conv: ConvKey) {
    exists e :: e in j.batches && Live(j, e) && j.batches[e].conv == conv && j.batches[e].initial
  }

  function SeenInBatches(j: Journal, conv: ConvKey): (s: set<Mark>)
    ensures forall m :: m in s <==> exists e :: e in j.batches && Live(j, e) && j.batches[e].conv == conv && m in j.batches[e].events
  {
    set e, m | e in j.batches && Live(j, e) && j.batches[e].conv == conv && m in j.batches[e].events :: m
  }

  function Seen(j: Journal, conv: ConvKey): set<Mark> {
    SeenInBatches(j, conv) + (if Initialized(j, conv) then Acknowledged(j.outbox, conv) else {})
  }

  /** `b` is the last row, in row order, among the conversation's live batches. */
  predicate LatestLive(j: Journal, conv: ConvKey, e: EventId) {
    && e in j.batches && Live(j, e) && j.batches[e].conv == conv
    && forall o :: o in j.batches && Live(j, o) && j.batches[o].conv == conv ==> j.batches[o].row <= j.batches[e].row
  }

  ghost function LastDelivery(j: Journal, conv: ConvKey): Option<Delivery> {
    if exists e :: LatestLive(j, conv, e) then
      var e :| LatestLive(j, conv, e);
      Some(j.batches[e].delivery)
    else None
  }
}
