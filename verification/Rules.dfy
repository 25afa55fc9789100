/** The bridge's transactions as functions of the journal. */
module Rules {
  import opened Model
  import opened Text
  import opened Context
  import opened Journal

  // ---------------------------------------------------------------- outbox

  const CHUNK: nat := 6000

  /** Consecutive pieces of at most 6000 scalars. */
  function Chunks(body: string): (r: seq<string>)
    ensures Concat(r) == body
    ensures forall i :: 0 <= i < |r| ==> 1 <= |r[i]| <= CHUNK
    ensures forall i :: 0 <= i < |r| - 1 ==> |r[i]| == CHUNK
  {
    if body == [] then []
    else if |body| <= CHUNK then
      assert Concat([body]) == body + Concat([]);
      [body]
    else
      [body[..CHUNK]] + Chunks(body[CHUNK..])
  }

  function TextRows(conv: ConvKey, body: string): (r: seq<OutRow>)
    ensures |r| == |Chunks(body)|
    ensures forall i :: 0 <= i < |r| ==> r[i] == OutRow(conv, Chunks(body)[i], None, None)
  {
    var chunks := Chunks(body);
    seq(|chunks|, i requires 0 <= i < |chunks| => OutRow(conv, chunks[i], None, None))
  }

  function ReactionRow(conv: ConvKey, event: EventId, emoji: Emoji): OutRow {
    OutRow(conv, "", Some(Reaction(event, emoji)), None)
  }

  function ReactionRows(conv: ConvKey, events: seq<EventId>, emoji: Emoji): (r: seq<OutRow>)
    ensures |r| == |events|
    ensures forall i :: 0 <= i < |r| ==> r[i] == ReactionRow(conv, events[i], emoji)
  {
    seq(|events|, i requires 0 <= i < |events| => ReactionRow(conv, events[i], emoji))
  }

  function Enqueue(j: Journal, conv: ConvKey, body: string): Journal {
    j.(outbox := j.outbox + TextRows(conv, body))
  }

  function EnqueueReaction(j: Journal, conv: ConvKey, event: EventId, emoji: Emoji): Journal {
    j.(outbox := j.outbox + [ReactionRow(conv, event, emoji)])
  }

  function Buffer(output: seq<OutputRow>, run: RunId): string {
    if output == [] then []
    else
      var last := output[|output| - 1];
      Buffer(output[..|output| - 1], run) + (if last.run == run then last.body else [])
  }

  function DropOutput(output: seq<OutputRow>, run: RunId): (r: seq<OutputRow>)
    ensures forall o :: o in r <==> o in output && o.run != run
  {
    if output == [] then []
    else
      var last := output[|output| - 1];
      var rest := DropOutput(output[..|output| - 1], run);
      if last.run == run then rest else rest + [last]
  }

  /** Publish what the run has said since the last boundary; whitespace alone is not published. */
  function Flush(j: Journal, run: RunId, conv: ConvKey): Journal {
    var text := Buffer(j.output, run);
    j.(outbox := if Blank(text) then j.outbox else j.outbox + TextRows(conv, text),
       output := DropOutput(j.output, run))
  }

  // ---------------------------------------------------------------- admission

  predicate Authorized(cfg: Config, event: Incoming, room: RoomSnapshot) {
    event.room in cfg.rooms &&
    var policy := cfg.rooms[event.room];
    && !event.unavailable
    && event.encrypted
    && (event.verifiedDevice || (event.knownSenderDevice && policy.accountTrust))
    && room.joined && room.encrypted
    && event.sender in policy.operators
    && event.sender in room.members
    && cfg.bot in room.members
    && policy.PermitsMembers(room.members)
    && event.sender != cfg.bot
  }

  function ConversationOf(cfg: Config, event: Incoming): ConvKey
    requires event.room in cfg.rooms
  {
    ConvKey(event.room,
            if !cfg.rooms[event.room].threads then None
            else if event.threadRoot.Some? then event.threadRoot else Some(event.event))
  }

  datatype Admission = Refused(disposition: Disposition) | Admitted(conv: ConvKey)

  predicate ReplyToBot(j: Journal, event: Incoming, conv: ConvKey) {
    event.replyTo.Some? && exists i :: 0 <= i < |j.outbox| && j.outbox[i].conv == conv && j.outbox[i].delivered == event.replyTo
  }

  function Admit(cfg: Config, j: Journal, event: Incoming, room: RoomSnapshot): (a: Admission)
    ensures a.Admitted? ==> Authorized(cfg, event, room) && a.conv == ConversationOf(cfg, event)
  {
    if !Authorized(cfg, event, room) then Refused(Denied) else
      var conv := ConversationOf(cfg, event);
      var audience := cfg.rooms[event.room].AudienceBinding(room.members);
      var bound := conv in j.convs;
      if bound && (j.convs[conv].policy != cfg.binding(conv) || j.convs[conv].audience != audience) then Refused(Denied)
      else
        var command := IsCommand(event.body);
        if !command && cfg.bot !in event.mentions && !(event.threadRoot.Some? && bound) && !ReplyToBot(j, event, conv)
        then Refused(Ignored)
        else if command && !bound then Refused(Ignored)
        else Admitted(conv)
  }

  predicate NeedsContext(cfg: Config, j: Journal, event: Incoming, room: RoomSnapshot) {
    && !IsCommand(event.body)
    && Admit(cfg, j, event, room).Admitted?
    && (event.room, event.event) !in j.inbox
  }

  // ---------------------------------------------------------------- incoming messages

  ghost function PrepareContext(cfg: Config, j: Journal, event: Incoming, history: seq<Incoming>): Result<Prepared, Error>
    requires event.room in cfg.rooms
  {
    var conv := ConversationOf(cfg, event);
    var initial := !Initialized(j, conv);
    match Prepare(cfg, event, history, Seen(j, conv), initial)
    case Failure(e) => Failure(e)
    case Success(p) =>
      if !initial && LastDelivery(j, conv) != Some(p.delivery)
      then Success(p.(prompt := cfg.text(DeliveryChanged(p.delivery)) + "\n\n" + p.prompt))
      else Success(p)
  }

  /** Record the prompt's events against its input; a stale ledger is dropped first. */
  ghost function Stage(j: Journal, conv: ConvKey, run: RunId, input: EventId, p: Prepared, steering: bool): Result<Journal, Error>
  {
    var kept := if Stale(j, conv) then WithoutConv(j.batches, conv) else j.batches;
    if input in kept then Failure(Conflict)
    else
      Success(j.(
        batches := kept[input := Batch(j.nextBatch, conv, run, p.events, p.initial, if steering then Staged else InFlight, p.delivery)],
        nextBatch := j.nextBatch + 1,
        sessions := j.sessions[conv := Current(j, conv)]))
  }

  ghost function StageIfPrepared(j: Journal, conv: ConvKey, run: RunId, input: EventId, p: Option<Prepared>, steering: bool): Result<Journal, Error>
  {
    if p.None? then Success(j) else Stage(j, conv, run, input, p.value, steering)
  }

  function Register(cfg: Config, j: Journal, event: Incoming, room: RoomSnapshot, conv: ConvKey): Journal
    requires event.room in cfg.rooms
  {
    j.(inbox := j.inbox + {(event.room, event.event)},
       convs := if conv in j.convs then j.convs
                else j.convs[conv := ConvRow(cfg.binding(conv), cfg.rooms[event.room].AudienceBinding(room.members), None)])
  }

  /** A follow-up to an active run. */
  ghost function FollowUp(cfg: Config, j: Journal, event: Incoming, conv: ConvKey, run: RunId, prompt: string, p: Option<Prepared>)
    : Result<Step<seq<Effect>>, Error>
    requires IsRun(j.runs, run)
  {
    if HasSteer(j.steers, event.event) then Failure(Conflict) else
      var j1 := j.(steers := j.steers + [SteerRow(event.event, run, prompt, Pending)]);
      match StageIfPrepared(j1, conv, run, event.event, p, true)
      case Failure(e) => Failure(e)
      case Success(j2) =>
        Success(Step(EnqueueReaction(j2, conv, event.event, Eyes),
                     if j.runs[run].status.Cancelling? then [] else [Steer(run, event.event, prompt)]))
  }

  /** A message that opens a run, if the worker has room for one. */
  ghost function OpenRun(cfg: Config, j: Journal, event: Incoming, conv: ConvKey, prompt: string, p: Option<Prepared>)
    : Result<Step<seq<Effect>>, Error>
  {
    if cfg.maxRuns != 0 && CountActive(j.runs) >= cfg.maxRuns then
      Success(Step(Enqueue(j, conv, cfg.text(AtCapacity)), []))
    else if FindActive(j.runs, conv).Some? then Failure(Conflict)
    else
      var id := |j.runs|;
      var j1 := j.(runs := j.runs + [RunRow(conv, prompt, Queued)], inputs := j.inputs[id := event.event]);
      match StageIfPrepared(j1, conv, id, event.event, p, false)
      case Failure(e) => Failure(e)
      case Success(j2) => Success(Step(EnqueueReaction(j2, conv, event.event, Eyes), [Start(id)]))
  }

  function StopConversation(cfg: Config, j: Journal, conv: ConvKey): Step<seq<Effect>> {
    var active := FindActive(j.runs, conv);
    var j1 := j.(batches := AbandonStaged(j.batches, conv), steers := CancelConvSteers(j.steers, j.runs, conv));
    if active.None? then Step(Enqueue(j1, conv, cfg.text(NothingToStop)), [])
    else
      var r := active.value;
      var j2 := j1.(runs := SetStatus(j.runs, r, Status.Cancelling),
                    approvals := ConsumeRun(j.approvals, r),
                    steers := CancelRunSteers(j1.steers, r));
      Step(Enqueue(j2, conv, cfg.text(StopRequested)), [Effect.Cancel(r)])
  }

  /** The approval a command in this conversation may answer. */
  predicate Answerable(j: Journal, conv: ConvKey, request: RequestId, now: int) {
    var found := FindApproval(j.approvals, request);
    found.Some? &&
    var a := j.approvals[found.value];
    IsRun(j.runs, a.run) && j.runs[a.run].conv == conv && j.runs[a.run].status.WaitingApproval?
    && !a.consumed && a.expires > now
  }

  /** Answer one request; the run goes on once nothing else is waiting. */
  function Answer(j: Journal, request: RequestId, run: RunId): Journal
    requires IsRun(j.runs, run)
  {
    var approvals := ConsumeRequest(j.approvals, request);
    j.(approvals := approvals,
       runs := if Waiting(approvals, run) then j.runs else SetStatus(j.runs, run, Running))
  }

  function ApproveCommand(cfg: Config, j: Journal, conv: ConvKey, request: RequestId, option: string, now: int): Step<seq<Effect>> {
    if !Answerable(j, conv, request, now) then Step(Enqueue(j, conv, cfg.text(ApprovalUnavailable)), [])
    else
      var a := j.approvals[FindApproval(j.approvals, request).value];
      if exists i :: 0 <= i < |a.options| && a.options[i].id == option then
        Step(Enqueue(Answer(j, request, a.run), conv, cfg.text(ApprovalAccepted)), [Decide(a.run, request, Some(option))])
      else Step(Enqueue(j, conv, cfg.text(NotOffered)), [])
  }

  function RunCommand(cfg: Config, j: Journal, conv: ConvKey, command: BridgeCommand, now: int): Step<seq<Effect>> {
    match command
    case CmdStatus =>
      var last := LastRun(j.runs, conv);
      var notice := if last.Some? then RunStatus(last.value, j.runs[last.value].status) else NoRun;
      Step(Enqueue(j, conv, cfg.text(notice)), [])
    case CmdStop => StopConversation(cfg, j, conv)
    case CmdAllowThread =>
      Step(Enqueue(j.(permissions := j.permissions[conv := true]), conv, cfg.text(ThreadAllowed)), [])
    case CmdManual =>
      Step(Enqueue(j.(permissions := j.permissions[conv := false]), conv, cfg.text(ManualRestored)), [])
    case CmdApprove(request, option) => ApproveCommand(cfg, j, conv, request, option, now)
    case CmdUnknown => Step(Enqueue(j, conv, cfg.text(Usage)), [])
  }

  /** One incoming message, as one transaction. A failure leaves the journal as it was. */
  ghost function Handle(cfg: Config, j: Journal, event: Incoming, room: RoomSnapshot, context: Option<seq<Incoming>>, now: int)
    : Result<Step<Handled>, Error>
  {
    match Admit(cfg, j, event, room)
    case Refused(d) => Success(Step(j, Handled(d, [])))
    case Admitted(conv) =>
      var command := IsCommand(event.body);
      var prepared := if context.Some? && !command then
                        match PrepareContext(cfg, j, event, context.value)
                        case Failure(e) => Failure(e)
                        case Success(p) => Success(Some(p))
                      else Success(None);
      match prepared
      case Failure(e) => Failure(e)
      case Success(p) =>
        if (event.room, event.event) in j.inbox then Success(Step(j, Handled(Duplicate, [])))
        else
          var j1 := Register(cfg, j, event, room, conv);
          var prompt := if p.Some? then p.value.prompt else event.body;
          var active := FindActive(j1.runs, conv);
          var result :=
            if command then Success(RunCommand(cfg, j1, conv, ParseCommand(event.body), now))
            else if Blank(event.body) then Success(Step(j1, []))
            else if active.Some? then FollowUp(cfg, j1, event, conv, active.value, prompt, p)
            else OpenRun(cfg, j1, event, conv, prompt, p);
          match result
          case Failure(e) => Failure(e)
          case Success(s) => Success(Step(s.journal, Handled(Accepted, s.value)))
  }

  // ---------------------------------------------------------------- worker events

  function Started(j: Journal, run: RunId): Result<Journal, Error> {
    if !IsRun(j.runs, run) then Failure(UnknownRun)
    else if !j.runs[run].status.Queued? then Failure(AlreadyDispatched)
    else Success(j.(runs := SetStatus(j.runs, run, Running)))
  }

  predicate AutomaticTools(cfg: Config, j: Journal, conv: ConvKey) {
    if conv in j.permissions then j.permissions[conv]
    else conv.room in cfg.rooms && cfg.rooms[conv.room].automaticTools
  }

  predicate DeliversText(cfg: Config, conv: ConvKey) {
    conv.room in cfg.rooms && cfg.rooms[conv.room].delivery.Automatic?
  }

  const MAX_TIME: int := 0x7fff_ffff_ffff_ffff

  function Deadline(cfg: Config, now: int): int {
    if now + cfg.ttl > MAX_TIME then MAX_TIME else now + cfg.ttl
  }

  function Observe(j: Journal, run: RunId): Journal {
    j.(batches := Observed(j.batches, run))
  }

  function ReadySession(j: Journal, conv: ConvKey, session: SessionId): Result<Journal, Error> {
    if session.name == "" then Failure(EmptySession)
    else if Current(j, conv).Some? && Current(j, conv) != Some(session) then Failure(SessionChanged)
    else
      Success(j.(
        convs := if conv in j.convs then j.convs[conv := j.convs[conv].(session := Some(session))] else j.convs,
        sessions := if conv in j.sessions then j.sessions[conv := Some(session)] else j.sessions))
  }

  /** A new request: the run waits for it, and automatic policy stays silent when it can answer. */
  function AddRequest(cfg: Config, j: Journal, run: RunId, conv: ConvKey, request: RequestId, title: string, options: seq<Choice>, now: int): Journal
    requires IsRun(j.runs, run)
  {
    var k := j.(approvals := j.approvals + [ApprovalRow(request, run, options, Deadline(cfg, now), false)],
                runs := SetStatus(j.runs, run, WaitingApproval));
    if AutomaticTools(cfg, j, conv) && AllowOption(options).Some? then k
    else Enqueue(k, conv, cfg.text(ApprovalRequested(request, title, options)))
  }

  /** A permission request: asked once, however often the agent repeats it. */
  function AskPermission(cfg: Config, j: Journal, run: RunId, conv: ConvKey, request: RequestId, title: string, options: seq<Choice>, now: int)
    : Result<Journal, Error>
    requires IsRun(j.runs, run)
  {
    var j1 := Flush(Observe(j, run), run, conv);
    if options == [] then Failure(NoOptions)
    else if !SafeOptions(options) then Failure(UnsafeOptions)
    else if FindApproval(j.approvals, request).Some? then Success(j1)
    else Success(AddRequest(cfg, j1, run, conv, request, title, options, now))
  }

  function TakeSteer(cfg: Config, j: Journal, run: RunId, conv: ConvKey, event: EventId): Journal {
    var j1 := if cfg.steering.AfterTurn? then Flush(j, run, conv) else j;
    j1.(batches := SendBatch(j.batches, event, run), steers := DeliverSteer(j.steers, event, run))
  }

  function EmojiFor(status: Status): Emoji {
    match status
    case Completed => Check
    case Cancelled => Emoji.Stop
    case Interrupted => Warning
    case _ => Cross
  }

  /** What a run's end makes of one of its batches. */
  function Settled(b: Batch, run: RunId, status: Status): Batch {
    if b.run != run then b
    else if b.state.InFlight? then b.(state := if status.Completed? then Told else Abandoned)
    else if b.state.Staged? && (status.Failed? || status.Interrupted?) then b.(state := Abandoned)
    else b
  }

  function SettleBatches(batches: map<EventId, Batch>, run: RunId, status: Status): map<EventId, Batch> {
    map e | e in batches :: Settled(batches[e], run, status)
  }

  /** The message a run's outcome is reported on. */
  function InputOf(j: Journal, run: RunId, conv: ConvKey): Option<EventId> {
    if run in j.inputs then Some(j.inputs[run]) else conv.root
  }

  function FinishRun(j: Journal, run: RunId, conv: ConvKey, status: Status): Result<Journal, Error>
    requires IsRun(j.runs, run)
  {
    if status.Active() then Failure(NotTerminal)
    else
      var j1 := Flush(j.(batches := SettleBatches(j.batches, run, status)), run, conv);
      var j2 := j1.(runs := SetStatus(j.runs, run, status), approvals := ConsumeRun(j.approvals, run));
      var input := InputOf(j, run, conv);
      if input.None? then Success(j2)
      else
        Success(j2.(outbox := j2.outbox
                              + [ReactionRow(conv, input.value, EmojiFor(status))]
                              + ReactionRows(conv, TakenBy(j.steers, run, input.value), EmojiFor(status))))
  }

  /** One worker event. Events of finished runs, and all but the end of a cancelling one, are ignored. */
  function OnAgentEvent(cfg: Config, j: Journal, event: AgentEvent, now: int): Result<Journal, Error> {
    var run := event.run;
    if !IsRun(j.runs, run) then Success(j)
    else if !j.runs[run].status.Active() then Success(j)
    else if j.runs[run].status.Cancelling? && !event.Finished? then Success(j)
    else
      var conv := j.runs[run].conv;
      match event
      case SessionReady(_, session) => ReadySession(j, conv, session)
      case Text(_, text) =>
        var j1 := Observe(j, run);
        Success(if DeliversText(cfg, conv) then j1.(output := j.output + [OutputRow(run, text)]) else j1)
      case Tool(_) => Success(Flush(Observe(j, run), run, conv))
      case Permission(_, request, title, options) => AskPermission(cfg, j, run, conv, request, title, options, now)
      case Steered(_, e) => Success(TakeSteer(cfg, j, run, conv, e))
      case Finished(_, status) => FinishRun(j, run, conv, status)
  }

  // ---------------------------------------------------------------- timers

  /** `SELECT .. FROM approvals JOIN runs .. WHERE consumed=0 AND expires>now AND status='waiting_approval'`. */
  function Open(j: Journal, now: int, n: nat): (r: seq<ApprovalRow>)
    requires n <= |j.approvals|
    ensures forall a :: a in r <==> exists i :: 0 <= i < n && j.approvals[i] == a && IsOpen(j, a, now)
  {
    if n == 0 then []
    else if IsOpen(j, j.approvals[n - 1], now) then Open(j, now, n - 1) + [j.approvals[n - 1]]
    else Open(j, now, n - 1)
  }

  predicate IsOpen(j: Journal, a: ApprovalRow, now: int) {
    !a.consumed && a.expires > now && IsRun(j.runs, a.run) && j.runs[a.run].status.WaitingApproval?
  }

  /** The conversation still belongs to the running configuration. */
  predicate Bound(cfg: Config, j: Journal, conv: ConvKey) {
    conv in j.convs && j.convs[conv].policy == cfg.binding(conv)
  }

  /** Answer one queried row by policy, when policy and offered options allow it. */
  function AutoOne(cfg: Config, j: Journal, a: ApprovalRow): Step<seq<Effect>> {
    if !IsRun(j.runs, a.run) || !Bound(cfg, j, j.runs[a.run].conv) || !AutomaticTools(cfg, j, j.runs[a.run].conv)
       || AllowOption(a.options).None?
    then Step(j, [])
    else
      var option := AllowOption(a.options).value;
      Step(Answer(j.(decisions := j.decisions[a.request := option]), a.request, a.run),
           [Decide(a.run, a.request, Some(option))])
  }

  function AutoAll(cfg: Config, j: Journal, rows: seq<ApprovalRow>): Step<seq<Effect>> {
    if rows == [] then Step(j, [])
    else
      var before := AutoAll(cfg, j, rows[..|rows| - 1]);
      var one := AutoOne(cfg, before.journal, rows[|rows| - 1]);
      Step(one.journal, before.value + one.value)
  }

  function AutomaticApprovals(cfg: Config, j: Journal, now: int): Step<seq<Effect>> {
    AutoAll(cfg, j, Open(j, now, |j.approvals|))
  }

  /** `SELECT .. WHERE consumed=0 AND expires<=now`. */
  function Expired(j: Journal, now: int, n: nat): (r: seq<ApprovalRow>)
    requires n <= |j.approvals|
    ensures forall a :: a in r <==> exists i :: 0 <= i < n && j.approvals[i] == a && HasExpired(j, a, now)
  {
    if n == 0 then []
    else if HasExpired(j, j.approvals[n - 1], now) then Expired(j, now, n - 1) + [j.approvals[n - 1]]
    else Expired(j, now, n - 1)
  }

  predicate HasExpired(j: Journal, a: ApprovalRow, now: int) {
    !a.consumed && a.expires <= now && IsRun(j.runs, a.run)
  }

  function ExpireOne(cfg: Config, j: Journal, a: ApprovalRow): Step<seq<Effect>> {
    if !IsRun(j.runs, a.run) then Step(j, [])
    else
      var approvals := ConsumeRequest(j.approvals, a.request);
      var runs := if j.runs[a.run].status.WaitingApproval? && !Waiting(approvals, a.run)
                  then SetStatus(j.runs, a.run, Running) else j.runs;
      Step(Enqueue(j.(approvals := approvals, runs := runs), j.runs[a.run].conv, cfg.text(ApprovalExpired)),
           [Decide(a.run, a.request, None)])
  }

  function ExpireAll(cfg: Config, j: Journal, rows: seq<ApprovalRow>): Step<seq<Effect>> {
    if rows == [] then Step(j, [])
    else
      var before := ExpireAll(cfg, j, rows[..|rows| - 1]);
      var one := ExpireOne(cfg, before.journal, rows[|rows| - 1]);
      Step(one.journal, before.value + one.value)
  }

  function ExpireApprovals(cfg: Config, j: Journal, now: int): Step<seq<Effect>> {
    ExpireAll(cfg, j, Expired(j, now, |j.approvals|))
  }

  // ---------------------------------------------------------------- continuations

  /** A follow-up its run ended without taking. */
  predicate Leftover(j: Journal, i: int) {
    && 0 <= i < |j.steers| && j.steers[i].status.Pending?
    && IsRun(j.runs, j.steers[i].run) && j.runs[j.steers[i].run].status.Resumable()
  }

  predicate LeftoverOf(j: Journal, conv: ConvKey, i: int) {
    Leftover(j, i) && j.runs[j.steers[i].run].conv == conv
  }

  /** `SELECT DISTINCT` conversations holding a leftover, first occurrence first. */
  function LeftoverConvs(j: Journal, n: nat): (r: seq<ConvKey>)
    requires n <= |j.steers|
    ensures forall c :: c in r <==> exists i :: 0 <= i < n && LeftoverOf(j, c, i)
    ensures forall i, k :: 0 <= i < k < |r| ==> r[i] != r[k]
  {
    if n == 0 then []
    else
      var rest := LeftoverConvs(j, n - 1);
      assert Leftover(j, n - 1) ==> LeftoverOf(j, j.runs[j.steers[n - 1].run].conv, n - 1);
      if Leftover(j, n - 1) && j.runs[j.steers[n - 1].run].conv !in rest
      then rest + [j.runs[j.steers[n - 1].run].conv] else rest
  }

  /** The leftovers of a conversation, in row order. */
  function Leftovers(j: Journal, conv: ConvKey, n: nat): (r: seq<SteerRow>)
    requires n <= |j.steers|
    ensures forall s :: s in r <==> exists i :: 0 <= i < n && LeftoverOf(j, conv, i) && j.steers[i] == s
  {
    if n == 0 then []
    else if LeftoverOf(j, conv, n - 1) then Leftovers(j, conv, n - 1) + [j.steers[n - 1]]
    else Leftovers(j, conv, n - 1)
  }

  function Events(rows: seq<SteerRow>): (r: seq<EventId>)
    ensures |r| == |rows| && forall i :: 0 <= i < |r| ==> r[i] == rows[i].event
  {
    seq(|rows|, i requires 0 <= i < |rows| => rows[i].event)
  }

  function Prompts(rows: seq<SteerRow>): (r: seq<string>)
    ensures |r| == |rows| && forall i :: 0 <= i < |r| ==> r[i] == rows[i].prompt
  {
    seq(|rows|, i requires 0 <= i < |rows| => rows[i].prompt)
  }

  function MoveSteers(steers: seq<SteerRow>, events: seq<EventId>, run: RunId): (s: seq<SteerRow>)
    ensures |s| == |steers|
    ensures forall i :: 0 <= i < |s| ==>
      s[i] == if steers[i].event in events then steers[i].(run := run, status := Taken) else steers[i]
  {
    seq(|steers|, i requires 0 <= i < |steers| =>
      if steers[i].event in events then steers[i].(run := run, status := Taken) else steers[i])
  }

  function MoveBatches(batches: map<EventId, Batch>, events: seq<EventId>, run: RunId): map<EventId, Batch> {
    map e | e in batches ::
      if e in events && batches[e].state.Staged? then batches[e].(run := run, state := InFlight) else batches[e]
  }

  /** Turn one conversation's leftovers into its next run. */
  function ResumeOne(cfg: Config, j: Journal, conv: ConvKey): Step<seq<Effect>> {
    if FindActive(j.runs, conv).Some? || !Bound(cfg, j, conv) then Step(j, [])
    else
      var rows := Leftovers(j, conv, |j.steers|);
      if rows == [] then Step(j, [])
      else
        var id := |j.runs|;
        Step(j.(runs := j.runs + [RunRow(conv, JoinLines(Prompts(rows)), Queued)],
                inputs := j.inputs[id := rows[|rows| - 1].event],
                batches := MoveBatches(j.batches, Events(rows), id),
                steers := MoveSteers(j.steers, Events(rows), id)),
             [Start(id)])
  }

  function ResumeAll(cfg: Config, j: Journal, convs: seq<ConvKey>): Step<seq<Effect>> {
    if convs == [] then Step(j, [])
    else
      var before := ResumeAll(cfg, j, convs[..|convs| - 1]);
      var one := ResumeOne(cfg, before.journal, convs[|convs| - 1]);
      Step(one.journal, before.value + one.value)
  }

  function ResumePending(cfg: Config, j: Journal): Step<seq<Effect>> {
    ResumeAll(cfg, j, LeftoverConvs(j, |j.steers|))
  }

  // ---------------------------------------------------------------- audience changes

  predicate MayDeliver(cfg: Config, j: Journal, conv: ConvKey, room: RoomSnapshot) {
    conv.room in cfg.rooms &&
    var policy := cfg.rooms[conv.room];
    && room.joined && room.encrypted && cfg.bot in room.members && policy.PermitsMembers(room.members)
    && Bound(cfg, j, conv) && j.convs[conv].audience == policy.AudienceBinding(room.members)
  }

  predicate Engaged(j: Journal, r: int) {
    IsRun(j.runs, r) && (j.runs[r].status.Active() || RunHasPendingSteer(j.steers, r))
  }

  function EngagedRuns(j: Journal, room: RoomId, n: nat): (r: seq<RunId>)
    requires n <= |j.runs|
    ensures forall k :: k in r <==> 0 <= k < n && Engaged(j, k) && j.runs[k].conv.room == room
  {
    if n == 0 then []
    else if Engaged(j, n - 1) && j.runs[n - 1].conv.room == room then EngagedRuns(j, room, n - 1) + [n - 1]
    else EngagedRuns(j, room, n - 1)
  }

  /** The three separate statements that stop one run; a crash may leave any prefix of them. */
  function StopRun(j: Journal, run: RunId, statements: nat): Journal
    requires IsRun(j.runs, run)
  {
    var j1 := if statements >= 1 then j.(steers := CancelRunSteers(j.steers, run)) else j;
    if !j.runs[run].status.Active() then j1
    else
      var j2 := if statements >= 2 then j1.(runs := SetStatus(j.runs, run, Status.Cancelling)) else j1;
      if statements >= 3 then j2.(approvals := ConsumeRun(j.approvals, run)) else j2
  }

  function ReconcileOne(cfg: Config, j: Journal, run: RunId, room: RoomSnapshot): Step<seq<Effect>> {
    if !IsRun(j.runs, run) || MayDeliver(cfg, j, j.runs[run].conv, room) then Step(j, [])
    else Step(StopRun(j, run, 3), if j.runs[run].status.Active() then [Effect.Cancel(run)] else [])
  }

  function ReconcileAll(cfg: Config, j: Journal, runs: seq<RunId>, room: RoomSnapshot): Step<seq<Effect>> {
    if runs == [] then Step(j, [])
    else
      var before := ReconcileAll(cfg, j, runs[..|runs| - 1], room);
      var one := ReconcileOne(cfg, before.journal, runs[|runs| - 1], room);
      Step(one.journal, before.value + one.value)
  }

  function ReconcileRoom(cfg: Config, j: Journal, id: RoomId, room: RoomSnapshot): Step<seq<Effect>> {
    ReconcileAll(cfg, j, EngagedRuns(j, id, |j.runs|), room)
  }

  // ---------------------------------------------------------------- delivery

  /** The bot's own earlier eyes on the message a terminal reaction now reports on. */
  predicate Superseded(outbox: seq<OutRow>, terminal: int, eyes: int) {
    && 0 <= eyes < terminal < |outbox|
    && outbox[terminal].reaction.Some? && outbox[terminal].reaction.value.emoji.Terminal()
    && outbox[eyes].conv == outbox[terminal].conv
    && outbox[eyes].reaction == Some(Reaction(outbox[terminal].reaction.value.event, Eyes))
  }

  predicate HasCleanup(cleanup: seq<CleanupRow>, target: Txn) {
    exists i :: 0 <= i < |cleanup| && cleanup[i].target == target
  }

  function CleanupTargets(j: Journal, txn: Txn, n: nat): (r: seq<Txn>)
    ensures forall t :: t in r <==> 0 <= t < n && Superseded(j.outbox, txn, t) && !HasCleanup(j.cleanup, t)
    ensures forall i, k :: 0 <= i < k < |r| ==> r[i] < r[k]
  {
    if n == 0 then []
    else
      var rest := CleanupTargets(j, txn, n - 1);
      assert forall i :: 0 <= i < |rest| ==> rest[i] in rest;
      if Superseded(j.outbox, txn, n - 1) && !HasCleanup(j.cleanup, n - 1) then rest + [n - 1] else rest
  }

  function CleanupRows(targets: seq<Txn>): (r: seq<CleanupRow>)
    ensures |r| == |targets| && forall i :: 0 <= i < |r| ==> r[i] == CleanupRow(targets[i], None)
  {
    seq(|targets|, i requires 0 <= i < |targets| => CleanupRow(targets[i], None))
  }

  /** An acknowledgement counts once, and carries the cleanup it makes due in the same commit. */
  function Deliver(j: Journal, txn: Txn, event: EventId): Journal {
    if txn >= |j.outbox| || j.outbox[txn].delivered.Some? then j
    else
      j.(outbox := j.outbox[txn := j.outbox[txn].(delivered := Some(event))],
         cleanup := j.cleanup + CleanupRows(CleanupTargets(j, txn, |j.outbox|)))
  }

  function RemoveReaction(j: Journal, row: nat, event: EventId): Journal {
    if row >= |j.cleanup| || j.cleanup[row].delivered.Some? then j
    else j.(cleanup := j.cleanup[row := j.cleanup[row].(delivered := Some(event))])
  }

  predicate Undelivered(j: Journal, t: int) {
    0 <= t < |j.outbox| && j.outbox[t].delivered.None? && t !in j.failures
  }

  predicate RemovalDue(j: Journal, i: int) {
    && 0 <= i < |j.cleanup| && j.cleanup[i].delivered.None?
    && j.cleanup[i].target < |j.outbox| && j.outbox[j.cleanup[i].target].delivered.Some?
  }

  function Block(j: Journal, txn: Txn): Journal {
    if txn in j.explicit then j.(failures := j.failures + {txn}) else j
  }

  // ---------------------------------------------------------------- explicit messages

  function ExplicitMessage(cfg: Config, j: Journal, run: RunId, text: string): Result<Step<(ConvKey, seq<Txn>)>, Error> {
    if Blank(text) then Failure(EmptyText)
    else if !IsRun(j.runs, run) then Failure(UnknownRun)
    else if !j.runs[run].status.Running? && !j.runs[run].status.WaitingApproval? then Failure(Inactive)
    else
      var conv := j.runs[run].conv;
      if conv.room !in cfg.rooms || !cfg.rooms[conv.room].delivery.Explicit? then Failure(NotExplicit)
      else
        var ids := NewTxns(j, text);
        Success(Step(
                  Enqueue(Observe(j, run), conv, text).(explicit := j.explicit + (map t | t in ids :: run)),
                  (conv, ids)))
  }

  /** The transactions the pieces of a text will be sent under, in order. */
  function NewTxns(j: Journal, text: string): (r: seq<Txn>)
    ensures |r| == |Chunks(text)| && forall i :: 0 <= i < |r| ==> r[i] == |j.outbox| + i
  {
    seq(|Chunks(text)|, i requires 0 <= i < |Chunks(text)| => |j.outbox| + i)
  }

  // ---------------------------------------------------------------- recovery

  /** Runs with buffered text, first occurrence first. */
  function Buffered(j: Journal, n: nat): (r: seq<RunId>)
    requires n <= |j.output|
    ensures forall k :: k in r <==> exists i :: 0 <= i < n && j.output[i].run == k && IsRun(j.runs, k)
    ensures forall i, k :: 0 <= i < k < |r| ==> r[i] != r[k]
  {
    if n == 0 then []
    else
      var rest := Buffered(j, n - 1);
      if IsRun(j.runs, j.output[n - 1].run) && j.output[n - 1].run !in rest then rest + [j.output[n - 1].run] else rest
  }

  function FlushAll(j: Journal, runs: seq<RunId>): Journal
    requires forall r :: r in runs ==> IsRun(j.runs, r)
    ensures FlushAll(j, runs).runs == j.runs
  {
    if runs == [] then j
    else
      var last := runs[|runs| - 1];
      assert IsRun(j.runs, last);
      Flush(FlushAll(j, runs[..|runs| - 1]), last, j.runs[last].conv)
  }

  function ActiveRuns(runs: seq<RunRow>, n: nat): (r: seq<RunId>)
    requires n <= |runs|
    ensures forall k :: k in r <==> 0 <= k < n && runs[k].status.Active()
    ensures forall i, k :: 0 <= i < k < |r| ==> r[i] < r[k]
  {
    if n == 0 then []
    else
      var rest := ActiveRuns(runs, n - 1);
      assert forall i :: 0 <= i < |rest| ==> rest[i] in rest;
      if runs[n - 1].status.Active() then rest + [n - 1] else rest
  }

  function InterruptAll(cfg: Config, j: Journal, runs: seq<RunId>): Journal
    requires forall r :: r in runs ==> IsRun(j.runs, r)
    ensures |InterruptAll(cfg, j, runs).runs| == |j.runs|
  {
    if runs == [] then j
    else
      var last := runs[|runs| - 1];
      assert IsRun(j.runs, last);
      var before := InterruptAll(cfg, j, runs[..|runs| - 1]);
      Enqueue(before.(runs := SetStatus(before.runs, last, Interrupted)), j.runs[last].conv, cfg.text(RunInterrupted(last)))
  }

  /** The restart boundary: nothing ambiguous is replayed. */
  function Recover(cfg: Config, j: Journal): Step<nat> {
    var j1 := FlushAll(j, Buffered(j, |j.output|));
    var active := ActiveRuns(j1.runs, |j1.runs|);
    var j2 := InterruptAll(cfg, j1, active);
    Step(j2.(approvals := ConsumeAll(j2.approvals),
             batches := AbandonUntold(j2.batches),
             steers := CutOffSteers(j2.steers)),
         |active|)
  }

  /** An administrator detaches a conversation from its agent session while the bridge is down. */
  function ResetSession(j: Journal, conv: ConvKey): Journal {
    if conv in j.convs then j.(convs := j.convs[conv := j.convs[conv].(session := None)]) else j
  }
}
