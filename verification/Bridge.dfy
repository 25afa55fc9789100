/**
 The bridge as the program has it: one object whose tables its handlers read and rewrite. Every handler is proved
 against its transaction in `Rules`, and keeps every invariant.
 */
module Bridge {
  import opened Model
  import opened Text
  import opened Context
  import opened Journal
  import opened Rules
  import opened Invariants
  import opened Steps
  import opened EventSteps
  import History
  import Recovery

  class Store {
    const cfg: Config

    var inbox: set<(RoomId, EventId)>
    var convs: map<ConvKey, ConvRow>
    var permissions: map<ConvKey, bool>
    var runs: seq<RunRow>
    var inputs: map<RunId, EventId>
    var steers: seq<SteerRow>
    var batches: map<EventId, Batch>
    var nextBatch: nat
    var sessions: map<ConvKey, Option<SessionId>>
    var approvals: seq<ApprovalRow>
    var decisions: map<RequestId, string>
    var output: seq<OutputRow>
    var outbox: seq<OutRow>
    var cleanup: seq<CleanupRow>
    var explicit: map<Txn, RunId>
    var failures: set<Txn>

    /** The tables as one value. */
    function View(): Journal
      reads this
    {
      Journal(inbox, convs, permissions, runs, inputs, steers, batches, nextBatch, sessions, approvals, decisions, output, outbox,
              cleanup, explicit, failures)
    }

    ghost predicate Valid()
      reads this
    {
      Inv(cfg, View())
    }

    /** A fresh journal. */
    constructor (cfg: Config)
      ensures Valid() && this.cfg == cfg
    {
      this.cfg := cfg;
      inbox, convs, permissions, runs, inputs, steers, batches, nextBatch, sessions := {}, map[], map[], [], map[], [], map[], 0, map[];
      approvals, decisions, output, outbox, cleanup, explicit, failures := [], map[], [], [], [], map[], {};
      new;
      assert View() == History.EMPTY;
      History.EmptyGood(cfg);
    }

    // -------------------------------------------------------------- outbox

    /** Queue a text in pieces of at most 6000 characters; the pieces are sent under consecutive transactions. */
    method EnqueueIds(conv: ConvKey, body: string) returns (ids: seq<Txn>)
      modifies this`outbox
      ensures View() == Enqueue(old(View()), conv, body) && ids == NewTxns(old(View()), body)
    {
      var chunks := SplitChunks(body);
      ids := [];
      ghost var rows: seq<OutRow> := [];
      for i := 0 to |chunks|
        invariant outbox == old(outbox) + rows && |rows| == |ids| == i
        invariant forall k :: 0 <= k < i ==> rows[k] == OutRow(conv, chunks[k], None, None) && ids[k] == |old(outbox)| + k
      {
        rows := rows + [OutRow(conv, chunks[i], None, None)];
        ids := ids + [|outbox|];
        outbox := outbox + [OutRow(conv, chunks[i], None, None)];
      }
      assert rows == TextRows(conv, body) && ids == NewTxns(old(View()), body);
    }

    static method SplitChunks(body: string) returns (chunks: seq<string>)
      ensures chunks == Chunks(body)
    {
      chunks := [];
      var rest := body;
      while rest != []
        invariant Chunks(body) == chunks + Chunks(rest)
        decreases |rest|
      {
        var chunk := if |rest| <= CHUNK then rest else rest[..CHUNK];
        NextChunk(chunks, rest, chunk);
        chunks := chunks + [chunk];
        rest := rest[|chunk|..];
      }
    }

    method Say(conv: ConvKey, notice: Notice)
      modifies this`outbox
      ensures View() == Enqueue(old(View()), conv, cfg.text(notice))
    {
      var _ := EnqueueIds(conv, cfg.text(notice));
    }

    method React(conv: ConvKey, event: EventId, emoji: Emoji)
      modifies this`outbox
      ensures View() == EnqueueReaction(old(View()), conv, event, emoji)
    {
      outbox := outbox + [ReactionRow(conv, event, emoji)];
    }

    /** Publish what a run has said since its last boundary; whitespace alone is dropped. */
    method FlushOutput(run: RunId, conv: ConvKey)
      modifies this`outbox, this`output
      ensures View() == Flush(old(View()), run, conv)
    {
      var text := "";
      for i := 0 to |output|
        invariant text == Buffer(output[..i], run)
      {
        assert output[..i + 1][..i] == output[..i];
        if output[i].run == run {
          text := text + output[i].body;
        }
      }
      assert output[..|output|] == output;
      if !Blank(text) {
        var _ := EnqueueIds(conv, text);
      }
      output := DropOutput(output, run);
    }

    // -------------------------------------------------------------- the context ledger

    /** What the agent session of a conversation has been told, whether it has its baseline, and how it was told to answer. */
    method KnownContext(conv: ConvKey) returns (seen: set<Mark>, initial: bool, delivery: Option<Delivery>)
      requires BatchRowsOk(View())
      ensures seen == Seen(View(), conv) && initial == !Initialized(View(), conv) && delivery == LastDelivery(View(), conv)
    {
      seen, initial, delivery := ReadBatches(View(), conv);
      if !initial {
        seen := seen + Acknowledged(outbox, conv);
      }
    }

    static method ReadBatches(j: Journal, conv: ConvKey) returns (seen: set<Mark>, initial: bool, delivery: Option<Delivery>)
      requires BatchRowsOk(j)
      ensures seen == SeenInBatches(j, conv) && initial == !Initialized(j, conv) && delivery == LastDelivery(j, conv)
    {
      seen, initial, delivery := {}, true, None;
      ghost var last: Option<EventId> := None;
      ghost var live := LiveOf(j, conv);
      for n := 0 to j.nextBatch
        invariant Read(j.batches, live, n, seen, initial, last)
        invariant delivery == if last.Some? then Some(j.batches[last.value].delivery) else None
      {
        if e :| e in j.batches && IsNext(j, conv, n, e) {
          ReadOne(j, live, n, seen, initial, last, e);
          seen := seen + set m | m in j.batches[e].events;
          if j.batches[e].initial {
            initial := false;
          }
          delivery, last := Some(j.batches[e].delivery), Some(e);
        } else {
          NoneNext(j, conv, n);
          ReadNone(j.batches, live, n, seen, initial, last);
        }
      }
      ReadAll(j, conv, seen, initial, last);
    }

    /** The prompt for a message: the baseline once, then only what the session has not been told. */
    method PrepareFor(event: Incoming, history: seq<Incoming>) returns (r: Result<Prepared, Error>)
      requires Valid() && event.room in cfg.rooms
      ensures r == PrepareContext(cfg, View(), event, history)
    {
      var seen, initial, delivery := KnownContext(ConversationOf(cfg, event));
      r := PreparePrompt(cfg, event, history, seen, initial);
      if r.Success? && !initial && delivery != Some(r.value.delivery) {
        r := Success(r.value.(prompt := cfg.text(DeliveryChanged(r.value.delivery)) + "\n\n" + r.value.prompt));
      }
    }

    /** Record what a prompt carries; a ledger kept for another session is dropped first. */
    method StageBatch(conv: ConvKey, run: RunId, input: EventId, p: Prepared, steering: bool) returns (ok: bool)
      modifies this`batches, this`nextBatch, this`sessions
      ensures var r := Stage(old(View()), conv, run, input, p, steering);
              && (ok <==> r.Success?)
              && View() == if ok then r.value else old(View())
    {
      var j := View();
      var rows := Keep(j, conv, run, input, p, steering);
      ok := rows.Some?;
      if ok {
        sessions := sessions[conv := Current(j, conv)];
        batches := rows.value;
        nextBatch := nextBatch + 1;
      }
    }

    /** The ledger with one more row, unless the input has one already. */
    static method Keep(j: Journal, conv: ConvKey, run: RunId, input: EventId, p: Prepared, steering: bool) returns (rows: Option<map<EventId, Batch>>)
      ensures Stage(j, conv, run, input, p, steering)
           == if rows.None? then Failure(Conflict)
              else Success(j.(batches := rows.value, nextBatch := j.nextBatch + 1, sessions := j.sessions[conv := Current(j, conv)]))
    {
      var kept := if Stale(j, conv) then WithoutConv(j.batches, conv) else j.batches;
      if input in kept {
        return None;
      }
      rows := Some(kept[input := Batch(j.nextBatch, conv, run, p.events, p.initial, if steering then Staged else InFlight, p.delivery)]);
    }

    // -------------------------------------------------------------- messages

    /** A follow-up to the active run. */
    method AddFollowUp(event: Incoming, conv: ConvKey, run: RunId, prompt: string, p: Option<Prepared>) returns (effects: seq<Effect>)
      requires IsRun(runs, run) && FollowUp(cfg, View(), event, conv, run, prompt, p).Success?
      modifies this
      ensures Step(View(), effects) == FollowUp(cfg, old(View()), event, conv, run, prompt, p).value
    {
      ghost var j := View();
      steers := steers + [SteerRow(event.event, run, prompt, Pending)];
      assert View() == j.(steers := steers);
      if p.Some? {
        var staged := StageBatch(conv, run, event.event, p.value, true);
      }
      React(conv, event.event, Eyes);
      effects := if runs[run].status.Cancelling? then [] else [Steer(run, event.event, prompt)];
    }

    /** A message that opens a run, if the worker has room for one. */
    method AddRun(event: Incoming, conv: ConvKey, prompt: string, p: Option<Prepared>) returns (effects: seq<Effect>)
      requires OpenRun(cfg, View(), event, conv, prompt, p).Success?
      modifies this
      ensures Step(View(), effects) == OpenRun(cfg, old(View()), event, conv, prompt, p).value
    {
      if cfg.maxRuns != 0 && CountActive(runs) >= cfg.maxRuns {
        Say(conv, AtCapacity);
        return [];
      }
      ghost var j := View();
      var id := |runs|;
      runs := runs + [RunRow(conv, prompt, Queued)];
      inputs := inputs[id := event.event];
      assert View() == j.(runs := runs, inputs := inputs);
      if p.Some? {
        var staged := StageBatch(conv, id, event.event, p.value, false);
      }
      React(conv, event.event, Eyes);
      effects := [Start(id)];
    }

    /** `!bridge stop`: what waits is dropped, and an active run is marked until its worker confirms. */
    method Stop(conv: ConvKey) returns (effects: seq<Effect>)
      modifies this
      ensures Step(View(), effects) == StopConversation(cfg, old(View()), conv)
    {
      ghost var j := View();
      var active := FindActive(runs, conv);
      batches := AbandonStaged(batches, conv);
      steers := CancelConvSteers(steers, runs, conv);
      ghost var j1 := j.(batches := AbandonStaged(j.batches, conv), steers := CancelConvSteers(j.steers, j.runs, conv));
      assert View() == j1;
      if active.None? {
        Say(conv, NothingToStop);
        return [];
      }
      MarkStopped(active.value);
      Say(conv, StopRequested);
      effects := [Effect.Cancel(active.value)];
    }

    method MarkStopped(run: RunId)
      requires IsRun(runs, run)
      modifies this`runs, this`approvals, this`steers
      ensures View() == old(View()).(runs := SetStatus(old(runs), run, Status.Cancelling), approvals := ConsumeRun(old(approvals), run),
                                     steers := CancelRunSteers(old(steers), run))
    {
      runs := SetStatus(runs, run, Status.Cancelling);
      approvals := ConsumeRun(approvals, run);
      steers := CancelRunSteers(steers, run);
    }

    /** Answer one request; the run goes on once nothing else is waiting. */
    method AnswerRequest(request: RequestId, run: RunId)
      requires IsRun(runs, run)
      modifies this`approvals, this`runs
      ensures View() == Answer(old(View()), request, run)
    {
      approvals := ConsumeRequest(approvals, request);
      if !Waiting(approvals, run) {
        runs := SetStatus(runs, run, Running);
      }
    }

    method Approve(conv: ConvKey, request: RequestId, option: string, now: int) returns (effects: seq<Effect>)
      modifies this
      ensures Step(View(), effects) == ApproveCommand(cfg, old(View()), conv, request, option, now)
    {
      effects := [];
      if !Answerable(View(), conv, request, now) {
        Say(conv, ApprovalUnavailable);
        return;
      }
      var a := approvals[FindApproval(approvals, request).value];
      if exists i :: 0 <= i < |a.options| && a.options[i].id == option {
        AnswerRequest(request, a.run);
        Say(conv, ApprovalAccepted);
        effects := [Decide(a.run, request, Some(option))];
      } else {
        Say(conv, NotOffered);
      }
    }

    method Command(conv: ConvKey, command: BridgeCommand, now: int) returns (effects: seq<Effect>)
      modifies this
      ensures Step(View(), effects) == RunCommand(cfg, old(View()), conv, command, now)
    {
      effects := [];
      match command
      case CmdStatus =>
        var last := LastRun(runs, conv);
        Say(conv, if last.Some? then RunStatus(last.value, runs[last.value].status) else NoRun);
      case CmdStop => effects := Stop(conv);
      case CmdAllowThread =>
        permissions := permissions[conv := true];
        Say(conv, ThreadAllowed);
      case CmdManual =>
        permissions := permissions[conv := false];
        Say(conv, ManualRestored);
      case CmdApprove(request, option) => effects := Approve(conv, request, option, now);
      case CmdUnknown => Say(conv, Usage);
    }

    /**
     One incoming message with the history fetched for it. An error of its context rolls everything back; no insert
     ever fails.
     */
    method HandleWithContext(event: Incoming, room: RoomSnapshot, history: seq<Incoming>, now: int) returns (r: Result<Handled, Error>)
      requires Valid() && event.room == cfg.home(event.event)
      modifies this
      ensures Valid() && Onward(old(View()), View())
      ensures HandlesAs(Handle(cfg, old(View()), event, room, Some(history), now), old(View()), View(), r)
    {
      ghost var j := View();
      HandleGood(cfg, j, event, room, history, now);
      OnwardReflexive(j);
      var admission := Admit(cfg, View(), event, room);
      if admission.Refused? {
        r := Success(Handled(admission.disposition, []));
      } else {
        r := HandleIn(admission.conv, event, room, history, now);
      }
    }

    method HandleIn(conv: ConvKey, event: Incoming, room: RoomSnapshot, history: seq<Incoming>, now: int) returns (r: Result<Handled, Error>)
      requires Valid() && event.room == cfg.home(event.event) && Admit(cfg, View(), event, room) == Admitted(conv)
      modifies this
      ensures HandlesAs(Handle(cfg, old(View()), event, room, Some(history), now), old(View()), View(), r)
    {
      ghost var j := View();
      var p: Option<Prepared> := None;
      if !IsCommand(event.body) {
        var prepared := PrepareFor(event, history);
        if prepared.Failure? {
          NotPrepared(cfg, j, event, room, history, now, conv);
          return Failure(prepared.error);
        }
        p := Some(prepared.value);
      }
      if (event.room, event.event) in inbox {
        SeenBefore(cfg, j, event, room, history, now, conv, p);
        return Success(Handled(Duplicate, []));
      }
      if p.Some? { NoFailure(cfg, j, event, room, history, now, conv, p.value); }
      var effects := HandleNew(conv, event, room, now, p);
      HandledAs(cfg, j, event, room, history, now, conv, p, View(), effects);
      r := Success(Handled(Accepted, effects));
    }

    method HandleNew(conv: ConvKey, event: Incoming, room: RoomSnapshot, now: int, p: Option<Prepared>) returns (effects: seq<Effect>)
      requires event.room in cfg.rooms
      requires p.Some? ==> Worked(cfg, Register(cfg, View(), event, room, conv), event, conv, p.value).Success?
      modifies this
      ensures var j1 := Register(cfg, old(View()), event, room, conv);
              if p.None? then Step(View(), effects) == RunCommand(cfg, j1, conv, ParseCommand(event.body), now)
              else Success(Step(View(), effects)) == Worked(cfg, j1, event, conv, p.value)
    {
      Enroll(conv, event, room);
      if p.None? {
        effects := Command(conv, ParseCommand(event.body), now);
      } else {
        effects := Work(event, conv, p.value);
      }
    }

    method Enroll(conv: ConvKey, event: Incoming, room: RoomSnapshot)
      requires event.room in cfg.rooms
      modifies this`inbox, this`convs
      ensures View() == Register(cfg, old(View()), event, room, conv)
    {
      inbox := inbox + {(event.room, event.event)};
      if conv !in convs {
        convs := convs[conv := ConvRow(cfg.binding(conv), cfg.rooms[event.room].AudienceBinding(room.members), None)];
      }
    }

    /** A message that is no command: a follow-up, a new run, or, if it says nothing, neither. */
    method Work(event: Incoming, conv: ConvKey, p: Prepared) returns (effects: seq<Effect>)
      requires Worked(cfg, View(), event, conv, p).Success?
      modifies this
      ensures Step(View(), effects) == Worked(cfg, old(View()), event, conv, p).value
    {
      effects := [];
      if !Blank(event.body) {
        var active := FindActive(runs, conv);
        if active.Some? {
          effects := AddFollowUp(event, conv, active.value, p.prompt, Some(p));
        } else {
          effects := AddRun(event, conv, p.prompt, Some(p));
        }
      }
    }

    /** The worker takes a queued run up, once. */
    method Dispatch(run: RunId) returns (r: Result<RunRow, Error>)
      requires Valid()
      modifies this`runs
      ensures Valid() && Onward(old(View()), View())
      ensures DispatchedAs(Started(old(View()), run), old(View()), View(), run, r)
    {
      if IsRun(runs, run) && runs[run].status.Queued? { DispatchGood(cfg, View(), run); }
      OnwardReflexive(View());
      r := SetRunning(run);
    }

    method SetRunning(run: RunId) returns (r: Result<RunRow, Error>)
      modifies this`runs
      ensures DispatchedAs(Started(old(View()), run), old(View()), View(), run, r)
    {
      if !IsRun(runs, run) {
        return Failure(UnknownRun);
      }
      if !runs[run].status.Queued? {
        return Failure(AlreadyDispatched);
      }
      r := Success(runs[run]);
      runs := SetStatus(runs, run, Running);
    }

    // -------------------------------------------------------------- worker events

    /** A run has spoken, used a tool or asked: what was on its way to it has arrived. */
    method Witness(run: RunId)
      modifies this`batches
      ensures View() == Observe(old(View()), run)
    {
      batches := Observed(batches, run);
    }

    /** One event of a worker. An error rolls everything back. */
    method OnEvent(event: AgentEvent, now: int) returns (r: Result<(), Error>)
      requires Valid()
      modifies this
      ensures Valid() && Onward(old(View()), View())
      ensures Outcome(OnAgentEvent(cfg, old(View()), event, now), old(View()), View(), r)
    {
      AgentEventGood(cfg, View(), event, now);
      OnwardReflexive(View());
      r := OnKnownRun(event, now);
    }

    method OnKnownRun(event: AgentEvent, now: int) returns (r: Result<(), Error>)
      modifies this
      ensures Outcome(OnAgentEvent(cfg, old(View()), event, now), old(View()), View(), r)
    {
      var run := event.run;
      if !IsRun(runs, run) || !runs[run].status.Active() {
        return Success(());
      }
      if runs[run].status.Cancelling? && !event.Finished? {
        return Success(());
      }
      var conv := runs[run].conv;
      match event
      case SessionReady(_, session) => r := Ready(conv, session);
      case Text(_, text) => AddText(run, conv, text); r := Success(());
      case Tool(_) => Witness(run); FlushOutput(run, conv); r := Success(());
      case Permission(_, request, title, options) => r := Ask(run, conv, request, title, options, now);
      case Steered(_, e) => Steered(run, conv, e); r := Success(());
      case Finished(_, status) => r := Finish(run, conv, status);
    }

    method Ready(conv: ConvKey, session: SessionId) returns (r: Result<(), Error>)
      modifies this`convs, this`sessions
      ensures Outcome(ReadySession(old(View()), conv, session), old(View()), View(), r)
    {
      if session.name == "" {
        return Failure(EmptySession);
      }
      if conv in convs && convs[conv].session.Some? && convs[conv].session.value != session {
        return Failure(SessionChanged);
      }
      if conv in convs {
        convs := convs[conv := convs[conv].(session := Some(session))];
      }
      if conv in sessions {
        sessions := sessions[conv := Some(session)];
      }
      r := Success(());
    }

    /** Text is buffered only where the bridge posts it itself. */
    method AddText(run: RunId, conv: ConvKey, text: string)
      modifies this`batches, this`output
      ensures View() == (var j1 := Observe(old(View()), run);
                         if DeliversText(cfg, conv) then j1.(output := old(output) + [OutputRow(run, text)]) else j1)
    {
      Witness(run);
      if conv.room in cfg.rooms && cfg.rooms[conv.room].delivery.Automatic? {
        output := output + [OutputRow(run, text)];
      }
    }

    /** A permission request ends a stretch of text; a repeated one changes nothing more. */
    method Ask(run: RunId, conv: ConvKey, request: RequestId, title: string, options: seq<Choice>, now: int) returns (r: Result<(), Error>)
      requires IsRun(runs, run)
      modifies this
      ensures Outcome(AskPermission(cfg, old(View()), run, conv, request, title, options, now), old(View()), View(), r)
    {
      if options == [] {
        return Failure(NoOptions);
      }
      if !SafeOptions(options) {
        return Failure(UnsafeOptions);
      }
      Witness(run);
      FlushOutput(run, conv);
      if FindApproval(approvals, request).None? {
        Wait(run, conv, request, title, options, now);
      }
      r := Success(());
    }

    method Wait(run: RunId, conv: ConvKey, request: RequestId, title: string, options: seq<Choice>, now: int)
      requires IsRun(runs, run)
      modifies this`approvals, this`runs, this`outbox
      ensures View() == AddRequest(cfg, old(View()), run, conv, request, title, options, now)
    {
      approvals := approvals + [ApprovalRow(request, run, options, Deadline(cfg, now), false)];
      runs := SetStatus(runs, run, WaitingApproval);
      if !AutomaticTools(cfg, View(), conv) || AllowOption(options).None? {
        Say(conv, ApprovalRequested(request, title, options));
      }
    }

    /** The worker has taken a follow-up in. */
    method Steered(run: RunId, conv: ConvKey, event: EventId)
      modifies this`outbox, this`output, this`batches, this`steers
      ensures View() == TakeSteer(cfg, old(View()), run, conv, event)
    {
      if cfg.steering.AfterTurn? {
        FlushOutput(run, conv);
      }
      batches := SendBatch(batches, event, run);
      steers := DeliverSteer(steers, event, run);
    }

    /** The end of a run: its batches settle, its text is posted, and its messages get their last reaction. */
    method Finish(run: RunId, conv: ConvKey, status: Status) returns (r: Result<(), Error>)
      requires IsRun(runs, run)
      modifies this
      ensures Outcome(FinishRun(old(View()), run, conv, status), old(View()), View(), r)
    {
      if status.Active() {
        return Failure(NotTerminal);
      }
      SettleRun(run, status);
      FlushOutput(run, conv);
      runs := SetStatus(runs, run, status);
      approvals := ConsumeRun(approvals, run);
      var input := InputOf(View(), run, conv);
      if input.Some? {
        React(conv, input.value, EmojiFor(status));
        ReactAll(conv, TakenBy(steers, run, input.value), EmojiFor(status));
      }
      r := Success(());
    }

    /** The updates a run's end makes to the ledger, one after the other. */
    method SettleRun(run: RunId, status: Status)
      modifies this`batches
      ensures View() == old(View()).(batches := SettleBatches(old(batches), run, status))
    {
      if status.Completed? {
        batches := Observed(batches, run);
      } else {
        batches := AbandonRunInFlight(batches, run);
      }
      if status.Failed? || status.Interrupted? {
        batches := AbandonRunStaged(batches, run);
      }
      assert batches == SettleBatches(old(batches), run, status);
    }

    method ReactAll(conv: ConvKey, events: seq<EventId>, emoji: Emoji)
      modifies this`outbox
      ensures View() == old(View()).(outbox := old(outbox) + ReactionRows(conv, events, emoji))
    {
      for i := 0 to |events|
        invariant outbox == old(outbox) + ReactionRows(conv, events[..i], emoji)
      {
        assert ReactionRows(conv, events[..i + 1], emoji) == ReactionRows(conv, events[..i], emoji) + [ReactionRow(conv, events[i], emoji)];
        React(conv, events[i], emoji);
      }
      assert events[..|events|] == events;
    }

    // -------------------------------------------------------------- timers

    /** Open requests that policy can answer are answered, each in a transaction of its own. */
    method AnswerAutomatically(now: int) returns (effects: seq<Effect>)
      requires Valid()
      modifies this
      ensures Valid() && Onward(old(View()), View())
      ensures Step(View(), effects) == AutomaticApprovals(cfg, old(View()), now)
    {
      AutomaticGood(cfg, View(), now);
      effects := AnswerAll(Open(View(), now, |approvals|));
    }

    method AnswerAll(rows: seq<ApprovalRow>) returns (effects: seq<Effect>)
      modifies this
      ensures Step(View(), effects) == AutoAll(cfg, old(View()), rows)
    {
      effects := [];
      for i := 0 to |rows|
        invariant Step(View(), effects) == AutoAll(cfg, old(View()), rows[..i])
      {
        assert rows[..i + 1][..i] == rows[..i];
        var more := AnswerByPolicy(rows[i]);
        effects := effects + more;
      }
      assert rows[..|rows|] == rows;
    }

    method AnswerByPolicy(a: ApprovalRow) returns (effects: seq<Effect>)
      modifies this
      ensures Step(View(), effects) == AutoOne(cfg, old(View()), a)
    {
      effects := [];
      if IsRun(runs, a.run) && Bound(cfg, View(), runs[a.run].conv) && AutomaticTools(cfg, View(), runs[a.run].conv) {
        var option := AllowOption(a.options);
        if option.Some? {
          decisions := decisions[a.request := option.value];
          AnswerRequest(a.request, a.run);
          effects := [Decide(a.run, a.request, option)];
        }
      }
    }

    /** Requests past their deadline are refused. */
    method Expire(now: int) returns (effects: seq<Effect>)
      requires Valid()
      modifies this
      ensures Valid() && Onward(old(View()), View())
      ensures Step(View(), effects) == ExpireApprovals(cfg, old(View()), now)
    {
      ExpireGood(cfg, View(), now);
      effects := RefuseAll(Expired(View(), now, |approvals|));
    }

    method RefuseAll(rows: seq<ApprovalRow>) returns (effects: seq<Effect>)
      modifies this
      ensures Step(View(), effects) == ExpireAll(cfg, old(View()), rows)
    {
      effects := [];
      for i := 0 to |rows|
        invariant Step(View(), effects) == ExpireAll(cfg, old(View()), rows[..i])
      {
        assert rows[..i + 1][..i] == rows[..i];
        var more := Refuse(rows[i]);
        effects := effects + more;
      }
      assert rows[..|rows|] == rows;
    }

    method Refuse(a: ApprovalRow) returns (effects: seq<Effect>)
      modifies this
      ensures Step(View(), effects) == ExpireOne(cfg, old(View()), a)
    {
      effects := [];
      if IsRun(runs, a.run) {
        approvals := ConsumeRequest(approvals, a.request);
        Say(runs[a.run].conv, ApprovalExpired);
        effects := [Decide(a.run, a.request, None)];
        if runs[a.run].status.WaitingApproval? && !Waiting(approvals, a.run) {
          runs := SetStatus(runs, a.run, Running);
        }
      }
    }

    // -------------------------------------------------------------- continuations

    /** What raced the end of a turn becomes the conversation's next run. */
    method ResumePendingSteers() returns (effects: seq<Effect>)
      requires Valid()
      modifies this
      ensures Valid() && Onward(old(View()), View())
      ensures Step(View(), effects) == ResumePending(cfg, old(View()))
    {
      var pending := LeftoverConvs(View(), |steers|);
      ResumeAllGood(cfg, View(), pending);
      effects := ResumeEach(pending);
    }

    method ResumeEach(pending: seq<ConvKey>) returns (effects: seq<Effect>)
      modifies this
      ensures Step(View(), effects) == ResumeAll(cfg, old(View()), pending)
    {
      effects := [];
      for i := 0 to |pending|
        invariant Step(View(), effects) == ResumeAll(cfg, old(View()), pending[..i])
      {
        assert pending[..i + 1][..i] == pending[..i];
        var more := Resume(pending[i]);
        effects := effects + more;
      }
      assert pending[..|pending|] == pending;
    }

    method Resume(conv: ConvKey) returns (effects: seq<Effect>)
      modifies this
      ensures Step(View(), effects) == ResumeOne(cfg, old(View()), conv)
    {
      effects := [];
      if FindActive(runs, conv).None? && Bound(cfg, View(), conv) {
        var rows := Leftovers(View(), conv, |steers|);
        if rows != [] {
          var id := |runs|;
          runs := runs + [RunRow(conv, JoinLines(Prompts(rows)), Queued)];
          inputs := inputs[id := rows[|rows| - 1].event];
          Move(Events(rows), id);
          effects := [Start(id)];
        }
      }
    }

    /** Hand the leftovers over to their new run, one by one. */
    method Move(events: seq<EventId>, run: RunId)
      modifies this`batches, this`steers
      ensures View() == old(View()).(batches := MoveBatches(old(batches), events, run), steers := MoveSteers(old(steers), events, run))
    {
      for i := 0 to |events|
        invariant batches == MoveBatches(old(batches), events[..i], run)
        invariant steers == MoveSteers(old(steers), events[..i], run)
      {
        MovedOne(old(batches), old(steers), events[..i], events[i], run);
        assert events[..i + 1] == events[..i] + [events[i]];
        batches := MoveBatch(batches, events[i], run);
        steers := MoveSteer(steers, events[i], run);
      }
      assert events[..|events|] == events;
    }

    // -------------------------------------------------------------- audience changes

    /** Whatever may no longer be delivered to a room is stopped. */
    method Reconcile(id: RoomId, room: RoomSnapshot) returns (effects: seq<Effect>)
      requires Valid()
      modifies this
      ensures Valid() && Onward(old(View()), View())
      ensures Step(View(), effects) == ReconcileRoom(cfg, old(View()), id, room)
    {
      var engaged := EngagedRuns(View(), id, |runs|);
      ReconcileAllGood(cfg, View(), engaged, room);
      effects := ReconcileEach(engaged, room);
    }

    method ReconcileEach(engaged: seq<RunId>, room: RoomSnapshot) returns (effects: seq<Effect>)
      modifies this
      ensures Step(View(), effects) == ReconcileAll(cfg, old(View()), engaged, room)
    {
      effects := [];
      for i := 0 to |engaged|
        invariant Step(View(), effects) == ReconcileAll(cfg, old(View()), engaged[..i], room)
      {
        assert engaged[..i + 1][..i] == engaged[..i];
        var more := ReconcileRun(engaged[i], room);
        effects := effects + more;
      }
      assert engaged[..|engaged|] == engaged;
    }

    /** Three statements, each committed by itself. */
    method ReconcileRun(run: RunId, room: RoomSnapshot) returns (effects: seq<Effect>)
      modifies this
      ensures Step(View(), effects) == ReconcileOne(cfg, old(View()), run, room)
    {
      effects := [];
      if IsRun(runs, run) && !MayDeliver(cfg, View(), runs[run].conv, room) {
        steers := CancelRunSteers(steers, run);
        if runs[run].status.Active() {
          runs := SetStatus(runs, run, Status.Cancelling);
          approvals := ConsumeRun(approvals, run);
          effects := [Effect.Cancel(run)];
        }
      }
    }

    // -------------------------------------------------------------- restart

    /** The restart boundary: whatever was committed when the process ended, every invariant holds again and nothing goes on. */
    method Recover() returns (interrupted: nat)
      requires Recovery.Committed(cfg, View())
      modifies this
      ensures Valid() && Recovery.AtRest(View()) && Onward(old(View()), View())
      ensures Step(View(), interrupted) == Rules.Recover(cfg, old(View()))
    {
      Recovery.RecoverRestores(cfg, View());
      interrupted := Quiesce();
    }

    method Quiesce() returns (interrupted: nat)
      modifies this
      ensures Step(View(), interrupted) == Rules.Recover(cfg, old(View()))
    {
      FlushEverything();
      interrupted := InterruptEverything();
      CutShort();
    }

    method CutShort()
      modifies this`approvals, this`batches, this`steers
      ensures View() == old(View()).(approvals := ConsumeAll(old(approvals)), batches := AbandonUntold(old(batches)), steers := CutOffSteers(old(steers)))
    {
      approvals := ConsumeAll(approvals);
      batches := AbandonUntold(batches);
      steers := CutOffSteers(steers);
    }

    method FlushEverything()
      modifies this`outbox, this`output
      ensures View() == FlushAll(old(View()), Buffered(old(View()), |old(output)|))
    {
      ghost var j := View();
      var buffered := Buffered(View(), |output|);
      for i := 0 to |buffered|
        invariant (forall r :: r in buffered[..i] ==> IsRun(runs, r)) && View() == FlushAll(j, buffered[..i])
      {
        assert buffered[i] in buffered && buffered[..i + 1][..i] == buffered[..i];
        FlushOutput(buffered[i], runs[buffered[i]].conv);
      }
      assert buffered[..|buffered|] == buffered;
    }

    method InterruptEverything() returns (count: nat)
      modifies this`outbox, this`runs
      ensures var active := ActiveRuns(old(runs), |old(runs)|);
              View() == InterruptAll(cfg, old(View()), active) && count == |active|
    {
      ghost var j := View();
      var active := ActiveRuns(runs, |runs|);
      for i := 0 to |active|
        invariant |runs| == |j.runs| && (forall r :: r in active[..i] ==> IsRun(runs, r)) && View() == InterruptAll(cfg, j, active[..i])
      {
        assert active[i] in active && active[..i + 1][..i] == active[..i];
        InterruptedConv(cfg, j, active[..i], active[i]);
        Interrupt(active[i]);
      }
      assert active[..|active|] == active;
      count := |active|;
    }

    method Interrupt(run: RunId)
      requires IsRun(runs, run)
      modifies this`outbox, this`runs
      ensures View() == Enqueue(old(View()).(runs := SetStatus(old(runs), run, Interrupted)), old(runs)[run].conv, cfg.text(RunInterrupted(run)))
    {
      runs := SetStatus(runs, run, Interrupted);
      Say(runs[run].conv, RunInterrupted(run));
    }

    // -------------------------------------------------------------- delivery

    /** An acknowledgement is recorded once, together with the removal of the eyes it makes obsolete. */
    method Delivered(txn: Txn, event: EventId)
      requires Valid()
      modifies this`outbox, this`cleanup
      ensures Valid() && Onward(old(View()), View())
      ensures View() == Deliver(old(View()), txn, event)
    {
      DeliverGood(cfg, View(), txn, event);
      Acknowledge(txn, event);
    }

    method Acknowledge(txn: Txn, event: EventId)
      modifies this`outbox, this`cleanup
      ensures View() == Deliver(old(View()), txn, event)
    {
      if txn < |outbox| && outbox[txn].delivered.None? {
        var targets := CleanupTargets(View(), txn, |outbox|);
        outbox := outbox[txn := outbox[txn].(delivered := Some(event))];
        ScheduleRemovals(targets);
      }
    }

    method ScheduleRemovals(targets: seq<Txn>)
      modifies this`cleanup
      ensures cleanup == old(cleanup) + CleanupRows(targets)
    {
      for i := 0 to |targets|
        invariant cleanup == old(cleanup) + CleanupRows(targets[..i])
      {
        assert CleanupRows(targets[..i + 1]) == CleanupRows(targets[..i]) + [CleanupRow(targets[i], None)];
        cleanup := cleanup + [CleanupRow(targets[i], None)];
      }
      assert targets[..|targets|] == targets;
    }

    method ReactionRemoved(row: nat, event: EventId)
      requires Valid()
      modifies this`cleanup
      ensures Valid() && Onward(old(View()), View())
      ensures View() == RemoveReaction(old(View()), row, event)
    {
      RemoveGood(cfg, View(), row, event);
      if row < |cleanup| && cleanup[row].delivered.None? {
        cleanup := cleanup[row := cleanup[row].(delivered := Some(event))];
      }
    }

    /** What is still to be sent, oldest first. */
    method PendingRows() returns (rows: seq<Txn>)
      ensures forall t :: t in rows <==> Undelivered(View(), t)
      ensures forall i, k :: 0 <= i < k < |rows| ==> rows[i] < rows[k]
    {
      rows := [];
      for t := 0 to |outbox|
        invariant forall k :: k in rows <==> k < t && Undelivered(View(), k)
        invariant forall i, k :: 0 <= i < k < |rows| ==> rows[i] < rows[k]
      {
        if outbox[t].delivered.None? && t !in failures {
          assert forall i :: 0 <= i < |rows| ==> rows[i] in rows;
          rows := rows + [t];
        }
      }
    }

    /** The removals that can be sent, oldest first. */
    method PendingRemovals() returns (rows: seq<nat>)
      ensures forall i :: i in rows <==> RemovalDue(View(), i)
      ensures forall i, k :: 0 <= i < k < |rows| ==> rows[i] < rows[k]
    {
      rows := [];
      for n := 0 to |cleanup|
        invariant forall k :: k in rows <==> k < n && RemovalDue(View(), k)
        invariant forall i, k :: 0 <= i < k < |rows| ==> rows[i] < rows[k]
      {
        if cleanup[n].delivered.None? && cleanup[n].target < |outbox| && outbox[cleanup[n].target].delivered.Some? {
          assert forall i :: 0 <= i < |rows| ==> rows[i] in rows;
          rows := rows + [n];
        }
      }
    }

    /** A message refused for good. */
    method BlockMessage(txn: Txn)
      requires Valid()
      modifies this`failures
      ensures Valid() && Onward(old(View()), View())
      ensures View() == Block(old(View()), txn)
    {
      BlockGood(cfg, View(), txn);
      if txn in explicit {
        failures := failures + {txn};
      }
    }

    /** A run posts a message itself. */
    method PostMessage(run: RunId, text: string) returns (r: Result<(ConvKey, seq<Txn>), Error>)
      requires Valid()
      modifies this
      ensures Valid() && Onward(old(View()), View())
      ensures match ExplicitMessage(cfg, old(View()), run, text)
              case Success(s) => View() == s.journal && r == Success(s.value)
              case Failure(e) => View() == old(View()) && r == Failure(e)
    {
      ExplicitGood(cfg, View(), run, text);
      OnwardReflexive(View());
      r := Post(run, text);
    }

    method Post(run: RunId, text: string) returns (r: Result<(ConvKey, seq<Txn>), Error>)
      modifies this
      ensures match ExplicitMessage(cfg, old(View()), run, text)
              case Success(s) => View() == s.journal && r == Success(s.value)
              case Failure(e) => View() == old(View()) && r == Failure(e)
    {
      if Blank(text) {
        return Failure(EmptyText);
      }
      if !IsRun(runs, run) {
        return Failure(UnknownRun);
      }
      if !runs[run].status.Running? && !runs[run].status.WaitingApproval? {
        return Failure(Inactive);
      }
      var conv := runs[run].conv;
      if conv.room !in cfg.rooms || !cfg.rooms[conv.room].delivery.Explicit? {
        return Failure(NotExplicit);
      }
      Witness(run);
      var ids := EnqueueIds(conv, text);
      MarkExplicit(ids, run);
      r := Success((conv, ids));
    }

    method MarkExplicit(ids: seq<Txn>, run: RunId)
      modifies this`explicit
      ensures explicit == old(explicit) + (map t | t in ids :: run)
    {
      for i := 0 to |ids|
        invariant explicit == old(explicit) + (map t | t in ids[..i] :: run)
      {
        assert ids[..i + 1] == ids[..i] + [ids[i]];
        explicit := explicit[ids[i] := run];
      }
      assert ids[..|ids|] == ids;
    }
  }

  /** What a registered message that is no command comes to. */
  ghost function Worked(cfg: Config, j1: Journal, event: Incoming, conv: ConvKey, p: Prepared): Result<Step<seq<Effect>>, Error> {
    var active := FindActive(j1.runs, conv);
    if Blank(event.body) then Success(Step(j1, []))
    else if active.Some? then FollowUp(cfg, j1, event, conv, active.value, p.prompt, Some(p))
    else OpenRun(cfg, j1, event, conv, p.prompt, Some(p))
  }

  lemma FailsOnlyOnConflict(cfg: Config, j1: Journal, event: Incoming, conv: ConvKey, p: Prepared)
    ensures Worked(cfg, j1, event, conv, p).Failure? ==> Worked(cfg, j1, event, conv, p).error == Conflict
  {}

  /** What can fail has failed before the transaction begins. */
  lemma NoFailure(cfg: Config, j: Journal, event: Incoming, room: RoomSnapshot, history: seq<Incoming>, now: int, conv: ConvKey, p: Prepared)
    requires Inv(cfg, j) && event.room == cfg.home(event.event)
    requires Admit(cfg, j, event, room) == Admitted(conv) && (event.room, event.event) !in j.inbox
    requires PrepareContext(cfg, j, event, history) == Success(p)
    ensures Worked(cfg, Register(cfg, j, event, room, conv), event, conv, p).Success?
  {
    FailsOnlyOnConflict(cfg, Register(cfg, j, event, room, conv), event, conv, p);
    HandleWork(cfg, j, Register(cfg, j, event, room, conv), event, room, history, conv, p);
  }

  /** The method's outcome is the transaction's. */
  ghost predicate HandlesAs(spec: Result<Step<Handled>, Error>, before: Journal, after: Journal, r: Result<Handled, Error>) {
    match spec
    case Success(s) => after == s.journal && r == Success(s.value)
    case Failure(e) => after == before && r == Failure(e)
  }

  ghost predicate Outcome(spec: Result<Journal, Error>, before: Journal, after: Journal, r: Result<(), Error>) {
    match spec
    case Success(k) => after == k && r == Success(())
    case Failure(e) => after == before && r == Failure(e)
  }

  ghost predicate DispatchedAs(spec: Result<Journal, Error>, before: Journal, after: Journal, run: RunId, r: Result<RunRow, Error>) {
    match spec
    case Success(k) => after == k && IsRun(before.runs, run) && r == Success(before.runs[run])
    case Failure(e) => after == before && r == Failure(e)
  }

  lemma NotPrepared(cfg: Config, j: Journal, event: Incoming, room: RoomSnapshot, history: seq<Incoming>, now: int, conv: ConvKey)
    requires Admit(cfg, j, event, room) == Admitted(conv) && !IsCommand(event.body) && PrepareContext(cfg, j, event, history).Failure?
    ensures Handle(cfg, j, event, room, Some(history), now) == Failure(PrepareContext(cfg, j, event, history).error)
  {}

  lemma SeenBefore(cfg: Config, j: Journal, event: Incoming, room: RoomSnapshot, history: seq<Incoming>, now: int, conv: ConvKey, p: Option<Prepared>)
    requires Admit(cfg, j, event, room) == Admitted(conv) && (event.room, event.event) in j.inbox
    requires IsCommand(event.body) || PrepareContext(cfg, j, event, history).Success?
    ensures Handle(cfg, j, event, room, Some(history), now) == Success(Step(j, Handled(Duplicate, [])))
  {}

  lemma HandledAs(cfg: Config, j: Journal, event: Incoming, room: RoomSnapshot, history: seq<Incoming>, now: int, conv: ConvKey, p: Option<Prepared>, k: Journal, effects: seq<Effect>)
    requires Admit(cfg, j, event, room) == Admitted(conv) && (event.room, event.event) !in j.inbox
    requires IsCommand(event.body) <==> p.None?
    requires p.Some? ==> PrepareContext(cfg, j, event, history) == Success(p.value)
    requires var j1 := Register(cfg, j, event, room, conv);
             if p.None? then Step(k, effects) == RunCommand(cfg, j1, conv, ParseCommand(event.body), now)
             else Success(Step(k, effects)) == Worked(cfg, j1, event, conv, p.value)
    ensures Handle(cfg, j, event, room, Some(history), now) == Success(Step(k, Handled(Accepted, effects)))
  {}

  lemma FirstChunk(rest: string, chunk: string)
    requires rest != [] && chunk == if |rest| <= CHUNK then rest else rest[..CHUNK]
    ensures Chunks(rest) == [chunk] + Chunks(rest[|chunk|..])
  {}

  lemma NextChunk(done: seq<string>, rest: string, chunk: string)
    requires rest != [] && chunk == if |rest| <= CHUNK then rest else rest[..CHUNK]
    ensures done + Chunks(rest) == (done + [chunk]) + Chunks(rest[|chunk|..])
  {
    FirstChunk(rest, chunk);
    Regroup(done, [chunk], Chunks(rest[|chunk|..]));
  }

  lemma Regroup<T>(a: seq<T>, b: seq<T>, c: seq<T>)
    ensures a + (b + c) == (a + b) + c
  {}

  // ---------------------------------------------------------------- reading the ledger

  ghost function LiveOf(j: Journal, conv: ConvKey): set<EventId> {
    set e | e in j.batches && Live(j, e) && j.batches[e].conv == conv
  }

  /** The batch of row `n`, if the session has been told it. */
  predicate IsNext(j: Journal, conv: ConvKey, n: nat, e: EventId)
    ensures IsNext(j, conv, n, e) ==> e in LiveOf(j, conv) && j.batches[e].row == n
  {
    e in j.batches && j.batches[e].row == n && j.batches[e].conv == conv && Live(j, e)
  }

  lemma NoneNext(j: Journal, conv: ConvKey, n: nat)
    requires forall e :: e in j.batches ==> !IsNext(j, conv, n, e)
    ensures forall e :: e in LiveOf(j, conv) ==> j.batches[e].row != n
  {
    assert forall e :: e in LiveOf(j, conv) ==> j.batches[e].row == n ==> IsNext(j, conv, n, e);
  }

  /** Of some batches those in rows below `n` have been read: what they carry, whether one is the baseline, the last of them. */
  ghost predicate Read(batches: map<EventId, Batch>, live: set<EventId>, n: nat, seen: set<Mark>, initial: bool, last: Option<EventId>) {
    && live <= batches.Keys
    && (forall m :: m in seen <==> exists e :: e in live && batches[e].row < n && m in batches[e].events)
    && (!initial <==> exists e :: e in live && batches[e].row < n && batches[e].initial)
    && (last.None? ==> forall e :: e in live ==> batches[e].row >= n)
    && (last.Some? ==>
          && last.value in live && batches[last.value].row < n
          && forall o :: o in live && batches[o].row < n ==> batches[o].row <= batches[last.value].row)
  }

  lemma ReadOne(j: Journal, live: set<EventId>, n: nat, seen: set<Mark>, initial: bool, last: Option<EventId>, e: EventId)
    requires BatchRowsOk(j) && Read(j.batches, live, n, seen, initial, last) && e in live && j.batches[e].row == n
    ensures Read(j.batches, live, n + 1, seen + (set m | m in j.batches[e].events), initial && !j.batches[e].initial, Some(e))
  {
    assert forall o :: o in live && j.batches[o].row == n ==> o == e;
    ReadRow(j.batches, live, n, seen, initial, last, e);
  }

  lemma ReadRow(batches: map<EventId, Batch>, live: set<EventId>, n: nat, seen: set<Mark>, initial: bool, last: Option<EventId>, e: EventId)
    requires Read(batches, live, n, seen, initial, last) && e in live && batches[e].row == n
    requires forall o :: o in live && batches[o].row == n ==> o == e
    ensures Read(batches, live, n + 1, seen + (set m | m in batches[e].events), initial && !batches[e].initial, Some(e))
  {
    forall m | m in seen
      ensures exists o :: o in live && batches[o].row < n + 1 && m in batches[o].events
    {
      var o :| o in live && batches[o].row < n && m in batches[o].events;
    }
    if !initial {
      var o :| o in live && batches[o].row < n && batches[o].initial;
      assert batches[o].row < n + 1;
    }
  }

  lemma ReadNone(batches: map<EventId, Batch>, live: set<EventId>, n: nat, seen: set<Mark>, initial: bool, last: Option<EventId>)
    requires Read(batches, live, n, seen, initial, last) && forall e :: e in live ==> batches[e].row != n
    ensures Read(batches, live, n + 1, seen, initial, last)
  {
    assert forall e :: e in live ==> (batches[e].row < n + 1 <==> batches[e].row < n);
  }

  lemma ReadAll(j: Journal, conv: ConvKey, seen: set<Mark>, initial: bool, last: Option<EventId>)
    requires BatchRowsOk(j) && Read(j.batches, LiveOf(j, conv), j.nextBatch, seen, initial, last)
    ensures seen == SeenInBatches(j, conv) && initial == !Initialized(j, conv)
    ensures LastDelivery(j, conv) == if last.Some? then Some(j.batches[last.value].delivery) else None
  {
    ReadSeen(j, conv, seen, initial, last);
    assert forall e :: LatestLive(j, conv, e) ==> e in LiveOf(j, conv);
    OnlyLatest(j, conv);
    if last.Some? { assert LatestLive(j, conv, last.value); }
  }

  lemma ReadSeen(j: Journal, conv: ConvKey, seen: set<Mark>, initial: bool, last: Option<EventId>)
    requires (forall e :: e in j.batches ==> j.batches[e].row < j.nextBatch)
    requires Read(j.batches, LiveOf(j, conv), j.nextBatch, seen, initial, last)
    ensures seen == SeenInBatches(j, conv) && initial == !Initialized(j, conv)
  {
    assert forall m :: m in seen <==> m in SeenInBatches(j, conv);
    assert Initialized(j, conv) <==> exists e :: e in LiveOf(j, conv) && j.batches[e].initial;
  }

  /** Rows are numbered, so only one batch can be the last. */
  lemma OnlyLatest(j: Journal, conv: ConvKey)
    requires BatchRowsOk(j)
    ensures forall e, o :: LatestLive(j, conv, e) && LatestLive(j, conv, o) ==> e == o
  {}

  // ---------------------------------------------------------------- one row at a time

  lemma MovedOne(batches: map<EventId, Batch>, steers: seq<SteerRow>, moved: seq<EventId>, event: EventId, run: RunId)
    ensures MoveBatches(batches, moved + [event], run) == MoveBatch(MoveBatches(batches, moved, run), event, run)
    ensures MoveSteers(steers, moved + [event], run) == MoveSteer(MoveSteers(steers, moved, run), event, run)
  {
    assert event in moved + [event];
    assert forall e :: e in moved + [event] <==> e in moved || e == event;
  }

  /** Interrupting runs leaves each in its conversation. */
  lemma InterruptedConv(cfg: Config, j: Journal, done: seq<RunId>, run: RunId)
    requires (forall r :: r in done ==> IsRun(j.runs, r)) && IsRun(j.runs, run)
    ensures InterruptAll(cfg, j, done).runs[run].conv == j.runs[run].conv
  {
    Recovery.InterruptAllRuns(cfg, j, done);
  }
}
