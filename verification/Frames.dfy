/**
 One frame per transaction: which tables it may touch; all others it leaves as they were. The results about histories
 that follow a single table, whether answers, output, inbox or failures, are carried past every transaction that has
 nothing to do with it by these.
 */
module Frames {
  import opened Model
  import opened Text
  import opened Context
  import opened Journal
  import opened Rules
  import opened Recovery

  // ---------------------------------------------------------------- commands

  lemma SayFrame(j: Journal, conv: ConvKey, body: string)
    ensures var k := Enqueue(j, conv, body); k == j.(outbox := k.outbox)
  {}

  lemma AnswerFrame(j: Journal, request: RequestId, run: RunId, conv: ConvKey, body: string)
    requires IsRun(j.runs, run)
    ensures var k := Enqueue(Answer(j, request, run), conv, body);
            k == j.(outbox := k.outbox, runs := k.runs, approvals := k.approvals) && |k.runs| == |j.runs|
  {}

  /** A command's effects only cancel or decide. */
  predicate OpensNothing(effects: seq<Effect>) {
    forall i :: 0 <= i < |effects| ==> effects[i].Cancel? || effects[i].Decide?
  }

  lemma ApproveFrame(cfg: Config, j: Journal, conv: ConvKey, request: RequestId, option: string, now: int)
    ensures var s := ApproveCommand(cfg, j, conv, request, option, now);
            && s.journal == j.(outbox := s.journal.outbox, runs := s.journal.runs, approvals := s.journal.approvals)
            && |s.journal.runs| == |j.runs| && OpensNothing(s.value)
  {
    SayFrame(j, conv, cfg.text(ApprovalUnavailable));
    SayFrame(j, conv, cfg.text(NotOffered));
    if Answerable(j, conv, request, now) {
      AnswerFrame(j, request, j.approvals[FindApproval(j.approvals, request).value].run, conv, cfg.text(ApprovalAccepted));
    }
  }

  lemma StopFrame(cfg: Config, j: Journal, conv: ConvKey)
    ensures var s := StopConversation(cfg, j, conv);
            && s.journal == j.(outbox := s.journal.outbox, runs := s.journal.runs, approvals := s.journal.approvals,
                               steers := s.journal.steers, batches := s.journal.batches)
            && |s.journal.runs| == |j.runs| && |s.journal.steers| == |j.steers| && s.journal.batches.Keys == j.batches.Keys
            && OpensNothing(s.value)
  {
    AbandonKeys(j.batches, conv);
    StopTables(cfg, j, conv);
  }

  lemma AbandonKeys(batches: map<EventId, Batch>, conv: ConvKey)
    ensures AbandonStaged(batches, conv).Keys == batches.Keys
  {}

  lemma StopTables(cfg: Config, j: Journal, conv: ConvKey)
    ensures var k := StopConversation(cfg, j, conv).journal;
            && k == j.(outbox := k.outbox, runs := k.runs, approvals := k.approvals, steers := k.steers, batches := AbandonStaged(j.batches, conv))
            && |k.runs| == |j.runs| && |k.steers| == |j.steers|
  {
    SayFrame(j.(batches := AbandonStaged(j.batches, conv), steers := CancelConvSteers(j.steers, j.runs, conv)), conv, cfg.text(NothingToStop));
  }

  lemma CommandFrame(cfg: Config, j: Journal, conv: ConvKey, command: BridgeCommand, now: int)
    ensures var s := RunCommand(cfg, j, conv, command, now);
            && s.journal == j.(outbox := s.journal.outbox, permissions := s.journal.permissions, runs := s.journal.runs,
                               approvals := s.journal.approvals, steers := s.journal.steers, batches := s.journal.batches)
            && |s.journal.runs| == |j.runs| && |s.journal.steers| == |j.steers| && s.journal.batches.Keys == j.batches.Keys
            && OpensNothing(s.value)
  {
    match command
    case CmdStop => StopFrame(cfg, j, conv);
    case CmdApprove(request, option) => ApproveFrame(cfg, j, conv, request, option, now);
    case _ =>
  }

  // ---------------------------------------------------------------- messages

  /** Registering a message, following up on a run and opening one share their tables. */
  predicate Accepted(j: Journal, k: Journal) {
    k == j.(runs := k.runs, inputs := k.inputs, steers := k.steers, batches := k.batches, nextBatch := k.nextBatch,
            sessions := k.sessions, outbox := k.outbox)
  }

  lemma StageFrame(j: Journal, conv: ConvKey, run: RunId, input: EventId, p: Option<Prepared>, steering: bool)
    ensures var r := StageIfPrepared(j, conv, run, input, p, steering);
            r.Success? ==> r.value == j.(batches := r.value.batches, nextBatch := r.value.nextBatch, sessions := r.value.sessions)
  {}

  lemma FollowUpFrame(cfg: Config, j: Journal, event: Incoming, conv: ConvKey, run: RunId, prompt: string, p: Option<Prepared>)
    requires IsRun(j.runs, run)
    ensures var r := FollowUp(cfg, j, event, conv, run, prompt, p); r.Success? ==> Accepted(j, r.value.journal)
  {
    StageFrame(j.(steers := j.steers + [SteerRow(event.event, run, prompt, Pending)]), conv, run, event.event, p, true);
  }

  lemma OpenRunFrame(cfg: Config, j: Journal, event: Incoming, conv: ConvKey, prompt: string, p: Option<Prepared>)
    ensures var r := OpenRun(cfg, j, event, conv, prompt, p); r.Success? ==> Accepted(j, r.value.journal)
  {
    SayFrame(j, conv, cfg.text(AtCapacity));
    StageFrame(j.(runs := j.runs + [RunRow(conv, prompt, Queued)], inputs := j.inputs[|j.runs| := event.event]),
               conv, |j.runs|, event.event, p, false);
  }

  /** A message that is let in: registered, then worked on. */
  predicate LetIn(cfg: Config, j: Journal, event: Incoming, room: RoomSnapshot, k: Journal) {
    && event.room in cfg.rooms
    && var j1 := Register(cfg, j, event, room, ConversationOf(cfg, event));
       k == j.(inbox := j1.inbox, convs := j1.convs, permissions := k.permissions, runs := k.runs, inputs := k.inputs, steers := k.steers,
               batches := k.batches, nextBatch := k.nextBatch, sessions := k.sessions, approvals := k.approvals, outbox := k.outbox)
  }

  predicate New(cfg: Config, j: Journal, event: Incoming, room: RoomSnapshot) {
    Admit(cfg, j, event, room).Admitted? && (event.room, event.event) !in j.inbox
  }

  lemma LetInFrame(cfg: Config, j: Journal, event: Incoming, room: RoomSnapshot, context: Option<seq<Incoming>>, now: int)
    requires Handle(cfg, j, event, room, context, now).Success? && New(cfg, j, event, room)
    ensures var s := Handle(cfg, j, event, room, context, now).value;
            LetIn(cfg, j, event, room, s.journal) && s.value.disposition.Accepted?
  {
    var conv := Admit(cfg, j, event, room).conv;
    var j1 := Register(cfg, j, event, room, conv);
    if IsCommand(event.body) {
      CommandFrame(cfg, j1, conv, ParseCommand(event.body), now);
    } else {
      var p := if context.None? then None else Some(PrepareContext(cfg, j, event, context.value).value);
      var prompt := if p.Some? then p.value.prompt else event.body;
      OpenRunFrame(cfg, j1, event, conv, prompt, p);
      var active := FindActive(j1.runs, conv);
      if active.Some? { FollowUpFrame(cfg, j1, event, conv, active.value, prompt, p); }
    }
  }

  lemma TurnedAway(cfg: Config, j: Journal, event: Incoming, room: RoomSnapshot, context: Option<seq<Incoming>>, now: int)
    requires Handle(cfg, j, event, room, context, now).Success? && !New(cfg, j, event, room)
    ensures var s, a := Handle(cfg, j, event, room, context, now).value, Admit(cfg, j, event, room);
            s == Step(j, Handled(if a.Admitted? then Duplicate else a.disposition, []))
            && (a.Refused? ==> a.disposition.Denied? || a.disposition.Ignored?)
  {}

  /** The journal changes only for a message that is admitted and new, and the inbox remembers exactly that message. */
  lemma MessageFrame(cfg: Config, j: Journal, event: Incoming, room: RoomSnapshot, context: Option<seq<Incoming>>, now: int)
    requires Handle(cfg, j, event, room, context, now).Success?
    ensures var s := Handle(cfg, j, event, room, context, now).value;
            && (s.value.disposition.Accepted? <==> New(cfg, j, event, room))
            && (s.value.disposition.Accepted? ==> LetIn(cfg, j, event, room, s.journal))
            && (!s.value.disposition.Accepted? ==> s.journal == j && s.value.effects == [])
  {
    if New(cfg, j, event, room) { LetInFrame(cfg, j, event, room, context, now); } else { TurnedAway(cfg, j, event, room, context, now); }
  }

  // ---------------------------------------------------------------- worker events

  lemma StartedFrame(j: Journal, run: RunId)
    ensures var r := Started(j, run); r.Success? ==> r.value == j.(runs := r.value.runs)
  {}

  lemma FlushFrame(j: Journal, run: RunId, conv: ConvKey)
    ensures var k := Flush(Observe(j, run), run, conv); k == j.(outbox := k.outbox, output := k.output, batches := k.batches)
    ensures var k := Flush(j, run, conv); k == j.(outbox := k.outbox, output := k.output)
  {}

  lemma RequestFrame(cfg: Config, j: Journal, run: RunId, conv: ConvKey, request: RequestId, title: string, options: seq<Choice>, now: int)
    requires IsRun(j.runs, run)
    ensures var k := AddRequest(cfg, j, run, conv, request, title, options, now);
            k == j.(approvals := k.approvals, runs := SetStatus(j.runs, run, WaitingApproval), outbox := k.outbox)
  {
    var asked := j.(approvals := j.approvals + [ApprovalRow(request, run, options, Deadline(cfg, now), false)],
                    runs := SetStatus(j.runs, run, WaitingApproval));
    SayFrame(asked, conv, cfg.text(ApprovalRequested(request, title, options)));
  }

  lemma AskFrame(cfg: Config, j: Journal, run: RunId, conv: ConvKey, request: RequestId, title: string, options: seq<Choice>, now: int)
    requires IsRun(j.runs, run)
    ensures var r := AskPermission(cfg, j, run, conv, request, title, options, now);
            r.Success? ==>
              && r.value == j.(outbox := r.value.outbox, output := r.value.output, batches := r.value.batches,
                               approvals := r.value.approvals, runs := r.value.runs)
              && (r.value.runs == j.runs || r.value.runs == SetStatus(j.runs, run, WaitingApproval))
  {
    FlushFrame(j, run, conv);
    RequestFrame(cfg, Flush(Observe(j, run), run, conv), run, conv, request, title, options, now);
  }

  lemma TakeFrame(cfg: Config, j: Journal, run: RunId, conv: ConvKey, e: EventId)
    ensures var k := TakeSteer(cfg, j, run, conv, e);
            k == j.(outbox := k.outbox, output := k.output, batches := k.batches, steers := DeliverSteer(j.steers, e, run))
  {
    FlushFrame(j, run, conv);
  }

  lemma FinishFrame(j: Journal, run: RunId, conv: ConvKey, status: Status)
    requires IsRun(j.runs, run)
    ensures var r := FinishRun(j, run, conv, status);
            r.Success? ==>
              r.value == j.(outbox := r.value.outbox, output := r.value.output, batches := r.value.batches,
                            approvals := r.value.approvals, runs := SetStatus(j.runs, run, status))
  {}

  lemma ReadyFrame(j: Journal, conv: ConvKey, session: SessionId)
    ensures var r := ReadySession(j, conv, session);
            r.Success? ==>
              && r.value == j.(convs := r.value.convs, sessions := r.value.sessions)
              && r.value.convs.Keys == j.convs.Keys && forall c :: c in j.convs ==> r.value.convs[c].policy == j.convs[c].policy
  {}

  /** A worker event never touches what was let in, given up, started or decided; only a new session touches a conversation. */
  predicate Worked(j: Journal, k: Journal) {
    && k == j.(convs := k.convs, sessions := k.sessions, outbox := k.outbox, output := k.output, batches := k.batches,
               approvals := k.approvals, runs := k.runs, steers := k.steers)
    && |k.steers| == |j.steers|
    && k.convs.Keys == j.convs.Keys && forall c :: c in j.convs ==> k.convs[c].policy == j.convs[c].policy
  }

  lemma SpokenFrame(cfg: Config, j: Journal, run: RunId, conv: ConvKey, event: AgentEvent)
    ensures Worked(j, Observe(j, run)) && Worked(j, Flush(Observe(j, run), run, conv))
    ensures event.Text? ==> Worked(j, Observe(j, run).(output := j.output + [OutputRow(run, event.text)]))
    ensures event.Steered? ==> Worked(j, TakeSteer(cfg, j, run, conv, event.event))
  {
    FlushFrame(j, run, conv);
    if event.Steered? { TakeFrame(cfg, j, run, conv, event.event); }
  }

  lemma AskedFrame(cfg: Config, j: Journal, run: RunId, conv: ConvKey, request: RequestId, title: string, options: seq<Choice>, now: int)
    requires IsRun(j.runs, run)
    ensures var r := AskPermission(cfg, j, run, conv, request, title, options, now); r.Success? ==> Worked(j, r.value)
  {
    AskFrame(cfg, j, run, conv, request, title, options, now);
  }

  lemma EndedFrame(j: Journal, run: RunId, conv: ConvKey, status: Status)
    requires IsRun(j.runs, run)
    ensures var r := FinishRun(j, run, conv, status); r.Success? ==> Worked(j, r.value)
  {
    FinishFrame(j, run, conv, status);
  }

  lemma NewSessionFrame(j: Journal, conv: ConvKey, session: SessionId)
    ensures var r := ReadySession(j, conv, session); r.Success? ==> Worked(j, r.value)
  {
    ReadyFrame(j, conv, session);
  }

  lemma EventFrame(cfg: Config, j: Journal, event: AgentEvent, now: int)
    ensures var r := OnAgentEvent(cfg, j, event, now); r.Success? ==> Worked(j, r.value)
  {
    if IsRun(j.runs, event.run) {
      var run, conv := event.run, j.runs[event.run].conv;
      match event
      case SessionReady(_, session) => NewSessionFrame(j, conv, session);
      case Permission(_, request, title, options) => AskedFrame(cfg, j, run, conv, request, title, options, now);
      case Finished(_, status) => EndedFrame(j, run, conv, status);
      case _ => SpokenFrame(cfg, j, run, conv, event);
    }
  }

  // ---------------------------------------------------------------- timers and audience changes

  lemma AutoOneFrame(cfg: Config, j: Journal, a: ApprovalRow)
    ensures var k := AutoOne(cfg, j, a).journal; k == j.(approvals := k.approvals, decisions := k.decisions, runs := k.runs)
  {}

  lemma {:induction false} AutoFrame(cfg: Config, j: Journal, rows: seq<ApprovalRow>)
    ensures var k := AutoAll(cfg, j, rows).journal; k == j.(approvals := k.approvals, decisions := k.decisions, runs := k.runs)
    decreases |rows|
  {
    if rows != [] {
      AutoFrame(cfg, j, rows[..|rows| - 1]);
      AutoOneFrame(cfg, AutoAll(cfg, j, rows[..|rows| - 1]).journal, rows[|rows| - 1]);
    }
  }

  lemma ExpireOneFrame(cfg: Config, j: Journal, a: ApprovalRow)
    ensures var k := ExpireOne(cfg, j, a).journal; k == j.(approvals := k.approvals, runs := k.runs, outbox := k.outbox)
  {}

  lemma {:induction false} ExpireFrame(cfg: Config, j: Journal, rows: seq<ApprovalRow>)
    ensures var k := ExpireAll(cfg, j, rows).journal; k == j.(approvals := k.approvals, runs := k.runs, outbox := k.outbox)
    decreases |rows|
  {
    if rows != [] {
      ExpireFrame(cfg, j, rows[..|rows| - 1]);
      ExpireOneFrame(cfg, ExpireAll(cfg, j, rows[..|rows| - 1]).journal, rows[|rows| - 1]);
    }
  }

  lemma {:induction false} ResumeFrame(cfg: Config, j: Journal, convs: seq<ConvKey>)
    ensures var k := ResumeAll(cfg, j, convs).journal;
            k == j.(runs := k.runs, inputs := k.inputs, batches := k.batches, steers := k.steers) && |k.steers| == |j.steers|
    decreases |convs|
  {
    if convs != [] {
      ResumeFrame(cfg, j, convs[..|convs| - 1]);
      ResumeOneFrame(cfg, ResumeAll(cfg, j, convs[..|convs| - 1]).journal, convs[|convs| - 1]);
    }
  }

  lemma ResumeOneFrame(cfg: Config, j: Journal, conv: ConvKey)
    ensures var k := ResumeOne(cfg, j, conv).journal;
            k == j.(runs := k.runs, inputs := k.inputs, batches := k.batches, steers := k.steers) && |k.steers| == |j.steers|
  {}

  lemma StopRunFrame(j: Journal, run: RunId, statements: nat)
    requires IsRun(j.runs, run)
    ensures var k := StopRun(j, run, statements);
            k == j.(steers := k.steers, runs := k.runs, approvals := k.approvals) && |k.steers| == |j.steers|
  {
    var k := StopRun(j, run, statements);
    var j1 := if statements >= 1 then j.(steers := CancelRunSteers(j.steers, run)) else j;
    if !j.runs[run].status.Active() {
      assert k == j1;
    } else {
      var j2 := if statements >= 2 then j1.(runs := SetStatus(j.runs, run, Status.Cancelling)) else j1;
      assert k == if statements >= 3 then j2.(approvals := ConsumeRun(j.approvals, run)) else j2;
    }
  }

  lemma {:induction false} ReconcileFrame(cfg: Config, j: Journal, runs: seq<RunId>, room: RoomSnapshot)
    ensures var k := ReconcileAll(cfg, j, runs, room).journal;
            k == j.(steers := k.steers, runs := k.runs, approvals := k.approvals) && |k.steers| == |j.steers|
    decreases |runs|
  {
    if runs != [] {
      var m := ReconcileAll(cfg, j, runs[..|runs| - 1], room).journal;
      ReconcileFrame(cfg, j, runs[..|runs| - 1], room);
      if IsRun(m.runs, runs[|runs| - 1]) { StopRunFrame(m, runs[|runs| - 1], 3); }
    }
  }

  // ---------------------------------------------------------------- delivery

  lemma DeliverFrame(j: Journal, txn: Txn, e: EventId)
    ensures var k := Deliver(j, txn, e); k == j.(outbox := k.outbox, cleanup := k.cleanup)
  {}

  lemma RemoveFrame(j: Journal, row: nat, e: EventId)
    ensures var k := RemoveReaction(j, row, e); k == j.(cleanup := k.cleanup)
  {}

  lemma BlockFrame(j: Journal, txn: Txn)
    ensures var k := Block(j, txn); k == j.(failures := k.failures)
  {}

  lemma ExplicitFrame(cfg: Config, j: Journal, run: RunId, text: string)
    ensures var r := ExplicitMessage(cfg, j, run, text);
            r.Success? ==> r.value.journal == j.(outbox := r.value.journal.outbox, batches := r.value.journal.batches, explicit := r.value.journal.explicit)
  {}

  // ---------------------------------------------------------------- restart

  lemma {:induction false} FlushAllFrame(j: Journal, runs: seq<RunId>)
    requires forall r :: r in runs ==> IsRun(j.runs, r)
    ensures var k := FlushAll(j, runs); k == j.(outbox := k.outbox, output := k.output)
    decreases |runs|
  {
    if runs != [] {
      FlushAllFrame(j, runs[..|runs| - 1]);
      assert IsRun(j.runs, runs[|runs| - 1]);
      FlushFrame(FlushAll(j, runs[..|runs| - 1]), runs[|runs| - 1], j.runs[runs[|runs| - 1]].conv);
    }
  }

  lemma {:induction false} InterruptFrame(cfg: Config, j: Journal, runs: seq<RunId>)
    requires forall r :: r in runs ==> IsRun(j.runs, r)
    ensures var k := InterruptAll(cfg, j, runs); k == j.(outbox := k.outbox, runs := k.runs)
    decreases |runs|
  {
    InterruptAllRuns(cfg, j, runs);
  }

  lemma RecoverFrame(cfg: Config, j: Journal)
    ensures var k := Recover(cfg, j).journal;
            && k == j.(outbox := k.outbox, output := k.output, runs := k.runs, approvals := k.approvals, batches := k.batches, steers := k.steers)
            && |k.steers| == |j.steers|
  {
    var j1 := FlushAll(j, Buffered(j, |j.output|));
    FlushAllFrame(j, Buffered(j, |j.output|));
    InterruptFrame(cfg, j1, ActiveRuns(j1.runs, |j1.runs|));
  }

  lemma {:induction false} ResetFrame(j: Journal, convs: seq<ConvKey>)
    ensures var k := ResetAll(j, convs);
            && k == j.(convs := k.convs) && k.convs.Keys == j.convs.Keys
            && forall c :: c in j.convs ==> k.convs[c].policy == j.convs[c].policy
    decreases |convs|
  {
    if convs != [] { ResetFrame(j, convs[..|convs| - 1]); }
  }

  lemma TornFrame(cfg: Config, j: Journal, torn: Torn)
    ensures var k := TornBy(cfg, j, torn);
            && k == j.(runs := k.runs, inputs := k.inputs, batches := k.batches, steers := k.steers, approvals := k.approvals, decisions := k.decisions)
            && |k.steers| == |j.steers|
  {
    match torn
    case Whole =>
    case Answering(now, n) => AutoFrame(cfg, j, Upto(Open(j, now, |j.approvals|), n));
    case Resuming(n) => ResumeFrame(cfg, j, Upto(LeftoverConvs(j, |j.steers|), n));
    case Reconciling(id, room, n, statements) =>
      var runs := EngagedRuns(j, id, |j.runs|);
      var m := ReconcileAll(cfg, j, Upto(runs, n), room).journal;
      ReconcileFrame(cfg, j, Upto(runs, n), room);
      if n < |runs| && IsRun(m.runs, runs[n]) { StopRunFrame(m, runs[n], statements); }
  }
}
