/**
 Every transaction that a message or a command causes keeps every invariant, and history only grows: a run keeps its
 conversation and its input, a terminal status stays, a follow-up keeps its row. Each case of the handler is a lemma of
 its own, and the shape of what it stages, inserts or marks is stated before its invariants are. Worker events, timers
 and restarts are in `EventSteps`.
 */
module Steps {
  import opened Model
  import opened Text
  import opened Context
  import opened Journal
  import opened Rules
  import opened Invariants
  import opened Lifecycle
  import opened Ledger
  import Approvals
  import Reactions

  /** Outbound rows are never rewritten, and an acknowledgement is never withdrawn. */
  ghost predicate OutboxGrows(outbox: seq<OutRow>, after: seq<OutRow>) {
    && |outbox| <= |after|
    && forall t :: 0 <= t < |outbox| ==>
         && after[t].conv == outbox[t].conv && after[t].body == outbox[t].body && after[t].reaction == outbox[t].reaction
         && (outbox[t].delivered.Some? ==> after[t].delivered == outbox[t].delivered)
  }

  /** Requests stay as asked, and an answered one stays answered. */
  ghost predicate ApprovalsGrow(approvals: seq<ApprovalRow>, after: seq<ApprovalRow>) {
    && |approvals| <= |after|
    && forall i :: 0 <= i < |approvals| ==>
         && after[i] == approvals[i].(consumed := after[i].consumed)
         && (approvals[i].consumed ==> after[i].consumed)
  }

  ghost predicate Onward(j: Journal, k: Journal) {
    Grows(j, k) && Fades(j, k) && OutboxGrows(j.outbox, k.outbox) && ApprovalsGrow(j.approvals, k.approvals)
  }

  lemma GrowsTransitive(i: Journal, j: Journal, k: Journal)
    requires Grows(i, j) && Grows(j, k)
    ensures Grows(i, k)
  {
    forall s | 0 <= s < |i.steers| && IsRun(i.runs, i.steers[s].run)
      ensures SteerGrows(i, k, s)
    {
      assert SteerGrows(i, j, s) && SteerGrows(j, k, s);
    }
  }

  lemma OnwardTransitive(i: Journal, j: Journal, k: Journal)
    requires Onward(i, j) && Onward(j, k)
    ensures Onward(i, k)
  {
    GrowsTransitive(i, j, k);
    FadesTransitive(i, j, k);
  }

  // ---------------------------------------------------------------- transactions that end no run and add none

  ghost predicate TextOnly(rows: seq<OutRow>) {
    forall i :: 0 <= i < |rows| ==> rows[i].delivered.None? && rows[i].reaction.None?
  }

  /** Nothing starts and nothing ends: statuses move among active ones, follow-ups settle, text is queued. */
  ghost predicate Quiet(cfg: Config, j: Journal, k: Journal, rows: seq<OutRow>) {
    && Calm(j, k)
    && k.inputs == j.inputs && InboxOk(cfg, k.inbox)
    && (forall r :: IsRun(j.runs, r) ==>
          && k.runs[r].prompt == j.runs[r].prompt
          && (j.runs[r].status.Cancelling? ==> k.runs[r].status.Cancelling?))
    && k.outbox == j.outbox + rows && TextOnly(rows) && k.cleanup == j.cleanup
    && ApprovalsOk(k.runs, k.approvals, k.decisions) && ApprovalsGrow(j.approvals, k.approvals)
    && OutputOk(k.runs, k.output)
  }

  lemma QuietLife(cfg: Config, j: Journal, k: Journal, rows: seq<OutRow>)
    requires LifeOk(cfg, j) && Quiet(cfg, j, k, rows)
    ensures LifeOk(cfg, k) && Grows(j, k)
  {
    assert forall c, r :: ActiveIn(k.runs, c, r) ==> ActiveIn(j.runs, c, r);
    forall i | 0 <= i < |j.steers|
      ensures SteerGrows(j, k, i)
    {}
  }

  lemma QuietKeeps(cfg: Config, j: Journal, k: Journal, rows: seq<OutRow>)
    requires Inv(cfg, j) && Quiet(cfg, j, k, rows)
    ensures Inv(cfg, k) && Onward(j, k)
  {
    QuietLife(cfg, j, k, rows);
    CalmKeeps(j, k);
    Reactions.TextKeeps(j, k, rows);
  }

  /** The tables a quiet transaction changes one at a time. */
  lemma QuietText(cfg: Config, j: Journal, k: Journal, rows: seq<OutRow>)
    requires Inv(cfg, j) && TextOnly(rows)
    requires k == j.(outbox := j.outbox + rows, inbox := k.inbox, convs := k.convs, permissions := k.permissions, output := k.output,
                     failures := k.failures, explicit := k.explicit)
    requires j.inbox <= k.inbox && InboxOk(cfg, k.inbox) && OutputOk(k.runs, k.output)
    requires j.convs.Keys <= k.convs.Keys && forall c :: c in j.convs ==> k.convs[c] == j.convs[c]
    ensures Quiet(cfg, j, k, rows)
  {
    assert forall c :: Stale(j, c) <==> Stale(k, c);
  }

  lemma RegisterGood(cfg: Config, j: Journal, event: Incoming, room: RoomSnapshot, conv: ConvKey)
    requires Inv(cfg, j) && event.room in cfg.rooms && event.room == cfg.home(event.event)
    ensures Inv(cfg, Register(cfg, j, event, room, conv)) && Onward(j, Register(cfg, j, event, room, conv))
  {
    var k := Register(cfg, j, event, room, conv);
    assert k.outbox == j.outbox + [];
    QuietText(cfg, j, k, []);
    QuietKeeps(cfg, j, k, []);
  }

  lemma SayGood(cfg: Config, j: Journal, conv: ConvKey, body: string)
    requires Inv(cfg, j)
    ensures Inv(cfg, Enqueue(j, conv, body)) && Onward(j, Enqueue(j, conv, body))
  {
    QuietText(cfg, j, Enqueue(j, conv, body), TextRows(conv, body));
    QuietKeeps(cfg, j, Enqueue(j, conv, body), TextRows(conv, body));
  }

  lemma PermissionsGood(cfg: Config, j: Journal, conv: ConvKey, automatic: bool, body: string)
    requires Inv(cfg, j)
    ensures var k := Enqueue(j.(permissions := j.permissions[conv := automatic]), conv, body); Inv(cfg, k) && Onward(j, k)
  {
    var k := Enqueue(j.(permissions := j.permissions[conv := automatic]), conv, body);
    QuietText(cfg, j, k, TextRows(conv, body));
    QuietKeeps(cfg, j, k, TextRows(conv, body));
  }

  lemma DropOutputOk(runs: seq<RunRow>, output: seq<OutputRow>, run: RunId)
    requires OutputOk(runs, output)
    ensures OutputOk(runs, DropOutput(output, run))
  {
    var rest := DropOutput(output, run);
    forall i | 0 <= i < |rest|
      ensures IsRun(runs, rest[i].run) && runs[rest[i].run].status.Active()
    {
      assert rest[i] in rest;
      var k :| 0 <= k < |output| && output[k] == rest[i];
    }
  }

  lemma FlushGood(cfg: Config, j: Journal, run: RunId, conv: ConvKey)
    requires Inv(cfg, j)
    ensures Inv(cfg, Flush(j, run, conv)) && Onward(j, Flush(j, run, conv))
  {
    var k := Flush(j, run, conv);
    DropOutputOk(j.runs, j.output, run);
    var rows := if Blank(Buffer(j.output, run)) then [] else TextRows(conv, Buffer(j.output, run));
    assert k.outbox == j.outbox + rows;
    QuietText(cfg, j, k, rows);
    QuietKeeps(cfg, j, k, rows);
  }

  lemma SameSessions(j: Journal, k: Journal)
    requires k.convs == j.convs && k.sessions == j.sessions
    ensures forall c :: (Stale(j, c) <==> Stale(k, c)) && Current(k, c) == Current(j, c)
  {}

  lemma ObserveCalm(j: Journal, run: RunId)
    ensures Calm(j, Observe(j, run))
  {
    SameSessions(j, Observe(j, run));
  }

  lemma ObserveGood(cfg: Config, j: Journal, run: RunId)
    requires Inv(cfg, j)
    ensures Inv(cfg, Observe(j, run)) && Onward(j, Observe(j, run))
  {
    ObserveQuiet(cfg, j, run);
    QuietKeeps(cfg, j, Observe(j, run), []);
  }

  lemma ObserveQuiet(cfg: Config, j: Journal, run: RunId)
    requires ApprovalsOk(j.runs, j.approvals, j.decisions) && InboxOk(cfg, j.inbox) && OutputOk(j.runs, j.output)
    ensures Quiet(cfg, j, Observe(j, run), [])
  {
    ObserveCalm(j, run);
    assert Observe(j, run).outbox == j.outbox + [];
  }

  /** A stop, without its notice. */
  function Stopped(j: Journal, conv: ConvKey): Journal {
    var k := j.(batches := AbandonStaged(j.batches, conv), steers := CancelConvSteers(j.steers, j.runs, conv));
    var active := FindActive(j.runs, conv);
    if active.None? then k
    else k.(runs := SetStatus(j.runs, active.value, Status.Cancelling), approvals := ConsumeRun(j.approvals, active.value))
  }

  lemma StopShape(cfg: Config, j: Journal, conv: ConvKey)
    ensures StopConversation(cfg, j, conv).journal
         == Enqueue(Stopped(j, conv), conv, cfg.text(if FindActive(j.runs, conv).None? then NothingToStop else StopRequested))
  {
    var r := FindActive(j.runs, conv);
    if r.Some? {
      var s := CancelConvSteers(j.steers, j.runs, conv);
      assert CancelRunSteers(s, r.value) == s;
    }
  }

  lemma StopCalm(j: Journal, k: Journal, conv: ConvKey)
    requires k.batches == AbandonStaged(j.batches, conv) && k.steers == CancelConvSteers(j.steers, j.runs, conv)
    requires StatusOnly(j.runs, k.runs) && |k.runs| == |j.runs|
    requires k == j.(batches := k.batches, steers := k.steers, runs := k.runs, approvals := k.approvals)
    ensures Calm(j, k)
  {
    SameSessions(j, k);
  }

  lemma CancellingParts(runs: seq<RunRow>, approvals: seq<ApprovalRow>, decisions: map<RequestId, string>, output: seq<OutputRow>, run: RunId)
    requires ApprovalsOk(runs, approvals, decisions) && OutputOk(runs, output) && IsRun(runs, run) && runs[run].status.Active()
    ensures var after := SetStatus(runs, run, Status.Cancelling);
            && ApprovalsOk(after, ConsumeRun(approvals, run), decisions)
            && ApprovalsGrow(approvals, ConsumeRun(approvals, run))
            && OutputOk(after, output) && StatusOnly(runs, after)
  {
    Approvals.CloseKeeps(runs, approvals, decisions, run, Status.Cancelling);
  }

  lemma StoppedNone(cfg: Config, j: Journal, k: Journal, conv: ConvKey)
    requires ApprovalsOk(j.runs, j.approvals, j.decisions) && OutputOk(j.runs, j.output) && InboxOk(cfg, j.inbox)
    requires k == j.(batches := AbandonStaged(j.batches, conv), steers := CancelConvSteers(j.steers, j.runs, conv))
    ensures Quiet(cfg, j, k, [])
  {
    StopCalm(j, k, conv);
    assert k.outbox == j.outbox + [];
  }

  lemma StoppedSome(cfg: Config, j: Journal, k: Journal, conv: ConvKey, run: RunId)
    requires ApprovalsOk(j.runs, j.approvals, j.decisions) && OutputOk(j.runs, j.output) && InboxOk(cfg, j.inbox)
    requires IsRun(j.runs, run) && j.runs[run].status.Active()
    requires k == j.(batches := AbandonStaged(j.batches, conv), steers := CancelConvSteers(j.steers, j.runs, conv),
                     runs := SetStatus(j.runs, run, Status.Cancelling), approvals := ConsumeRun(j.approvals, run))
    ensures Quiet(cfg, j, k, [])
  {
    CancellingParts(j.runs, j.approvals, j.decisions, j.output, run);
    StopCalm(j, k, conv);
    assert k.outbox == j.outbox + [];
  }

  lemma StoppedQuiet(cfg: Config, j: Journal, conv: ConvKey)
    requires ApprovalsOk(j.runs, j.approvals, j.decisions) && OutputOk(j.runs, j.output) && InboxOk(cfg, j.inbox)
    ensures Quiet(cfg, j, Stopped(j, conv), [])
  {
    match FindActive(j.runs, conv)
    case None => StoppedNone(cfg, j, Stopped(j, conv), conv);
    case Some(run) => StoppedSome(cfg, j, Stopped(j, conv), conv, run);
  }

  lemma StopGood(cfg: Config, j: Journal, conv: ConvKey)
    requires Inv(cfg, j)
    ensures var k := StopConversation(cfg, j, conv).journal; Inv(cfg, k) && Onward(j, k)
  {
    var k := Stopped(j, conv);
    StoppedQuiet(cfg, j, conv);
    QuietKeeps(cfg, j, k, []);
    StopShape(cfg, j, conv);
    var notice := cfg.text(if FindActive(j.runs, conv).None? then NothingToStop else StopRequested);
    SayGood(cfg, k, conv, notice);
    OnwardTransitive(j, k, Enqueue(k, conv, notice));
  }

  lemma StatusCalm(j: Journal, k: Journal, run: RunId, status: Status)
    requires IsRun(j.runs, run) && j.runs[run].status.Active() && status.Active()
    requires k == j.(runs := SetStatus(j.runs, run, status), approvals := k.approvals, decisions := k.decisions)
    ensures Calm(j, k)
  {
    SameSessions(j, k);
  }

  lemma SameCalm(j: Journal, k: Journal)
    requires k == j.(approvals := k.approvals, decisions := k.decisions)
    ensures Calm(j, k)
  {
    SameSessions(j, k);
  }

  lemma AnswerGood(cfg: Config, j: Journal, i: nat, decisions: map<RequestId, string>, option: string)
    requires Inv(cfg, j) && i < |j.approvals| && !j.approvals[i].consumed && IsRun(j.runs, j.approvals[i].run)
    requires decisions == j.decisions || decisions == j.decisions[j.approvals[i].request := option]
    ensures var k := Answer(j, j.approvals[i].request, j.approvals[i].run).(decisions := decisions);
            Inv(cfg, k) && Onward(j, k)
  {
    var k := Answer(j, j.approvals[i].request, j.approvals[i].run).(decisions := decisions);
    Approvals.AnswerKeeps(j, i, decisions, option);
    AnswerQuiet(cfg, j, k, i);
    QuietKeeps(cfg, j, k, []);
  }

  lemma AnswerQuiet(cfg: Config, j: Journal, k: Journal, i: nat)
    requires i < |j.approvals| && !j.approvals[i].consumed && IsRun(j.runs, j.approvals[i].run)
    requires k == Answer(j, j.approvals[i].request, j.approvals[i].run).(decisions := k.decisions)
    requires ApprovalsOk(j.runs, j.approvals, j.decisions) && ApprovalsOk(k.runs, k.approvals, k.decisions)
    requires InboxOk(cfg, j.inbox) && OutputOk(j.runs, j.output)
    ensures Quiet(cfg, j, k, [])
  {
    var a := j.approvals[i];
    assert Waiting(j.approvals, a.run);
    if k.runs == j.runs {
      SameCalm(j, k);
    } else {
      StatusCalm(j, k, a.run, Running);
    }
    assert k.outbox == j.outbox + [];
  }

  lemma DispatchGood(cfg: Config, j: Journal, run: RunId)
    requires Inv(cfg, j) && IsRun(j.runs, run) && j.runs[run].status.Queued?
    ensures var k := j.(runs := SetStatus(j.runs, run, Running)); Inv(cfg, k) && Onward(j, k)
  {
    var k := j.(runs := SetStatus(j.runs, run, Running));
    DispatchQuietly(cfg, j, k, run);
    QuietKeeps(cfg, j, k, []);
  }

  lemma DispatchQuietly(cfg: Config, j: Journal, k: Journal, run: RunId)
    requires IsRun(j.runs, run) && j.runs[run].status.Queued? && k == j.(runs := SetStatus(j.runs, run, Running))
    requires ApprovalsOk(j.runs, j.approvals, j.decisions) && InboxOk(cfg, j.inbox) && OutputOk(j.runs, j.output)
    ensures Quiet(cfg, j, k, [])
  {
    Approvals.DispatchKeeps(j.runs, j.approvals, j.decisions, run);
    StatusCalm(j, k, run, Running);
    assert k.outbox == j.outbox + [];
  }

  lemma SessionGood(cfg: Config, j: Journal, run: RunId, session: SessionId)
    requires Inv(cfg, j) && IsRun(j.runs, run) && j.runs[run].status.Active()
    requires ReadySession(j, j.runs[run].conv, session).Success?
    ensures var k := ReadySession(j, j.runs[run].conv, session).value; Inv(cfg, k) && Onward(j, k)
  {
    var conv := j.runs[run].conv;
    var k := ReadySession(j, conv, session).value;
    assert ActiveIn(j.runs, conv, run);
    SessionTables(j, k, conv, session);
    SessionQuiet(cfg, j, k, conv);
    QuietKeeps(cfg, j, k, []);
  }

  lemma SessionTables(j: Journal, k: Journal, conv: ConvKey, session: SessionId)
    requires ReadySession(j, conv, session) == Success(k) && !Stale(j, conv) && conv in j.convs
    ensures k == j.(convs := k.convs, sessions := k.sessions) && k.convs.Keys == j.convs.Keys && k.sessions.Keys == j.sessions.Keys
    ensures !Stale(k, conv)
    ensures forall c :: c != conv ==> (c in k.convs ==> k.convs[c] == j.convs[c]) && (c in k.sessions ==> k.sessions[c] == j.sessions[c])
  {}

  lemma SessionQuiet(cfg: Config, j: Journal, k: Journal, conv: ConvKey)
    requires k == j.(convs := k.convs, sessions := k.sessions) && k.convs.Keys == j.convs.Keys && k.sessions.Keys == j.sessions.Keys
    requires !Stale(j, conv) && !Stale(k, conv)
    requires forall c :: c != conv ==> (c in k.convs ==> k.convs[c] == j.convs[c]) && (c in k.sessions ==> k.sessions[c] == j.sessions[c])
    requires ApprovalsOk(j.runs, j.approvals, j.decisions) && InboxOk(cfg, j.inbox) && OutputOk(j.runs, j.output)
    ensures Quiet(cfg, j, k, [])
  {
    forall c
      ensures Stale(j, c) <==> Stale(k, c)
      ensures Stale(k, c) ==> Current(k, c) == Current(j, c)
    {}
    assert k.outbox == j.outbox + [];
  }

  lemma TextGood(cfg: Config, j: Journal, run: RunId, text: string)
    requires Inv(cfg, j) && IsRun(j.runs, run) && j.runs[run].status.Active()
    ensures var k := j.(output := j.output + [OutputRow(run, text)]); Inv(cfg, k) && Onward(j, k)
  {
    var k := j.(output := j.output + [OutputRow(run, text)]);
    assert k.outbox == j.outbox + [];
    QuietText(cfg, j, k, []);
    QuietKeeps(cfg, j, k, []);
  }

  lemma AskGood(cfg: Config, j: Journal, row: ApprovalRow)
    requires Inv(cfg, j) && IsRun(j.runs, row.run) && j.runs[row.run].status.Active() && !j.runs[row.run].status.Cancelling?
    requires FindApproval(j.approvals, row.request).None? && !row.consumed
    ensures var k := j.(approvals := j.approvals + [row], runs := SetStatus(j.runs, row.run, WaitingApproval)); Inv(cfg, k) && Onward(j, k)
  {
    var k := j.(approvals := j.approvals + [row], runs := SetStatus(j.runs, row.run, WaitingApproval));
    Approvals.AskKeeps(j.runs, j.approvals, j.decisions, row);
    AskQuiet(cfg, j, k, row);
    QuietKeeps(cfg, j, k, []);
  }

  lemma AskQuiet(cfg: Config, j: Journal, k: Journal, row: ApprovalRow)
    requires LifeOk(cfg, j) && OutputOk(j.runs, j.output) && IsRun(j.runs, row.run)
    requires j.runs[row.run].status.Active() && !j.runs[row.run].status.Cancelling?
    requires k == j.(approvals := j.approvals + [row], runs := SetStatus(j.runs, row.run, WaitingApproval))
    requires ApprovalsOk(k.runs, k.approvals, k.decisions)
    ensures Quiet(cfg, j, k, [])
  {
    SameSessions(j, k);
    assert k.outbox == j.outbox + [];
  }

  lemma TakeGood(cfg: Config, j: Journal, run: RunId, e: EventId)
    requires Inv(cfg, j) && IsRun(j.runs, run) && j.runs[run].status.Active()
    ensures var k := j.(batches := SendBatch(j.batches, e, run), steers := DeliverSteer(j.steers, e, run)); Inv(cfg, k) && Onward(j, k)
  {
    var k := j.(batches := SendBatch(j.batches, e, run), steers := DeliverSteer(j.steers, e, run));
    TakeCalm(j, k, run, e);
    TakeQuiet(cfg, j, k);
    QuietKeeps(cfg, j, k, []);
  }

  lemma TakeQuiet(cfg: Config, j: Journal, k: Journal)
    requires k == j.(batches := k.batches, steers := k.steers) && SteersCalm(j, k) && BatchesCalm(j, k)
    requires ApprovalsOk(j.runs, j.approvals, j.decisions) && InboxOk(cfg, j.inbox) && OutputOk(j.runs, j.output)
    ensures Quiet(cfg, j, k, [])
  {
    SameSessions(j, k);
    assert k.outbox == j.outbox + [];
  }

  /** A follow-up is taken together with its batch: a staged batch sits with its follow-up's run. */
  lemma TakeCalm(j: Journal, k: Journal, run: RunId, e: EventId)
    requires IsRun(j.runs, run) && j.runs[run].status.Active()
    requires StagedOk(j.steers, j.batches) && SteersOk(j.runs, j.inputs, j.steers)
    requires k == j.(batches := SendBatch(j.batches, e, run), steers := DeliverSteer(j.steers, e, run))
    ensures SteersCalm(j, k) && BatchesCalm(j, k)
  {
    if e in j.batches && j.batches[e].state.Staged? && j.batches[e].run != run {
      var i :| 0 <= i < |j.steers| && j.steers[i].event == e && j.steers[i].run == j.batches[e].run && !j.steers[i].status.Taken?;
      assert forall m :: 0 <= m < |j.steers| && j.steers[m].event == e ==> m == i;
    }
  }

  // ---------------------------------------------------------------- messages

  lemma CommandGood(cfg: Config, j: Journal, conv: ConvKey, command: BridgeCommand, now: int)
    requires Inv(cfg, j)
    ensures var k := RunCommand(cfg, j, conv, command, now).journal; Inv(cfg, k) && Onward(j, k)
  {
    match command
    case CmdStatus =>
      var last := LastRun(j.runs, conv);
      SayGood(cfg, j, conv, cfg.text(if last.Some? then RunStatus(last.value, j.runs[last.value].status) else NoRun));
    case CmdStop => StopGood(cfg, j, conv);
    case CmdAllowThread => PermissionsGood(cfg, j, conv, true, cfg.text(ThreadAllowed));
    case CmdManual => PermissionsGood(cfg, j, conv, false, cfg.text(ManualRestored));
    case CmdApprove(request, option) => ApproveGood(cfg, j, conv, request, option, now);
    case CmdUnknown => SayGood(cfg, j, conv, cfg.text(Usage));
  }

  lemma ApproveGood(cfg: Config, j: Journal, conv: ConvKey, request: RequestId, option: string, now: int)
    requires Inv(cfg, j)
    ensures var k := ApproveCommand(cfg, j, conv, request, option, now).journal; Inv(cfg, k) && Onward(j, k)
  {
    if !Answerable(j, conv, request, now) {
      SayGood(cfg, j, conv, cfg.text(ApprovalUnavailable));
    } else {
      AcceptedGood(cfg, j, conv, FindApproval(j.approvals, request).value, option);
      SayGood(cfg, j, conv, cfg.text(NotOffered));
    }
  }

  lemma AcceptedGood(cfg: Config, j: Journal, conv: ConvKey, i: nat, option: string)
    requires Inv(cfg, j) && i < |j.approvals| && !j.approvals[i].consumed && IsRun(j.runs, j.approvals[i].run)
    ensures var k := Enqueue(Answer(j, j.approvals[i].request, j.approvals[i].run), conv, cfg.text(ApprovalAccepted));
            Inv(cfg, k) && Onward(j, k)
  {
    var k := Answer(j, j.approvals[i].request, j.approvals[i].run);
    AnswerGood(cfg, j, i, j.decisions, option);
    assert k.(decisions := j.decisions) == k;
    SayGood(cfg, k, conv, cfg.text(ApprovalAccepted));
    OnwardTransitive(j, k, Enqueue(k, conv, cfg.text(ApprovalAccepted)));
  }

  lemma KnownArrived(cfg: Config, j: Journal, conv: ConvKey, e: EventId)
    requires LifeOk(cfg, j) && Known(j, conv, e)
    ensures (cfg.home(e), e) in j.inbox
  {
    if r: RunId :| r in j.inputs && IsRun(j.runs, r) && j.inputs[r] == e && j.runs[r].conv == conv {
      assert (j.runs[r].conv.room, e) in j.inbox;
    } else {
      var i :| 0 <= i < |j.steers| && IsRun(j.runs, j.steers[i].run) && j.steers[i].event == e && j.runs[j.steers[i].run].conv == conv;
      assert (j.runs[j.steers[i].run].conv.room, e) in j.inbox;
    }
  }

  /** A message that has not arrived has no eyes yet. */
  lemma NotYetSeen(cfg: Config, j: Journal, e: EventId)
    requires LifeOk(cfg, j) && ReactionsOk(j) && (cfg.home(e), e) !in j.inbox
    ensures Reactions.Unreported(j.outbox, Reaction(e, Eyes))
  {
    forall t | Reacts(j.outbox, t)
      ensures !SameReport(j.outbox[t].reaction.value, Reaction(e, Eyes))
    {
      KnownArrived(cfg, j, j.outbox[t].conv, j.outbox[t].reaction.value.event);
    }
  }

  /** The bridge looks at a message it has just recorded. */
  lemma EyesKeep(cfg: Config, j: Journal, m: Journal, conv: ConvKey, e: EventId)
    requires LifeOk(cfg, j) && ReactionsOk(j) && (cfg.home(e), e) !in j.inbox
    requires Grows(j, m) && InputsOk(m.runs, m.inputs) && m.outbox == j.outbox && m.cleanup == j.cleanup
    requires Known(m, conv, e)
    ensures ReactionsOk(EnqueueReaction(m, conv, e, Eyes))
  {
    NotYetSeen(cfg, j, e);
    assert m.outbox == j.outbox + [];
    Reactions.TextKeeps(j, m, []);
    Reactions.ReactKeeps(m, ReactionRow(conv, e, Eyes));
  }

  /** An accepted message: its run or follow-up, its batch and its eyes, on top of an unchanged journal. */
  ghost predicate Accepts(cfg: Config, j: Journal, k: Journal, conv: ConvKey, run: RunId, e: EventId, p: Prepared, steering: bool) {
    && Stages(j, k, conv, run, e, p, steering)
    && LifeOk(cfg, k) && Grows(j, k)
    && (cfg.home(e), e) !in j.inbox && Known(k, conv, e)
    && k.outbox == j.outbox + [ReactionRow(conv, e, Eyes)] && k.cleanup == j.cleanup
    && k.approvals == j.approvals && ApprovalsOk(k.runs, k.approvals, k.decisions)
    && OutputOk(k.runs, k.output)
  }

  lemma AcceptReactions(cfg: Config, j: Journal, k: Journal, conv: ConvKey, e: EventId)
    requires LifeOk(cfg, j) && ReactionsOk(j) && (cfg.home(e), e) !in j.inbox
    requires Grows(j, k) && InputsOk(k.runs, k.inputs) && Known(k, conv, e)
    requires k.outbox == j.outbox + [ReactionRow(conv, e, Eyes)] && k.cleanup == j.cleanup
    ensures ReactionsOk(k) && OutboxGrows(j.outbox, k.outbox)
  {
    var m := k.(outbox := j.outbox);
    assert Known(m, conv, e);
    forall i | 0 <= i < |j.steers| && IsRun(j.runs, j.steers[i].run) ensures SteerGrows(j, m, i) {
      assert SteerGrows(j, k, i);
    }
    EyesKeep(cfg, j, m, conv, e);
    assert k == EnqueueReaction(m, conv, e, Eyes);
  }

  lemma AcceptGood(cfg: Config, j: Journal, k: Journal, conv: ConvKey, run: RunId, e: EventId, p: Prepared, steering: bool)
    requires Inv(cfg, j) && Accepts(cfg, j, k, conv, run, e, p, steering)
    ensures Inv(cfg, k) && Onward(j, k)
  {
    StageKeeps(j, k, conv, run, e, p, steering);
    AcceptReactions(cfg, j, k, conv, e);
    SameApprovals(j.approvals);
  }

  lemma SameApprovals(approvals: seq<ApprovalRow>)
    ensures ApprovalsGrow(approvals, approvals)
  {}

  lemma PreparedShape(cfg: Config, j: Journal, event: Incoming, history: seq<Incoming>)
    requires event.room in cfg.rooms && PrepareContext(cfg, j, event, history).Success?
    ensures var p := PrepareContext(cfg, j, event, history).value;
            var conv := ConversationOf(cfg, event);
            && p.events != []
            && p.events[|p.events| - 1] == Said(event.event)
            && (forall m :: m in p.events[..|p.events| - 1] ==> m !in Seen(j, conv) && m != Said(event.event))
            && p.initial == !Initialized(j, conv)
  {
    var conv := ConversationOf(cfg, event);
    var g := Gather(cfg, cfg.rooms[event.room], event, history, Seen(j, conv)).value;
    assert (g.events + [Said(event.event)])[..|g.events|] == g.events;
  }

  /** Staging on top of the registered journal, in terms of the journal before the message. */
  lemma StageShape(cfg: Config, j: Journal, j2: Journal, event: Incoming, room: RoomSnapshot, conv: ConvKey, run: RunId, p: Prepared, steering: bool)
    requires BatchRowsOk(j) && event.room in cfg.rooms && conv == ConversationOf(cfg, event)
    requires (event.room, event.event) !in j.inbox
    requires j2.convs == Register(cfg, j, event, room, conv).convs && j2.sessions == j.sessions && j2.batches == j.batches && j2.nextBatch == j.nextBatch
    requires InboxOk(cfg, j.inbox) && event.room == cfg.home(event.event)
    ensures event.event !in j.batches
    ensures Stage(j2, conv, run, event.event, p, steering).Success?
    ensures var k := Stage(j2, conv, run, event.event, p, steering).value;
      && k.batches == (if Stale(j, conv) then WithoutConv(j.batches, conv) else j.batches)
         [event.event := Batch(j.nextBatch, conv, run, p.events, p.initial, if steering then Staged else InFlight, p.delivery)]
      && k.nextBatch == j.nextBatch + 1
      && k.sessions.Keys == j.sessions.Keys + {conv}
      && (forall c :: Stale(k, c) <==> Stale(j, c) && c != conv)
      && (forall c :: Stale(k, c) ==> Current(k, c) == Current(j, c))
      && k == j2.(batches := k.batches, nextBatch := k.nextBatch, sessions := k.sessions)
      && j.convs.Keys + {conv} <= k.convs.Keys
  {
    assert Stale(j2, conv) <==> Stale(j, conv);
    var k := Stage(j2, conv, run, event.event, p, steering).value;
    forall c
      ensures Stale(k, c) <==> Stale(j, c) && c != conv
      ensures Stale(k, c) ==> Current(k, c) == Current(j, c)
    {}
  }

  lemma FollowUpLife(cfg: Config, j: Journal, j1: Journal, k: Journal, event: EventId, conv: ConvKey, run: RunId, prompt: string)
    requires LifeOk(cfg, j) && LifeOk(cfg, j1) && (conv.room, event) in j1.inbox && (conv.room, event) !in j.inbox && cfg.home(event) == conv.room
    requires j1.runs == j.runs && j1.inputs == j.inputs && j1.steers == j.steers
    requires IsRun(j.runs, run) && j.runs[run].conv == conv
    requires k.runs == j.runs && k.inputs == j.inputs && k.inbox == j1.inbox && k.convs == j1.convs
    requires k.steers == j.steers + [SteerRow(event, run, prompt, Pending)]
    ensures LifeOk(cfg, k) && Grows(j, k) && Known(k, conv, event)
  {
    FollowUpKeeps(cfg, j, j1, event, conv, run, prompt);
    var i := |j.steers|;
    assert k.steers[i].event == event && IsRun(k.runs, k.steers[i].run) && k.runs[k.steers[i].run].conv == conv;
    forall i | 0 <= i < |j.steers| && IsRun(j.runs, j.steers[i].run) ensures SteerGrows(j, k, i) {}
  }

  lemma OpenRunLife(cfg: Config, j: Journal, j1: Journal, k: Journal, event: EventId, conv: ConvKey, prompt: string)
    requires LifeOk(cfg, j) && LifeOk(cfg, j1) && (conv.room, event) in j1.inbox && (conv.room, event) !in j.inbox && cfg.home(event) == conv.room
    requires j1.runs == j.runs && j1.inputs == j.inputs && j1.steers == j.steers && conv in j1.convs
    requires FindActive(j.runs, conv).None?
    requires k.runs == j.runs + [RunRow(conv, prompt, Queued)] && k.inputs == j.inputs[|j.runs| := event]
    requires k.inbox == j1.inbox && k.convs == j1.convs && k.steers == j.steers
    ensures LifeOk(cfg, k) && Grows(j, k) && Known(k, conv, event)
  {
    OpenRunKeeps(cfg, j, j1, event, conv, prompt);
    assert |j.runs| in k.inputs && k.inputs[|j.runs|] == event && k.runs[|j.runs|].conv == conv;
    forall i | 0 <= i < |j.steers| && IsRun(j.runs, j.steers[i].run) ensures SteerGrows(j, k, i) {}
  }

  /** A follow-up of the active run. */
  lemma FollowUpShape(cfg: Config, j: Journal, j1: Journal, event: Incoming, room: RoomSnapshot, conv: ConvKey, run: RunId, prompt: string, p: Prepared)
    requires event.room in cfg.rooms && conv == ConversationOf(cfg, event) && (event.room, event.event) !in j.inbox
    requires BatchRowsOk(j) && InboxOk(cfg, j.inbox) && event.room == cfg.home(event.event)
    requires j1 == Register(cfg, j, event, room, conv) && IsRun(j.runs, run) && !HasSteer(j.steers, event.event)
    ensures FollowUp(cfg, j1, event, conv, run, prompt, Some(p)).Success?
    ensures var s := FollowUp(cfg, j1, event, conv, run, prompt, Some(p)).value;
      && s.journal == EnqueueReaction(Stage(j1.(steers := j.steers + [SteerRow(event.event, run, prompt, Pending)]), conv, run, event.event, p, true).value,
                                      conv, event.event, Eyes)
      && s.value == if j.runs[run].status.Cancelling? then [] else [Steer(run, event.event, prompt)]
  {
    StageShape(cfg, j, j1.(steers := j.steers + [SteerRow(event.event, run, prompt, Pending)]), event, room, conv, run, p, true);
  }

  lemma FollowUpGood(cfg: Config, j: Journal, j1: Journal, event: Incoming, room: RoomSnapshot, conv: ConvKey, run: RunId, prompt: string, p: Prepared, history: seq<Incoming>)
    requires Inv(cfg, j) && event.room in cfg.rooms && event.room == cfg.home(event.event)
    requires conv == ConversationOf(cfg, event) && (event.room, event.event) !in j.inbox
    requires j1 == Register(cfg, j, event, room, conv) && ActiveIn(j.runs, conv, run)
    requires PrepareContext(cfg, j, event, history) == Success(p)
    ensures FollowUp(cfg, j1, event, conv, run, prompt, Some(p)).Success?
    ensures var k := FollowUp(cfg, j1, event, conv, run, prompt, Some(p)).value.journal; Inv(cfg, k) && Onward(j, k)
  {
    RegisterKeeps(cfg, j, event, room, conv);
    FollowUpKeeps(cfg, j, j1, event.event, conv, run, prompt);
    PreparedShape(cfg, j, event, history);
    FollowUpShape(cfg, j, j1, event, room, conv, run, prompt, p);
    var j2 := j1.(steers := j.steers + [SteerRow(event.event, run, prompt, Pending)]);
    StageShape(cfg, j, j2, event, room, conv, run, p, true);
    var k := FollowUp(cfg, j1, event, conv, run, prompt, Some(p)).value.journal;
    FollowUpLife(cfg, j, j1, k, event.event, conv, run, prompt);
    FollowUpAccepts(cfg, j, j2, k, conv, run, event.event, p);
    AcceptGood(cfg, j, k, conv, run, event.event, p, true);
  }

  lemma FollowUpAccepts(cfg: Config, j: Journal, j2: Journal, k: Journal, conv: ConvKey, run: RunId, e: EventId, p: Prepared)
    requires ApprovalsOk(j.runs, j.approvals, j.decisions) && OutputOk(j.runs, j.output)
    requires LifeOk(cfg, k) && Grows(j, k) && Known(k, conv, e) && (cfg.home(e), e) !in j.inbox && (conv.room, e) in k.inbox
    requires Stage(j2, conv, run, e, p, true).Success? && k == EnqueueReaction(Stage(j2, conv, run, e, p, true).value, conv, e, Eyes)
    requires exists prompt :: j2.steers == j.steers + [SteerRow(e, run, prompt, Pending)]
    requires j2 == j.(inbox := j2.inbox, convs := j2.convs, steers := j2.steers) && j.inbox <= j2.inbox
    requires ActiveIn(j.runs, conv, run) && e !in j.batches
    requires p.events != [] && (forall m :: m in p.events[..|p.events| - 1] ==> m !in Seen(j, conv)) && p.initial == !Initialized(j, conv)
    requires k.batches == (if Stale(j, conv) then WithoutConv(j.batches, conv) else j.batches)
         [e := Batch(j.nextBatch, conv, run, p.events, p.initial, Staged, p.delivery)]
    requires k.nextBatch == j.nextBatch + 1 && k.sessions.Keys == j.sessions.Keys + {conv} && j.convs.Keys + {conv} <= k.convs.Keys
    requires forall c :: Stale(k, c) <==> Stale(j, c) && c != conv
    requires forall c :: Stale(k, c) ==> Current(k, c) == Current(j, c)
    ensures Accepts(cfg, j, k, conv, run, e, p, true)
  {}

  lemma OpenRunShape(cfg: Config, j: Journal, j1: Journal, event: Incoming, room: RoomSnapshot, conv: ConvKey, prompt: string, p: Prepared)
    requires event.room in cfg.rooms && conv == ConversationOf(cfg, event) && (event.room, event.event) !in j.inbox
    requires BatchRowsOk(j) && InboxOk(cfg, j.inbox) && event.room == cfg.home(event.event)
    requires j1 == Register(cfg, j, event, room, conv) && FindActive(j.runs, conv).None?
    requires cfg.maxRuns == 0 || CountActive(j.runs) < cfg.maxRuns
    ensures OpenRun(cfg, j1, event, conv, prompt, Some(p)).Success?
    ensures var s := OpenRun(cfg, j1, event, conv, prompt, Some(p)).value;
      && s.journal == EnqueueReaction(
           Stage(j1.(runs := j.runs + [RunRow(conv, prompt, Queued)], inputs := j.inputs[|j.runs| := event.event]), conv, |j.runs|, event.event, p, false).value,
           conv, event.event, Eyes)
      && s.value == [Start(|j.runs|)]
  {
    StageShape(cfg, j, j1.(runs := j.runs + [RunRow(conv, prompt, Queued)], inputs := j.inputs[|j.runs| := event.event]),
               event, room, conv, |j.runs|, p, false);
  }

  lemma AppendedRun(runs: seq<RunRow>, row: RunRow, approvals: seq<ApprovalRow>, decisions: map<RequestId, string>, output: seq<OutputRow>)
    requires ApprovalsOk(runs, approvals, decisions) && OutputOk(runs, output) && row.status.Queued?
    ensures StatusOnly(runs, runs + [row]) && ActiveIn(runs + [row], row.conv, |runs|)
    ensures forall c, r :: ActiveIn(runs + [row], c, r) && c != row.conv ==> ActiveIn(runs, c, r)
    ensures ApprovalsOk(runs + [row], approvals, decisions) && OutputOk(runs + [row], output)
  {
    Approvals.AddRunKeeps(runs, approvals, decisions, row);
  }

  lemma OpenRunAccepts(cfg: Config, j: Journal, j2: Journal, k: Journal, conv: ConvKey, e: EventId, prompt: string, p: Prepared)
    requires ApprovalsOk(j.runs, j.approvals, j.decisions) && OutputOk(j.runs, j.output)
    requires LifeOk(cfg, k) && Grows(j, k) && Known(k, conv, e) && (cfg.home(e), e) !in j.inbox && (conv.room, e) in k.inbox
    requires Stage(j2, conv, |j.runs|, e, p, false).Success? && k == EnqueueReaction(Stage(j2, conv, |j.runs|, e, p, false).value, conv, e, Eyes)
    requires j2.runs == j.runs + [RunRow(conv, prompt, Queued)]
    requires j2 == j.(inbox := j2.inbox, convs := j2.convs, runs := j2.runs, inputs := j2.inputs) && j.inbox <= j2.inbox
    requires e !in j.batches
    requires p.events != [] && (forall m :: m in p.events[..|p.events| - 1] ==> m !in Seen(j, conv)) && p.initial == !Initialized(j, conv)
    requires k.batches == (if Stale(j, conv) then WithoutConv(j.batches, conv) else j.batches)
         [e := Batch(j.nextBatch, conv, |j.runs|, p.events, p.initial, InFlight, p.delivery)]
    requires k.nextBatch == j.nextBatch + 1 && k.sessions.Keys == j.sessions.Keys + {conv} && j.convs.Keys + {conv} <= k.convs.Keys
    requires forall c :: Stale(k, c) <==> Stale(j, c) && c != conv
    requires forall c :: Stale(k, c) ==> Current(k, c) == Current(j, c)
    ensures Accepts(cfg, j, k, conv, |j.runs|, e, p, false)
  {
    AppendedRun(j.runs, RunRow(conv, prompt, Queued), j.approvals, j.decisions, j.output);
  }

  lemma OpenRunGood(cfg: Config, j: Journal, j1: Journal, event: Incoming, room: RoomSnapshot, conv: ConvKey, prompt: string, p: Prepared, history: seq<Incoming>)
    requires Inv(cfg, j) && event.room in cfg.rooms && event.room == cfg.home(event.event)
    requires conv == ConversationOf(cfg, event) && (event.room, event.event) !in j.inbox
    requires j1 == Register(cfg, j, event, room, conv) && FindActive(j.runs, conv).None?
    requires cfg.maxRuns == 0 || CountActive(j.runs) < cfg.maxRuns
    requires PrepareContext(cfg, j, event, history) == Success(p)
    ensures OpenRun(cfg, j1, event, conv, prompt, Some(p)).Success?
    ensures var k := OpenRun(cfg, j1, event, conv, prompt, Some(p)).value.journal; Inv(cfg, k) && Onward(j, k)
  {
    RegisterKeeps(cfg, j, event, room, conv);
    PreparedShape(cfg, j, event, history);
    OpenRunShape(cfg, j, j1, event, room, conv, prompt, p);
    var j2 := j1.(runs := j.runs + [RunRow(conv, prompt, Queued)], inputs := j.inputs[|j.runs| := event.event]);
    StageShape(cfg, j, j2, event, room, conv, |j.runs|, p, false);
    var k := OpenRun(cfg, j1, event, conv, prompt, Some(p)).value.journal;
    OpenRunLife(cfg, j, j1, k, event.event, conv, prompt);
    OpenRunAccepts(cfg, j, j2, k, conv, event.event, prompt, p);
    AcceptGood(cfg, j, k, conv, |j.runs|, event.event, p, false);
  }

  lemma CapacityGood(cfg: Config, j: Journal, j1: Journal, event: Incoming, room: RoomSnapshot, conv: ConvKey)
    requires Inv(cfg, j) && event.room in cfg.rooms && event.room == cfg.home(event.event)
    requires j1 == Register(cfg, j, event, room, conv)
    ensures Inv(cfg, Enqueue(j1, conv, cfg.text(AtCapacity))) && Onward(j, Enqueue(j1, conv, cfg.text(AtCapacity)))
  {
    RegisterGood(cfg, j, event, room, conv);
    SayGood(cfg, j1, conv, cfg.text(AtCapacity));
    OnwardTransitive(j, j1, Enqueue(j1, conv, cfg.text(AtCapacity)));
  }

  lemma RegisteredCommandGood(cfg: Config, j: Journal, j1: Journal, event: Incoming, room: RoomSnapshot, conv: ConvKey, command: BridgeCommand, now: int)
    requires Inv(cfg, j) && event.room in cfg.rooms && event.room == cfg.home(event.event)
    requires j1 == Register(cfg, j, event, room, conv)
    ensures var k := RunCommand(cfg, j1, conv, command, now).journal; Inv(cfg, k) && Onward(j, k)
  {
    RegisterGood(cfg, j, event, room, conv);
    CommandGood(cfg, j1, conv, command, now);
    OnwardTransitive(j, j1, RunCommand(cfg, j1, conv, command, now).journal);
  }

  lemma OnwardReflexive(j: Journal)
    ensures Onward(j, j)
  {}

  /** A message handled with its context never fails against a unique index, and keeps every invariant. */
  lemma HandleGood(cfg: Config, j: Journal, event: Incoming, room: RoomSnapshot, history: seq<Incoming>, now: int)
    requires Inv(cfg, j) && event.room == cfg.home(event.event)
    ensures var r := Handle(cfg, j, event, room, Some(history), now);
            && (r.Failure? ==> r.error != Conflict)
            && (r.Success? ==> Inv(cfg, r.value.journal) && Onward(j, r.value.journal))
  {
    var admission := Admit(cfg, j, event, room);
    if admission.Admitted? && (event.room, event.event) !in j.inbox {
      HandleAdmitted(cfg, j, event, room, history, now, admission.conv);
    } else {
      OnwardReflexive(j);
      PrepareNeverConflicts(cfg, j, event, history);
    }
  }

  lemma {:induction false} GatherNeverConflicts(cfg: Config, policy: RoomPolicy, request: Incoming, history: seq<Incoming>, seen: set<Mark>)
    ensures Gather(cfg, policy, request, history, seen).Failure? ==> Gather(cfg, policy, request, history, seen).error != Conflict
  {
    if history != [] {
      GatherNeverConflicts(cfg, policy, request, history[1..], seen);
      GatherNeverConflicts(cfg, policy, request, history[1..], seen + {MarkOf(history[0])});
    }
  }

  lemma PrepareNeverConflicts(cfg: Config, j: Journal, event: Incoming, history: seq<Incoming>)
    ensures event.room in cfg.rooms && PrepareContext(cfg, j, event, history).Failure? ==> PrepareContext(cfg, j, event, history).error != Conflict
  {
    if event.room in cfg.rooms {
      GatherNeverConflicts(cfg, cfg.rooms[event.room], event, history, Seen(j, ConversationOf(cfg, event)));
    }
  }

  lemma HandleAdmitted(cfg: Config, j: Journal, event: Incoming, room: RoomSnapshot, history: seq<Incoming>, now: int, conv: ConvKey)
    requires Inv(cfg, j) && event.room == cfg.home(event.event)
    requires Admit(cfg, j, event, room) == Admitted(conv) && (event.room, event.event) !in j.inbox
    ensures var r := Handle(cfg, j, event, room, Some(history), now);
            && (r.Failure? ==> r.error != Conflict)
            && (r.Success? ==> Inv(cfg, r.value.journal) && Onward(j, r.value.journal))
  {
    PrepareNeverConflicts(cfg, j, event, history);
    if IsCommand(event.body) {
      RegisteredCommandGood(cfg, j, Register(cfg, j, event, room, conv), event, room, conv, ParseCommand(event.body), now);
    } else if PrepareContext(cfg, j, event, history).Success? {
      HandleWork(cfg, j, Register(cfg, j, event, room, conv), event, room, history, conv, PrepareContext(cfg, j, event, history).value);
    }
  }

  /** A message that is no command, once its context has been prepared. */
  lemma HandleWork(cfg: Config, j: Journal, j1: Journal, event: Incoming, room: RoomSnapshot, history: seq<Incoming>, conv: ConvKey, p: Prepared)
    requires Inv(cfg, j) && event.room == cfg.home(event.event)
    requires event.room in cfg.rooms && conv == ConversationOf(cfg, event) && (event.room, event.event) !in j.inbox
    requires j1 == Register(cfg, j, event, room, conv) && PrepareContext(cfg, j, event, history) == Success(p)
    ensures var active := FindActive(j1.runs, conv);
            var r := if Blank(event.body) then Success(Step(j1, []))
                     else if active.Some? then FollowUp(cfg, j1, event, conv, active.value, p.prompt, Some(p))
                     else OpenRun(cfg, j1, event, conv, p.prompt, Some(p));
            && (r.Failure? ==> r.error != Conflict)
            && (r.Success? ==> Inv(cfg, r.value.journal) && Onward(j, r.value.journal))
  {
    var active := FindActive(j.runs, conv);
    if Blank(event.body) {
      RegisterGood(cfg, j, event, room, conv);
    } else if active.Some? {
      FollowUpGood(cfg, j, j1, event, room, conv, active.value, p.prompt, p, history);
    } else if cfg.maxRuns != 0 && CountActive(j.runs) >= cfg.maxRuns {
      CapacityGood(cfg, j, j1, event, room, conv);
    } else {
      OpenRunGood(cfg, j, j1, event, room, conv, p.prompt, p, history);
    }
  }
}
