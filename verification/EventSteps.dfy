/**
 Worker events, timers, deliveries and restarts keep every invariant. The hardest is the end of a run: its follow-ups are
 dropped or left for a continuation, its batches are told or fall back, its text is flushed, its requests are consumed
 and its messages get their terminal reaction. A continuation takes all leftovers of its conversation at once, together
 with the batches staged for them, under one new run.
 */
module EventSteps {
  import opened Model
  import opened Text
  import opened Journal
  import opened Rules
  import opened Invariants
  import opened Lifecycle
  import opened Ledger
  import opened Steps
  import Approvals
  import Reactions

  // ---------------------------------------------------------------- the end of a run

  /** A finished run's text leaves the buffer with it. */
  lemma FinishOutput(j: Journal, run: RunId, status: Status)
    requires OutputOk(j.runs, j.output) && IsRun(j.runs, run)
    ensures OutputOk(SetStatus(j.runs, run, status), DropOutput(j.output, run))
  {
    var rest := DropOutput(j.output, run);
    forall i | 0 <= i < |rest|
      ensures IsRun(j.runs, rest[i].run) && rest[i].run != run && j.runs[rest[i].run].status.Active()
    {
      assert rest[i] in rest;
      var k :| 0 <= k < |j.output| && j.output[k] == rest[i];
    }
  }

  lemma {:induction false} TakenDistinct(runs: seq<RunRow>, inputs: map<RunId, EventId>, steers: seq<SteerRow>, run: RunId, except: EventId)
    requires forall i, k :: 0 <= i < |steers| && 0 <= k < |steers| && steers[i].event == steers[k].event ==> i == k
    ensures forall i, k :: 0 <= i < k < |TakenBy(steers, run, except)| ==> TakenBy(steers, run, except)[i] != TakenBy(steers, run, except)[k]
  {
    if steers != [] {
      var rest := steers[..|steers| - 1];
      TakenDistinct(runs, inputs, rest, run, except);
      var taken := TakenBy(rest, run, except);
      forall i | 0 <= i < |taken|
        ensures taken[i] != steers[|steers| - 1].event
      {
        assert taken[i] in taken;
        var m :| 0 <= m < |rest| && rest[m].event == taken[i];
        assert steers[m] == rest[m];
      }
    }
  }

  /** The messages a run reports on when it ends: its input, then the follow-ups it took. */
  function Reports(j: Journal, run: RunId): seq<EventId>
    requires run in j.inputs
  {
    [j.inputs[run]] + TakenBy(j.steers, run, j.inputs[run])
  }

  lemma OneOwner(j: Journal, a: RunId, b: RunId, e: EventId)
    requires InputsOk(j.runs, j.inputs) && SteersOk(j.runs, j.inputs, j.steers)
    requires Owns(j, a, e) && Owns(j, b, e)
    ensures a == b
  {}

  /** An active run has not reported on anything it owns. */
  lemma NotYetReported(j: Journal, run: RunId, e: EventId, emoji: Emoji)
    requires InputsOk(j.runs, j.inputs) && SteersOk(j.runs, j.inputs, j.steers) && ReactionsGrounded(j)
    requires Owns(j, run, e) && j.runs[run].status.Active() && emoji.Terminal()
    ensures Reactions.Unreported(j.outbox, Reaction(e, emoji))
  {
    forall t | Reacts(j.outbox, t)
      ensures !SameReport(j.outbox[t].reaction.value, Reaction(e, emoji))
    {
      if SameReport(j.outbox[t].reaction.value, Reaction(e, emoji)) {
        var r :| Owns(j, r, e) && !j.runs[r].status.Active();
        OneOwner(j, r, run, e);
        assert false;
      }
    }
  }

  /** The journal at the end of a run, before it is reported on. */
  function Ended(j: Journal, run: RunId, status: Status): Journal
    requires IsRun(j.runs, run)
  {
    Flush(j.(batches := SettleBatches(j.batches, run, status)), run, j.runs[run].conv)
      .(runs := SetStatus(j.runs, run, status), approvals := ConsumeRun(j.approvals, run))
  }

  lemma FinishShape(j: Journal, run: RunId, status: Status)
    requires IsRun(j.runs, run) && run in j.inputs && !status.Active()
    ensures FinishRun(j, run, j.runs[run].conv, status)
         == Success(Ended(j, run, status).(outbox := Ended(j, run, status).outbox + ReactionRows(j.runs[run].conv, Reports(j, run), EmojiFor(status))))
  {
    var conv := j.runs[run].conv;
    var taken := TakenBy(j.steers, run, j.inputs[run]);
    var before := Ended(j, run, status).outbox;
    assert before + [ReactionRow(conv, j.inputs[run], EmojiFor(status))] + ReactionRows(conv, taken, EmojiFor(status))
        == before + ReactionRows(conv, Reports(j, run), EmojiFor(status));
  }

  lemma EndedLife(cfg: Config, j: Journal, k: Journal, run: RunId, status: Status)
    requires LifeOk(cfg, j) && IsRun(j.runs, run) && j.runs[run].status.Active() && !status.Active()
    requires k.runs == SetStatus(j.runs, run, status)
    requires k.inputs == j.inputs && k.steers == j.steers && k.inbox == j.inbox && k.convs == j.convs
    ensures LifeOk(cfg, k) && Grows(j, k)
  {
    StatusOneActive(j.runs, run, status);
    forall i | 0 <= i < |j.steers| && IsRun(j.runs, j.steers[i].run) ensures SteerGrows(j, k, i) {}
  }

  lemma EndedGood(cfg: Config, j: Journal, run: RunId, status: Status)
    requires Inv(cfg, j) && IsRun(j.runs, run) && j.runs[run].status.Active() && !status.Active()
    ensures Inv(cfg, Ended(j, run, status)) && Onward(j, Ended(j, run, status))
  {
    var k := Ended(j, run, status);
    var rows := EndedTables(j, k, run, status);
    EndedLife(cfg, j, k, run, status);
    FinishKeeps(j, k, run, status);
    FinishOutput(j, run, status);
    Approvals.CloseKeeps(j.runs, j.approvals, j.decisions, run, status);
    Reactions.TextKeeps(j, k, rows);
  }

  lemma EndedTables(j: Journal, k: Journal, run: RunId, status: Status) returns (rows: seq<OutRow>)
    requires IsRun(j.runs, run) && k == Ended(j, run, status)
    ensures TextOnly(rows) && k == j.(outbox := j.outbox + rows, output := DropOutput(j.output, run), runs := SetStatus(j.runs, run, status),
                                      batches := SettleBatches(j.batches, run, status), approvals := ConsumeRun(j.approvals, run))
    ensures OutboxGrows(j.outbox, k.outbox) && ApprovalsGrow(j.approvals, k.approvals)
  {
    var text := Buffer(j.output, run);
    rows := if Blank(text) then [] else TextRows(j.runs[run].conv, text);
    assert k.outbox == j.outbox + rows;
  }

  lemma ReportsReportable(cfg: Config, j: Journal, k: Journal, run: RunId, status: Status)
    requires LifeOk(cfg, j) && ReactionsOk(j) && IsRun(j.runs, run) && j.runs[run].status.Active() && !status.Active()
    requires k.runs == SetStatus(j.runs, run, status) && k.inputs == j.inputs && k.steers == j.steers
    requires exists rows :: TextOnly(rows) && k.outbox == j.outbox + rows
    ensures Reactions.AllReportable(k, j.runs[run].conv, Reports(j, run), EmojiFor(status))
  {
    var conv, emoji, events := j.runs[run].conv, EmojiFor(status), Reports(j, run);
    var taken := TakenBy(j.steers, run, j.inputs[run]);
    TakenDistinct(j.runs, j.inputs, j.steers, run, j.inputs[run]);
    assert forall i :: 0 <= i < |taken| ==> taken[i] in taken;
    forall i | 0 <= i < |events|
      ensures Reactions.Reportable(k, conv, Reaction(events[i], emoji))
    {
      assert i > 0 ==> events[i] == taken[i - 1];
      ReportOne(j, k, run, events[i], status);
    }
  }

  lemma ReportOne(j: Journal, k: Journal, run: RunId, e: EventId, status: Status)
    requires InputsOk(j.runs, j.inputs) && SteersOk(j.runs, j.inputs, j.steers) && ReactionsGrounded(j)
    requires Owns(j, run, e) && j.runs[run].status.Active() && !status.Active()
    requires k.runs == SetStatus(j.runs, run, status) && k.inputs == j.inputs && k.steers == j.steers
    requires exists rows :: TextOnly(rows) && k.outbox == j.outbox + rows
    ensures Reactions.Reportable(k, j.runs[run].conv, Reaction(e, EmojiFor(status)))
  {
    NotYetReported(j, run, e, EmojiFor(status));
    assert Owns(k, run, e);
    if run in j.inputs && j.inputs[run] == e {
      assert Known(k, j.runs[run].conv, e);
    } else {
      var i :| 0 <= i < |j.steers| && j.steers[i].event == e && j.steers[i].run == run && j.steers[i].status.Taken?;
      assert Known(k, j.runs[run].conv, e);
    }
    var rows :| TextOnly(rows) && k.outbox == j.outbox + rows;
    forall t | Reacts(k.outbox, t)
      ensures !SameReport(k.outbox[t].reaction.value, Reaction(e, EmojiFor(status)))
    {
      assert t < |j.outbox| && Reacts(j.outbox, t);
    }
  }

  lemma EndedReactions(cfg: Config, j: Journal, m: Journal, run: RunId, status: Status)
    requires LifeOk(cfg, j) && ReactionsOk(j) && ReactionsOk(m) && IsRun(j.runs, run) && j.runs[run].status.Active() && !status.Active()
    requires m == Ended(j, run, status)
    ensures ReactionsOk(m.(outbox := m.outbox + ReactionRows(j.runs[run].conv, Reports(j, run), EmojiFor(status))))
  {
    var text := Buffer(j.output, run);
    var rows := if Blank(text) then [] else TextRows(j.runs[run].conv, text);
    assert TextOnly(rows) && m.outbox == j.outbox + rows;
    ReportsReportable(cfg, j, m, run, status);
    Reactions.ReactAllKeeps(m, j.runs[run].conv, Reports(j, run), EmojiFor(status));
  }

  lemma FinishGood(cfg: Config, j: Journal, run: RunId, status: Status)
    requires Inv(cfg, j) && IsRun(j.runs, run) && j.runs[run].status.Active() && !status.Active()
    ensures FinishRun(j, run, j.runs[run].conv, status).Success?
    ensures var k := FinishRun(j, run, j.runs[run].conv, status).value; Inv(cfg, k) && Onward(j, k)
  {
    var m := Ended(j, run, status);
    EndedGood(cfg, j, run, status);
    FinishShape(j, run, status);
    EndedReactions(cfg, j, m, run, status);
    ReportedGood(cfg, j, m, m.outbox + ReactionRows(j.runs[run].conv, Reports(j, run), EmojiFor(status)));
  }

  lemma ReportedGood(cfg: Config, j: Journal, m: Journal, outbox: seq<OutRow>)
    requires Inv(cfg, m) && Onward(j, m) && m.outbox <= outbox && ReactionsOk(m.(outbox := outbox))
    ensures var k := m.(outbox := outbox); Inv(cfg, k) && Onward(j, k)
  {
    var k := m.(outbox := outbox);
    ReportedFrame(cfg, m, k);
    OnwardTransitive(j, m, k);
  }

  /** What concerns outbound rows alone leaves everything else as it was. */
  lemma ReportedFrame(cfg: Config, m: Journal, k: Journal)
    requires Inv(cfg, m) && ReactionsOk(k) && k == m.(outbox := k.outbox, cleanup := k.cleanup) && OutboxGrows(m.outbox, k.outbox)
    ensures Inv(cfg, k) && Onward(m, k)
  {
    SameCalmOutbox(m, k);
    CalmKeeps(m, k);
    SameRunsGrow(m, k);
  }

  lemma SameRunsGrow(m: Journal, k: Journal)
    requires k.runs == m.runs && k.inputs == m.inputs && k.steers == m.steers
    ensures Grows(m, k)
  {
    forall i | 0 <= i < |m.steers| && IsRun(m.runs, m.steers[i].run) ensures SteerGrows(m, k, i) {}
  }

  lemma SameCalmOutbox(m: Journal, k: Journal)
    requires k == m.(outbox := k.outbox, cleanup := k.cleanup)
    ensures Calm(m, k)
  {
    SameSessions(m, k);
  }

  // ---------------------------------------------------------------- other worker events

  lemma ObserveFlushGood(cfg: Config, j: Journal, run: RunId, conv: ConvKey)
    requires Inv(cfg, j)
    ensures var k := Flush(Observe(j, run), run, conv); Inv(cfg, k) && Onward(j, k)
  {
    ObserveGood(cfg, j, run);
    FlushGood(cfg, Observe(j, run), run, conv);
    OnwardTransitive(j, Observe(j, run), Flush(Observe(j, run), run, conv));
  }

  /** A new request on a run that is not being cancelled, with or without its notice. */
  lemma AskedGood(cfg: Config, j: Journal, row: ApprovalRow, notice: string)
    requires Inv(cfg, j) && IsRun(j.runs, row.run) && j.runs[row.run].status.Active() && !j.runs[row.run].status.Cancelling?
    requires FindApproval(j.approvals, row.request).None? && !row.consumed
    ensures var k := j.(approvals := j.approvals + [row], runs := SetStatus(j.runs, row.run, WaitingApproval));
            && Inv(cfg, k) && Onward(j, k)
            && Inv(cfg, Enqueue(k, j.runs[row.run].conv, notice)) && Onward(j, Enqueue(k, j.runs[row.run].conv, notice))
  {
    var k := j.(approvals := j.approvals + [row], runs := SetStatus(j.runs, row.run, WaitingApproval));
    var conv := j.runs[row.run].conv;
    AskGood(cfg, j, row);
    SayGood(cfg, k, conv, notice);
    OnwardTransitive(j, k, Enqueue(k, conv, notice));
  }

  lemma PermissionGood(cfg: Config, j: Journal, run: RunId, request: RequestId, title: string, options: seq<Choice>, now: int)
    requires Inv(cfg, j) && IsRun(j.runs, run) && j.runs[run].status.Active() && !j.runs[run].status.Cancelling?
    ensures var r := AskPermission(cfg, j, run, j.runs[run].conv, request, title, options, now);
            r.Success? ==> Inv(cfg, r.value) && Onward(j, r.value)
  {
    var conv := j.runs[run].conv;
    var j1 := Flush(Observe(j, run), run, conv);
    ObserveFlushGood(cfg, j, run, conv);
    var r := AskPermission(cfg, j, run, conv, request, title, options, now);
    if r.Success? && FindApproval(j.approvals, request).None? {
      RequestGood(cfg, j1, run, request, title, options, now);
      OnwardTransitive(j, j1, r.value);
    }
  }

  lemma RequestGood(cfg: Config, j: Journal, run: RunId, request: RequestId, title: string, options: seq<Choice>, now: int)
    requires Inv(cfg, j) && IsRun(j.runs, run) && j.runs[run].status.Active() && !j.runs[run].status.Cancelling?
    requires FindApproval(j.approvals, request).None?
    ensures var k := AddRequest(cfg, j, run, j.runs[run].conv, request, title, options, now); Inv(cfg, k) && Onward(j, k)
  {
    AskedGood(cfg, j, ApprovalRow(request, run, options, Deadline(cfg, now), false), cfg.text(ApprovalRequested(request, title, options)));
  }

  lemma TextEventGood(cfg: Config, j: Journal, run: RunId, text: string)
    requires Inv(cfg, j) && IsRun(j.runs, run) && j.runs[run].status.Active()
    ensures var k := Observe(j, run).(output := j.output + [OutputRow(run, text)]); Inv(cfg, k) && Onward(j, k)
  {
    ObserveGood(cfg, j, run);
    TextGood(cfg, Observe(j, run), run, text);
    OnwardTransitive(j, Observe(j, run), Observe(j, run).(output := j.output + [OutputRow(run, text)]));
  }

  lemma SteeredGood(cfg: Config, j: Journal, run: RunId, e: EventId)
    requires Inv(cfg, j) && IsRun(j.runs, run) && j.runs[run].status.Active()
    ensures var k := TakeSteer(cfg, j, run, j.runs[run].conv, e); Inv(cfg, k) && Onward(j, k)
  {
    var conv := j.runs[run].conv;
    if cfg.steering.AfterTurn? {
      FlushGood(cfg, j, run, conv);
      TakeGood(cfg, Flush(j, run, conv), run, e);
      OnwardTransitive(j, Flush(j, run, conv), TakeSteer(cfg, j, run, conv, e));
    } else {
      TakeGood(cfg, j, run, e);
    }
  }

  /** Every worker event, whatever its run's state. */
  lemma AgentEventGood(cfg: Config, j: Journal, event: AgentEvent, now: int)
    requires Inv(cfg, j)
    ensures var r := OnAgentEvent(cfg, j, event, now); r.Success? ==> Inv(cfg, r.value) && Onward(j, r.value)
  {
    OnwardReflexive(j);
    var run := event.run;
    if IsRun(j.runs, run) && j.runs[run].status.Active() && (j.runs[run].status.Cancelling? ==> event.Finished?) {
      match event
      case SessionReady(_, session) => SessionEventGood(cfg, j, run, session);
      case Permission(_, request, title, options) => PermissionGood(cfg, j, run, request, title, options, now);
      case Finished(_, status) => FinishEventGood(cfg, j, run, status);
      case _ => SpokenGood(cfg, j, event, now);
    }
  }

  lemma SpokenGood(cfg: Config, j: Journal, event: AgentEvent, now: int)
    requires Inv(cfg, j) && IsRun(j.runs, event.run) && j.runs[event.run].status.Active() && !j.runs[event.run].status.Cancelling?
    requires event.Text? || event.Tool? || event.Steered?
    ensures var r := OnAgentEvent(cfg, j, event, now); r.Success? && Inv(cfg, r.value) && Onward(j, r.value)
  {
    match event
    case Text(run, text) =>
      ObserveGood(cfg, j, run);
      TextEventGood(cfg, j, run, text);
    case Tool(run) => ObserveFlushGood(cfg, j, run, j.runs[run].conv);
    case Steered(run, e) => SteeredGood(cfg, j, run, e);
  }

  lemma FinishEventGood(cfg: Config, j: Journal, run: RunId, status: Status)
    requires Inv(cfg, j) && IsRun(j.runs, run) && j.runs[run].status.Active()
    ensures var r := FinishRun(j, run, j.runs[run].conv, status); r.Success? ==> Inv(cfg, r.value) && Onward(j, r.value)
  {
    if !status.Active() { FinishGood(cfg, j, run, status); }
  }

  lemma SessionEventGood(cfg: Config, j: Journal, run: RunId, session: SessionId)
    requires Inv(cfg, j) && IsRun(j.runs, run) && j.runs[run].status.Active() && !j.runs[run].status.Cancelling?
    ensures var r := ReadySession(j, j.runs[run].conv, session); r.Success? ==> Inv(cfg, r.value) && Onward(j, r.value)
  {
    if ReadySession(j, j.runs[run].conv, session).Success? { SessionGood(cfg, j, run, session); }
  }

  // ---------------------------------------------------------------- timers

  /** The queried row is still there, unanswered. */
  ghost predicate StillOpen(approvals: seq<ApprovalRow>, a: ApprovalRow) {
    exists i :: 0 <= i < |approvals| && approvals[i] == a && !a.consumed
  }

  lemma AutoOneGood(cfg: Config, j: Journal, a: ApprovalRow)
    requires Inv(cfg, j) && StillOpen(j.approvals, a)
    ensures var k := AutoOne(cfg, j, a).journal; Inv(cfg, k) && Onward(j, k)
  {
    OnwardReflexive(j);
    var i :| 0 <= i < |j.approvals| && j.approvals[i] == a && !a.consumed;
    if AutoOne(cfg, j, a).value != [] {
      AutoAnswerGood(cfg, j, i, AllowOption(a.options).value);
    }
    AutoOneShape(cfg, j, a);
  }

  lemma AutoOneShape(cfg: Config, j: Journal, a: ApprovalRow)
    ensures var s := AutoOne(cfg, j, a);
            if s.value == [] then s.journal == j
            else IsRun(j.runs, a.run) && AllowOption(a.options).Some?
                 && s.journal == Answer(j.(decisions := j.decisions[a.request := AllowOption(a.options).value]), a.request, a.run)
  {}

  lemma AutoAnswerGood(cfg: Config, j: Journal, i: nat, option: string)
    requires Inv(cfg, j) && i < |j.approvals| && !j.approvals[i].consumed && IsRun(j.runs, j.approvals[i].run)
    ensures var a := j.approvals[i];
            var k := Answer(j.(decisions := j.decisions[a.request := option]), a.request, a.run);
            Inv(cfg, k) && Onward(j, k)
  {
    var a := j.approvals[i];
    AnswerGood(cfg, j, i, j.decisions[a.request := option], option);
    assert Answer(j.(decisions := j.decisions[a.request := option]), a.request, a.run)
        == Answer(j, a.request, a.run).(decisions := j.decisions[a.request := option]);
  }

  lemma ExpireOneGood(cfg: Config, j: Journal, a: ApprovalRow)
    requires Inv(cfg, j) && StillOpen(j.approvals, a)
    ensures var k := ExpireOne(cfg, j, a).journal; Inv(cfg, k) && Onward(j, k)
  {
    var i :| 0 <= i < |j.approvals| && j.approvals[i] == a && !a.consumed;
    var k := ExpireOne(cfg, j, a).journal;
    var m := k.(outbox := j.outbox);
    Approvals.ExpireOneKeeps(cfg, j, i);
    ExpiredGood(cfg, j, m, a);
    SayGood(cfg, m, j.runs[a.run].conv, cfg.text(ApprovalExpired));
    OnwardTransitive(j, m, k);
  }

  lemma ExpiredGood(cfg: Config, j: Journal, m: Journal, a: ApprovalRow)
    requires Inv(cfg, j) && IsRun(j.runs, a.run) && m == j.(approvals := ConsumeRequest(j.approvals, a.request), runs := m.runs)
    requires m.runs == j.runs || (m.runs == SetStatus(j.runs, a.run, Running) && j.runs[a.run].status.WaitingApproval?)
    requires ApprovalsOk(m.runs, m.approvals, m.decisions)
    ensures Inv(cfg, m) && Onward(j, m)
  {
    ExpiredQuiet(cfg, j, m, a);
    QuietKeeps(cfg, j, m, []);
  }

  lemma ExpiredQuiet(cfg: Config, j: Journal, m: Journal, a: ApprovalRow)
    requires IsRun(j.runs, a.run) && m == j.(approvals := ConsumeRequest(j.approvals, a.request), runs := m.runs)
    requires m.runs == j.runs || (m.runs == SetStatus(j.runs, a.run, Running) && j.runs[a.run].status.WaitingApproval?)
    requires ApprovalsOk(m.runs, m.approvals, m.decisions) && InboxOk(cfg, j.inbox) && OutputOk(j.runs, j.output)
    ensures Quiet(cfg, j, m, [])
  {
    if m.runs == j.runs {
      SameCalm(j, m);
    } else {
      StatusCalm(j, m, a.run, Running);
    }
    assert m.outbox == j.outbox + [];
  }

  /** Answering one row leaves the other queried rows as they were. */
  lemma OthersStayOpen(approvals: seq<ApprovalRow>, request: RequestId, a: ApprovalRow)
    requires StillOpen(approvals, a) && a.request != request
    ensures StillOpen(ConsumeRequest(approvals, request), a)
  {
    var i :| 0 <= i < |approvals| && approvals[i] == a && !a.consumed;
    assert ConsumeRequest(approvals, request)[i] == a;
  }

  ghost predicate Queried(j: Journal, rows: seq<ApprovalRow>) {
    && (forall i :: 0 <= i < |rows| ==> StillOpen(j.approvals, rows[i]))
    && (forall i, k :: 0 <= i < k < |rows| ==> rows[i].request != rows[k].request)
  }

  lemma QueriedPrefix(j: Journal, rows: seq<ApprovalRow>)
    requires Queried(j, rows) && rows != []
    ensures Queried(j, rows[..|rows| - 1]) && StillOpen(j.approvals, rows[|rows| - 1])
    ensures forall i :: 0 <= i < |rows| - 1 ==> rows[i].request != rows[|rows| - 1].request
  {}

  /** Each queried row is open when its turn comes. */
  lemma {:induction false} AutoAllOpen(cfg: Config, j: Journal, rows: seq<ApprovalRow>, a: ApprovalRow)
    requires StillOpen(j.approvals, a) && forall i :: 0 <= i < |rows| ==> rows[i].request != a.request
    ensures StillOpen(AutoAll(cfg, j, rows).journal.approvals, a)
    decreases |rows|
  {
    if rows != [] {
      var before, last := rows[..|rows| - 1], rows[|rows| - 1];
      AutoAllOpen(cfg, j, before, a);
      OthersStayOpen(AutoAll(cfg, j, before).journal.approvals, last.request, a);
    }
  }

  lemma {:induction false} AutoAllGood(cfg: Config, j: Journal, rows: seq<ApprovalRow>)
    requires Inv(cfg, j) && Queried(j, rows)
    ensures var k := AutoAll(cfg, j, rows).journal; Inv(cfg, k) && Onward(j, k)
    decreases |rows|
  {
    if rows == [] {
      OnwardReflexive(j);
    } else {
      var before, last := rows[..|rows| - 1], rows[|rows| - 1];
      var m := AutoAll(cfg, j, before).journal;
      QueriedPrefix(j, rows);
      AutoAllGood(cfg, j, before);
      AutoAllOpen(cfg, j, before, last);
      AutoOnward(cfg, j, m, last);
      assert AutoAll(cfg, j, rows).journal == AutoOne(cfg, m, last).journal;
    }
  }

  lemma AutoOnward(cfg: Config, j: Journal, m: Journal, a: ApprovalRow)
    requires Inv(cfg, m) && Onward(j, m) && StillOpen(m.approvals, a)
    ensures var k := AutoOne(cfg, m, a).journal; Inv(cfg, k) && Onward(j, k)
  {
    AutoOneGood(cfg, m, a);
    OnwardTransitive(j, m, AutoOne(cfg, m, a).journal);
  }

  lemma {:induction false} ExpireAllOpen(cfg: Config, j: Journal, rows: seq<ApprovalRow>, a: ApprovalRow)
    requires StillOpen(j.approvals, a) && forall i :: 0 <= i < |rows| ==> rows[i].request != a.request
    ensures StillOpen(ExpireAll(cfg, j, rows).journal.approvals, a)
    decreases |rows|
  {
    if rows != [] {
      var before, last := rows[..|rows| - 1], rows[|rows| - 1];
      ExpireAllOpen(cfg, j, before, a);
      OthersStayOpen(ExpireAll(cfg, j, before).journal.approvals, last.request, a);
    }
  }

  lemma {:induction false} ExpireAllGood(cfg: Config, j: Journal, rows: seq<ApprovalRow>)
    requires Inv(cfg, j) && Queried(j, rows)
    ensures var k := ExpireAll(cfg, j, rows).journal; Inv(cfg, k) && Onward(j, k)
    decreases |rows|
  {
    if rows == [] {
      OnwardReflexive(j);
    } else {
      var before, last := rows[..|rows| - 1], rows[|rows| - 1];
      var m := ExpireAll(cfg, j, before).journal;
      QueriedPrefix(j, rows);
      ExpireAllGood(cfg, j, before);
      ExpireAllOpen(cfg, j, before, last);
      ExpireOnward(cfg, j, m, last);
      assert ExpireAll(cfg, j, rows).journal == ExpireOne(cfg, m, last).journal;
    }
  }

  lemma ExpireOnward(cfg: Config, j: Journal, m: Journal, a: ApprovalRow)
    requires Inv(cfg, m) && Onward(j, m) && StillOpen(m.approvals, a)
    ensures var k := ExpireOne(cfg, m, a).journal; Inv(cfg, k) && Onward(j, k)
  {
    ExpireOneGood(cfg, m, a);
    OnwardTransitive(j, m, ExpireOne(cfg, m, a).journal);
  }

  lemma {:induction false} OpenQueried(j: Journal, now: int, n: nat)
    requires n <= |j.approvals| && ApprovalRowsOk(j.runs, j.approvals, j.decisions)
    ensures Queried(j, Open(j, now, n))
  {
    var rows := Open(j, now, n);
    forall i | 0 <= i < |rows| ensures StillOpen(j.approvals, rows[i]) {
      assert rows[i] in rows;
    }
    if n > 0 {
      OpenQueried(j, now, n - 1);
      var rest := Open(j, now, n - 1);
      forall i | 0 <= i < |rest| ensures rest[i].request != j.approvals[n - 1].request {
        assert rest[i] in rest;
      }
    }
  }

  lemma {:induction false} ExpiredQueried(j: Journal, now: int, n: nat)
    requires n <= |j.approvals| && ApprovalRowsOk(j.runs, j.approvals, j.decisions)
    ensures Queried(j, Expired(j, now, n))
  {
    var rows := Expired(j, now, n);
    forall i | 0 <= i < |rows| ensures StillOpen(j.approvals, rows[i]) {
      assert rows[i] in rows;
    }
    if n > 0 {
      ExpiredQueried(j, now, n - 1);
      var rest := Expired(j, now, n - 1);
      forall i | 0 <= i < |rest| ensures rest[i].request != j.approvals[n - 1].request {
        assert rest[i] in rest;
      }
    }
  }

  lemma AutomaticGood(cfg: Config, j: Journal, now: int)
    requires Inv(cfg, j)
    ensures var k := AutomaticApprovals(cfg, j, now).journal; Inv(cfg, k) && Onward(j, k)
  {
    OpenQueried(j, now, |j.approvals|);
    AutoAllGood(cfg, j, Open(j, now, |j.approvals|));
  }

  lemma ExpireGood(cfg: Config, j: Journal, now: int)
    requires Inv(cfg, j)
    ensures var k := ExpireApprovals(cfg, j, now).journal; Inv(cfg, k) && Onward(j, k)
  {
    ExpiredQueried(j, now, |j.approvals|);
    ExpireAllGood(cfg, j, Expired(j, now, |j.approvals|));
  }

  // ---------------------------------------------------------------- audience changes

  lemma CutSteersCalm(j: Journal, k: Journal, run: RunId)
    requires k == j.(steers := CancelRunSteers(j.steers, run), runs := k.runs, approvals := k.approvals)
    requires StatusOnly(j.runs, k.runs) && |k.runs| == |j.runs|
    ensures Calm(j, k)
  {
    SameSessions(j, k);
  }

  lemma StopIdleGood(cfg: Config, j: Journal, run: RunId)
    requires Inv(cfg, j)
    ensures var k := j.(steers := CancelRunSteers(j.steers, run)); Inv(cfg, k) && Onward(j, k)
  {
    var k := j.(steers := CancelRunSteers(j.steers, run));
    CutSteersCalm(j, k, run);
    assert k.outbox == j.outbox + [];
    QuietKeeps(cfg, j, k, []);
  }

  lemma StopActiveGood(cfg: Config, j: Journal, k: Journal, run: RunId)
    requires Inv(cfg, j) && IsRun(j.runs, run) && j.runs[run].status.Active()
    requires k == j.(steers := CancelRunSteers(j.steers, run), runs := SetStatus(j.runs, run, Status.Cancelling), approvals := ConsumeRun(j.approvals, run))
    ensures Inv(cfg, k) && Onward(j, k)
  {
    CancellingParts(j.runs, j.approvals, j.decisions, j.output, run);
    CutSteersCalm(j, k, run);
    assert k.outbox == j.outbox + [];
    QuietKeeps(cfg, j, k, []);
  }

  lemma ReconcileOneGood(cfg: Config, j: Journal, run: RunId, room: RoomSnapshot)
    requires Inv(cfg, j)
    ensures var k := ReconcileOne(cfg, j, run, room).journal; Inv(cfg, k) && Onward(j, k)
  {
    OnwardReflexive(j);
    if IsRun(j.runs, run) && !MayDeliver(cfg, j, j.runs[run].conv, room) {
      if j.runs[run].status.Active() {
        StopActiveGood(cfg, j, StopRun(j, run, 3), run);
      } else {
        StopIdleGood(cfg, j, run);
      }
    }
  }

  lemma {:induction false} ReconcileAllGood(cfg: Config, j: Journal, runs: seq<RunId>, room: RoomSnapshot)
    requires Inv(cfg, j)
    ensures var k := ReconcileAll(cfg, j, runs, room).journal; Inv(cfg, k) && Onward(j, k)
    decreases |runs|
  {
    if runs == [] {
      OnwardReflexive(j);
    } else {
      var before, last := runs[..|runs| - 1], runs[|runs| - 1];
      var m := ReconcileAll(cfg, j, before, room).journal;
      ReconcileAllGood(cfg, j, before, room);
      ReconcileOneGood(cfg, m, last, room);
      OnwardTransitive(j, m, ReconcileOne(cfg, m, last, room).journal);
    }
  }

  // ---------------------------------------------------------------- continuations

  lemma ContinuesGrows(cfg: Config, j: Journal, conv: ConvKey, l: nat, k: Journal)
    requires LifeOk(cfg, j) && Continues(cfg, j, conv, l, k)
    ensures Grows(j, k)
  {
    forall i | 0 <= i < |j.steers| && IsRun(j.runs, j.steers[i].run)
      ensures SteerGrows(j, k, i)
    {}
  }

  lemma ContinuesLedger(cfg: Config, j: Journal, conv: ConvKey, l: nat, k: Journal)
    requires LifeOk(cfg, j) && LedgerOk(j) && Continues(cfg, j, conv, l, k)
    ensures ResumesLedger(cfg, j, conv, k)
  {
    LeftoverEvents(j, conv);
    assert LeftoverOf(j, conv, l);
  }

  lemma ContinuesGood(cfg: Config, j: Journal, conv: ConvKey, l: nat, k: Journal)
    requires Inv(cfg, j) && Continues(cfg, j, conv, l, k)
    ensures Inv(cfg, k) && Onward(j, k)
  {
    ContinuesLife(cfg, j, conv, l, k);
    ContinuesGrows(cfg, j, conv, l, k);
    ContinuesLedger(cfg, j, conv, l, k);
    ResumeKeeps(cfg, j, conv, k);
    ContinuesRest(cfg, j, conv, l, k);
    Reactions.NoneKeeps(j, k);
  }

  lemma ContinuesRest(cfg: Config, j: Journal, conv: ConvKey, l: nat, k: Journal)
    requires ApprovalsOk(j.runs, j.approvals, j.decisions) && OutputOk(j.runs, j.output) && Continues(cfg, j, conv, l, k)
    ensures ApprovalsOk(k.runs, k.approvals, k.decisions) && OutputOk(k.runs, k.output)
    ensures OutboxGrows(j.outbox, k.outbox) && ApprovalsGrow(j.approvals, k.approvals) && k.outbox == j.outbox && k.cleanup == j.cleanup
  {
    AppendedRun(j.runs, k.runs[|j.runs|], j.approvals, j.decisions, j.output);
  }

  lemma ResumeOneGood(cfg: Config, j: Journal, conv: ConvKey)
    requires Inv(cfg, j)
    ensures var k := ResumeOne(cfg, j, conv).journal; Inv(cfg, k) && Onward(j, k)
  {
    OnwardReflexive(j);
    if ResumeOne(cfg, j, conv).value != [] {
      var l := ResumeShape(cfg, j, conv);
      ContinuesGood(cfg, j, conv, l, ResumeOne(cfg, j, conv).journal);
    }
  }

  lemma {:induction false} ResumeAllGood(cfg: Config, j: Journal, convs: seq<ConvKey>)
    requires Inv(cfg, j)
    ensures var k := ResumeAll(cfg, j, convs).journal; Inv(cfg, k) && Onward(j, k)
    decreases |convs|
  {
    if convs == [] {
      OnwardReflexive(j);
    } else {
      var before, last := convs[..|convs| - 1], convs[|convs| - 1];
      var m := ResumeAll(cfg, j, before).journal;
      ResumeAllGood(cfg, j, before);
      ResumeOneGood(cfg, m, last);
      OnwardTransitive(j, m, ResumeOne(cfg, m, last).journal);
    }
  }

  // ---------------------------------------------------------------- delivery

  lemma DeliverGood(cfg: Config, j: Journal, txn: Txn, event: EventId)
    requires Inv(cfg, j)
    ensures Inv(cfg, Deliver(j, txn, event)) && Onward(j, Deliver(j, txn, event))
  {
    Reactions.DeliverKeeps(j, txn, event);
    DeliverTables(j, txn, event);
    ReportedFrame(cfg, j, Deliver(j, txn, event));
  }

  lemma DeliverTables(j: Journal, txn: Txn, event: EventId)
    ensures var k := Deliver(j, txn, event); k == j.(outbox := k.outbox, cleanup := k.cleanup) && OutboxGrows(j.outbox, k.outbox)
  {
    if txn < |j.outbox| && j.outbox[txn].delivered.None? { SentGrows(j.outbox, txn, event); }
  }

  lemma SentGrows(outbox: seq<OutRow>, txn: Txn, event: EventId)
    requires txn < |outbox| && outbox[txn].delivered.None?
    ensures OutboxGrows(outbox, outbox[txn := outbox[txn].(delivered := Some(event))])
  {}

  /** Acknowledging a removal changes no target. */
  lemma RemoveTargets(cleanup: seq<CleanupRow>, after: seq<CleanupRow>)
    requires |after| == |cleanup| && forall i :: 0 <= i < |after| ==> after[i].target == cleanup[i].target
    ensures forall t: Txn :: HasCleanup(after, t) <==> HasCleanup(cleanup, t)
  {
    forall t: Txn
      ensures HasCleanup(after, t) <==> HasCleanup(cleanup, t)
    {
      if HasCleanup(cleanup, t) {
        var i :| 0 <= i < |cleanup| && cleanup[i].target == t;
        assert after[i].target == t;
      }
    }
  }

  lemma RemoveReactions(j: Journal, k: Journal)
    requires ReactionsOk(j) && k == j.(cleanup := k.cleanup)
    requires |k.cleanup| == |j.cleanup| && forall i :: 0 <= i < |j.cleanup| ==> k.cleanup[i].target == j.cleanup[i].target
    ensures ReactionsOk(k)
  {
    RemoveTargets(j.cleanup, k.cleanup);
    Reactions.KnownReads(j, k);
  }

  lemma RemoveGood(cfg: Config, j: Journal, row: nat, event: EventId)
    requires Inv(cfg, j)
    ensures Inv(cfg, RemoveReaction(j, row, event)) && Onward(j, RemoveReaction(j, row, event))
  {
    RemoveReactions(j, RemoveReaction(j, row, event));
    ReportedFrame(cfg, j, RemoveReaction(j, row, event));
  }

  lemma BlockGood(cfg: Config, j: Journal, txn: Txn)
    requires Inv(cfg, j)
    ensures Inv(cfg, Block(j, txn)) && Onward(j, Block(j, txn))
  {
    var k := Block(j, txn);
    assert k.outbox == j.outbox + [];
    QuietText(cfg, j, k, []);
    QuietKeeps(cfg, j, k, []);
  }

  lemma ExplicitGood(cfg: Config, j: Journal, run: RunId, text: string)
    requires Inv(cfg, j)
    ensures var r := ExplicitMessage(cfg, j, run, text); r.Success? ==> Inv(cfg, r.value.journal) && Onward(j, r.value.journal)
  {
    var r := ExplicitMessage(cfg, j, run, text);
    if r.Success? {
      var m := Observe(j, run);
      var k := r.value.journal;
      ObserveGood(cfg, j, run);
      assert k.outbox == m.outbox + TextRows(j.runs[run].conv, text);
      QuietText(cfg, m, k, TextRows(j.runs[run].conv, text));
      QuietKeeps(cfg, m, k, TextRows(j.runs[run].conv, text));
      OnwardTransitive(j, m, k);
    }
  }
}
