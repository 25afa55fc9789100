/** Permission requests over whole histories: each is answered at most once, and never wrongly. */
module Answers {
  import opened Model
  import opened Journal
  import opened Rules
  import opened Invariants
  import opened Steps
  import opened EventSteps
  import opened History
  import Context

  /** Everything the bridge has asked its surroundings to do. */
  ghost function Effects(cfg: Config, ops: seq<Op>): seq<Effect> {
    if ops == [] then []
    else Effects(cfg, ops[..|ops| - 1]) + Next(cfg, After(cfg, ops[..|ops| - 1]), ops[|ops| - 1]).value
  }

  predicate Answers(e: Effect, q: RequestId) {
    e.Decide? && e.request == q
  }

  function CountAnswers(effects: seq<Effect>, q: RequestId): nat {
    if effects == [] then 0
    else CountAnswers(effects[..|effects| - 1], q) + (if Answers(effects[|effects| - 1], q) then 1 else 0)
  }

  predicate Unanswered(approvals: seq<ApprovalRow>, q: RequestId) {
    exists i :: 0 <= i < |approvals| && approvals[i].request == q && !approvals[i].consumed
  }

  predicate Closed(approvals: seq<ApprovalRow>, q: RequestId) {
    exists i :: 0 <= i < |approvals| && approvals[i].request == q && approvals[i].consumed
  }

  /**
   An answer is called for: its request was open, it goes to the run that asked, a positive one names an offered
   option before the deadline, and a negative one comes at the deadline or later.
   */
  predicate Justified(approvals: seq<ApprovalRow>, e: Effect, now: int) {
    e.Decide? ==>
      exists i :: 0 <= i < |approvals| && JustifiedBy(approvals[i], e, now)
  }

  predicate JustifiedBy(a: ApprovalRow, e: Effect, now: int)
    requires e.Decide?
  {
    && a.request == e.request && a.run == e.run && !a.consumed
    && match e.option
       case Some(option) => a.expires > now && exists o :: 0 <= o < |a.options| && a.options[o].id == option
       case None => a.expires <= now
  }

  function TimeOf(op: Op): int {
    match op
    case Message(_, _, _, now) => now
    case Automatic(now) => now
    case Expire(now) => now
    case _ => 0
  }

  lemma {:induction false} CountAppend(a: seq<Effect>, b: seq<Effect>, q: RequestId)
    ensures CountAnswers(a + b, q) == CountAnswers(a, q) + CountAnswers(b, q)
    decreases |b|
  {
    if b == [] {
      assert a + b == a;
    } else {
      CountAppend(a, b[..|b| - 1], q);
      assert (a + b)[..|a + b| - 1] == a + b[..|b| - 1];
    }
  }

  // ---------------------------------------------------------------- one transaction

  /** What one transaction's effects do to the requests. */
  ghost predicate AnswersWell(j: Journal, k: Journal, effects: seq<Effect>, now: int) {
    && (forall e :: e in effects ==> Justified(j.approvals, e, now))
    && (forall q :: CountAnswers(effects, q) <= 1)
    && (forall q :: CountAnswers(effects, q) == 1 ==> Unanswered(j.approvals, q) && Closed(k.approvals, q))
  }

  lemma NoAnswers(j: Journal, k: Journal, effects: seq<Effect>, now: int)
    requires forall e :: e in effects ==> !e.Decide?
    ensures AnswersWell(j, k, effects, now)
  {
    forall q ensures CountAnswers(effects, q) == 0 { NoCount(effects, q); }
  }

  lemma {:induction false} NoCount(effects: seq<Effect>, q: RequestId)
    requires forall e :: e in effects ==> !e.Decide?
    ensures CountAnswers(effects, q) == 0
  {
    if effects != [] { NoCount(effects[..|effects| - 1], q); }
  }

  lemma ConsumedCloses(approvals: seq<ApprovalRow>, i: nat)
    requires i < |approvals|
    ensures Closed(ConsumeRequest(approvals, approvals[i].request), approvals[i].request)
    ensures ApprovalsGrow(approvals, ConsumeRequest(approvals, approvals[i].request))
  {
    assert ConsumeRequest(approvals, approvals[i].request)[i].consumed;
  }

  lemma ExpireConsumes(cfg: Config, m: Journal, a: ApprovalRow)
    requires IsRun(m.runs, a.run)
    ensures ExpireOne(cfg, m, a).journal.approvals == ConsumeRequest(m.approvals, a.request)
    ensures ExpireOne(cfg, m, a).value == [Decide(a.run, a.request, None)]
  {}

  lemma ApproveAnswers(cfg: Config, j: Journal, conv: ConvKey, request: RequestId, option: string, now: int)
    ensures var s := ApproveCommand(cfg, j, conv, request, option, now); AnswersWell(j, s.journal, s.value, now)
  {
    var s := ApproveCommand(cfg, j, conv, request, option, now);
    if s.value == [] {
      NoAnswers(j, s.journal, [], now);
    } else {
      var i := FindApproval(j.approvals, request).value;
      assert JustifiedBy(j.approvals[i], s.value[0], now);
      ConsumedCloses(j.approvals, i);
      forall q ensures CountAnswers(s.value, q) == if q == request then 1 else 0 {
        assert s.value[..0] == [];
      }
    }
  }

  lemma CommandAnswers(cfg: Config, j: Journal, conv: ConvKey, command: BridgeCommand, now: int)
    ensures var s := RunCommand(cfg, j, conv, command, now); AnswersWell(j, s.journal, s.value, now)
  {
    var s := RunCommand(cfg, j, conv, command, now);
    if command.CmdApprove? {
      ApproveAnswers(cfg, j, conv, command.request, command.option, now);
    } else {
      NoAnswers(j, s.journal, s.value, now);
    }
  }

  lemma MessageAnswers(cfg: Config, j: Journal, event: Incoming, room: RoomSnapshot, history: seq<Incoming>, now: int)
    ensures var r := Handle(cfg, j, event, room, Some(history), now);
            r.Success? ==> AnswersWell(j, r.value.journal, r.value.value.effects, now)
  {
    var r := Handle(cfg, j, event, room, Some(history), now);
    if r.Success? {
      var conv := Admit(cfg, j, event, room);
      if conv.Admitted? && IsCommand(event.body) && (event.room, event.event) !in j.inbox {
        CommandAnswers(cfg, Register(cfg, j, event, room, conv.conv), conv.conv, ParseCommand(event.body), now);
      } else {
        WorkAnswersNothing(cfg, j, event, room, history, now);
        NoAnswers(j, r.value.journal, r.value.value.effects, now);
      }
    }
  }

  lemma FollowUpAnswersNothing(cfg: Config, j: Journal, event: Incoming, conv: ConvKey, run: RunId, prompt: string, p: Option<Context.Prepared>)
    requires IsRun(j.runs, run)
    ensures var r := FollowUp(cfg, j, event, conv, run, prompt, p); r.Success? ==> forall e :: e in r.value.value ==> !e.Decide?
  {}

  lemma OpenRunAnswersNothing(cfg: Config, j: Journal, event: Incoming, conv: ConvKey, prompt: string, p: Option<Context.Prepared>)
    ensures var r := OpenRun(cfg, j, event, conv, prompt, p); r.Success? ==> forall e :: e in r.value.value ==> !e.Decide?
  {}

  lemma WorkAnswersNothing(cfg: Config, j: Journal, event: Incoming, room: RoomSnapshot, history: seq<Incoming>, now: int)
    requires Handle(cfg, j, event, room, Some(history), now).Success?
    requires !(Admit(cfg, j, event, room).Admitted? && IsCommand(event.body) && (event.room, event.event) !in j.inbox)
    ensures forall e :: e in Handle(cfg, j, event, room, Some(history), now).value.value.effects ==> !e.Decide?
  {
    var a := Admit(cfg, j, event, room);
    if a.Admitted? && (event.room, event.event) !in j.inbox {
      var j1 := Register(cfg, j, event, room, a.conv);
      var p := PrepareContext(cfg, j, event, history).value;
      OpenRunAnswersNothing(cfg, j1, event, a.conv, p.prompt, Some(p));
      var active := FindActive(j1.runs, a.conv);
      if active.Some? { FollowUpAnswersNothing(cfg, j1, event, a.conv, active.value, p.prompt, Some(p)); }
    }
  }

  // ---------------------------------------------------------------- the timers' loops

  predicate AnswersRow(a: ApprovalRow, e: Effect) {
    e.Decide? && e.request == a.request && e.run == a.run
  }

  /** Every answer of a loop belongs to one of its rows, and closes it. */
  ghost predicate AnswersRows(rows: seq<ApprovalRow>, k: Journal, effects: seq<Effect>) {
    && (forall e :: e in effects ==> exists i :: 0 <= i < |rows| && AnswersRow(rows[i], e))
    && (forall q :: CountAnswers(effects, q) <= 1)
    && (forall q :: CountAnswers(effects, q) == 1 ==> Closed(k.approvals, q))
  }

  lemma ClosedStays(approvals: seq<ApprovalRow>, after: seq<ApprovalRow>, q: RequestId)
    requires ApprovalsGrow(approvals, after) && Closed(approvals, q)
    ensures Closed(after, q)
  {
    var i :| 0 <= i < |approvals| && approvals[i].request == q && approvals[i].consumed;
    assert after[i].request == q && after[i].consumed;
  }

  lemma {:induction false} NotAnswered(rows: seq<ApprovalRow>, effects: seq<Effect>, q: RequestId)
    requires forall e :: e in effects ==> exists i :: 0 <= i < |rows| && AnswersRow(rows[i], e)
    requires forall i :: 0 <= i < |rows| ==> rows[i].request != q
    ensures CountAnswers(effects, q) == 0
  {
    if effects != [] {
      var front, last := effects[..|effects| - 1], effects[|effects| - 1];
      assert last in effects;
      assert forall e :: e in front ==> e in effects;
      NotAnswered(rows, front, q);
    }
  }

  /** One more row of a loop, which may or may not be answered. */
  lemma OneMore(rows: seq<ApprovalRow>, a: ApprovalRow, m: Journal, before: seq<Effect>, k: Journal, one: seq<Effect>)
    requires AnswersRows(rows, m, before) && ApprovalsGrow(m.approvals, k.approvals)
    requires forall i :: 0 <= i < |rows| ==> rows[i].request != a.request
    requires one == [] || (|one| == 1 && AnswersRow(a, one[0]) && Closed(k.approvals, a.request))
    ensures AnswersRows(rows + [a], k, before + one)
  {
    forall e | e in before + one ensures exists i :: 0 <= i < |rows + [a]| && AnswersRow((rows + [a])[i], e) {
      if e in before {
        var i :| 0 <= i < |rows| && AnswersRow(rows[i], e);
        assert AnswersRow((rows + [a])[i], e);
      } else {
        assert AnswersRow((rows + [a])[|rows|], e);
      }
    }
    forall q
      ensures CountAnswers(before + one, q) <= 1
      ensures CountAnswers(before + one, q) == 1 ==> Closed(k.approvals, q)
    {
      CountAppend(before, one, q);
      if one != [] { assert one[..0] == []; }
      if q == a.request {
        NotAnswered(rows, before, q);
      } else if CountAnswers(before, q) == 1 {
        ClosedStays(m.approvals, k.approvals, q);
      }
    }
  }

  /** The rows a policy answers, with the options it picks. */
  ghost predicate PicksAllowed(rows: seq<ApprovalRow>, effects: seq<Effect>) {
    forall e :: e in effects ==> exists i :: 0 <= i < |rows| && Picks(rows[i], e)
  }

  predicate Picks(a: ApprovalRow, e: Effect) {
    AnswersRow(a, e) && e.option.Some? && AllowOption(a.options) == e.option
  }

  lemma PicksMore(rows: seq<ApprovalRow>, a: ApprovalRow, before: seq<Effect>, one: seq<Effect>)
    requires PicksAllowed(rows, before) && (one == [] || (|one| == 1 && Picks(a, one[0])))
    ensures PicksAllowed(rows + [a], before + one)
  {
    forall e | e in before + one ensures exists i :: 0 <= i < |rows + [a]| && Picks((rows + [a])[i], e) {
      if e in before {
        var i :| 0 <= i < |rows| && Picks(rows[i], e);
        assert Picks((rows + [a])[i], e);
      } else {
        assert Picks((rows + [a])[|rows|], e);
      }
    }
  }

  lemma AutoMore(cfg: Config, m: Journal, rows: seq<ApprovalRow>, a: ApprovalRow, before: seq<Effect>)
    requires AnswersRows(rows, m, before) && PicksAllowed(rows, before) && StillOpen(m.approvals, a)
    requires forall i :: 0 <= i < |rows| ==> rows[i].request != a.request
    ensures var one := AutoOne(cfg, m, a); AnswersRows(rows + [a], one.journal, before + one.value) && PicksAllowed(rows + [a], before + one.value)
  {
    var one := AutoOne(cfg, m, a);
    AutoOneCloses(cfg, m, a);
    OneMore(rows, a, m, before, one.journal, one.value);
    PicksMore(rows, a, before, one.value);
  }

  lemma ExpireMore(cfg: Config, m: Journal, rows: seq<ApprovalRow>, a: ApprovalRow, before: seq<Effect>)
    requires AnswersRows(rows, m, before) && StillOpen(m.approvals, a)
    requires forall i :: 0 <= i < |rows| ==> rows[i].request != a.request
    ensures var one := ExpireOne(cfg, m, a); AnswersRows(rows + [a], one.journal, before + one.value)
  {
    var one := ExpireOne(cfg, m, a);
    ExpireOneCloses(cfg, m, a);
    OneMore(rows, a, m, before, one.journal, one.value);
  }

  lemma {:induction false} AutoAnswers(cfg: Config, j: Journal, rows: seq<ApprovalRow>)
    requires Queried(j, rows)
    ensures var s := AutoAll(cfg, j, rows); AnswersRows(rows, s.journal, s.value) && PicksAllowed(rows, s.value)
    decreases |rows|
  {
    if rows != [] {
      var front, a := rows[..|rows| - 1], rows[|rows| - 1];
      QueriedPrefix(j, rows);
      AutoAnswers(cfg, j, front);
      AutoAllOpen(cfg, j, front, a);
      var before := AutoAll(cfg, j, front);
      AutoMore(cfg, before.journal, front, a, before.value);
      assert front + [a] == rows;
    }
  }

  lemma AutoOneCloses(cfg: Config, m: Journal, a: ApprovalRow)
    requires StillOpen(m.approvals, a)
    ensures var one := AutoOne(cfg, m, a);
            && ApprovalsGrow(m.approvals, one.journal.approvals)
            && (one.value == [] || (|one.value| == 1 && Picks(a, one.value[0]) && Closed(one.journal.approvals, a.request)))
  {
    var i :| 0 <= i < |m.approvals| && m.approvals[i] == a && !a.consumed;
    ConsumedCloses(m.approvals, i);
  }

  lemma ExpireOneCloses(cfg: Config, m: Journal, a: ApprovalRow)
    requires StillOpen(m.approvals, a)
    ensures var one := ExpireOne(cfg, m, a);
            && ApprovalsGrow(m.approvals, one.journal.approvals)
            && (one.value == [] || (|one.value| == 1 && AnswersRow(a, one.value[0]) && one.value[0].option.None?
                                    && Closed(one.journal.approvals, a.request)))
  {
    if IsRun(m.runs, a.run) {
      var i :| 0 <= i < |m.approvals| && m.approvals[i] == a && !a.consumed;
      ExpireConsumes(cfg, m, a);
      ConsumedCloses(m.approvals, i);
    }
  }

  lemma {:induction false} ExpireAnswers(cfg: Config, j: Journal, rows: seq<ApprovalRow>)
    requires Queried(j, rows)
    ensures var s := ExpireAll(cfg, j, rows); AnswersRows(rows, s.journal, s.value)
    ensures forall e :: e in ExpireAll(cfg, j, rows).value ==> e.Decide? && e.option.None?
    decreases |rows|
  {
    if rows != [] {
      var front, a := rows[..|rows| - 1], rows[|rows| - 1];
      QueriedPrefix(j, rows);
      ExpireAnswers(cfg, j, front);
      ExpireAllOpen(cfg, j, front, a);
      var before := ExpireAll(cfg, j, front);
      ExpireMore(cfg, before.journal, front, a, before.value);
      assert front + [a] == rows;
    }
  }

  lemma OffersOption(options: seq<Choice>)
    requires AllowOption(options).Some?
    ensures exists o :: 0 <= o < |options| && options[o].id == AllowOption(options).value
  {
    var kind := if FirstOfKind(options, "allow_once").Some? then "allow_once" else "allow_always";
    var o :| 0 <= o < |options| && options[o].kind == kind && options[o].id == FirstOfKind(options, kind).value;
    assert options[o].id == AllowOption(options).value;
  }

  lemma AutomaticAnswers(cfg: Config, j: Journal, now: int)
    requires Inv(cfg, j)
    ensures var s := AutomaticApprovals(cfg, j, now); AnswersWell(j, s.journal, s.value, now)
  {
    var rows := Open(j, now, |j.approvals|);
    OpenQueried(j, now, |j.approvals|);
    AutoAnswers(cfg, j, rows);
    var s := AutomaticApprovals(cfg, j, now);
    forall e | e in s.value ensures Justified(j.approvals, e, now) {
      PickJustified(j, now, rows, s.value, e);
    }
    WereOpen(j, rows, s.value);
  }

  lemma PickJustified(j: Journal, now: int, rows: seq<ApprovalRow>, effects: seq<Effect>, e: Effect)
    requires rows == Open(j, now, |j.approvals|) && PicksAllowed(rows, effects) && e in effects
    ensures Justified(j.approvals, e, now)
  {
    var i :| 0 <= i < |rows| && Picks(rows[i], e);
    assert rows[i] in rows;
    var o :| 0 <= o < |j.approvals| && j.approvals[o] == rows[i] && IsOpen(j, rows[i], now);
    OffersOption(rows[i].options);
    assert JustifiedBy(j.approvals[o], e, now);
  }

  lemma WereOpen(j: Journal, rows: seq<ApprovalRow>, effects: seq<Effect>)
    requires Queried(j, rows) && forall e :: e in effects ==> exists i :: 0 <= i < |rows| && AnswersRow(rows[i], e)
    ensures forall q :: CountAnswers(effects, q) > 0 ==> Unanswered(j.approvals, q)
  {
    forall q | CountAnswers(effects, q) > 0 ensures Unanswered(j.approvals, q) {
      if forall i :: 0 <= i < |rows| ==> rows[i].request != q {
        NotAnswered(rows, effects, q);
      }
      var i :| 0 <= i < |rows| && rows[i].request == q;
      var o :| 0 <= o < |j.approvals| && j.approvals[o] == rows[i] && !rows[i].consumed;
      assert j.approvals[o].request == q;
    }
  }

  lemma ExpiryAnswers(cfg: Config, j: Journal, now: int)
    requires Inv(cfg, j)
    ensures var s := ExpireApprovals(cfg, j, now); AnswersWell(j, s.journal, s.value, now)
  {
    var rows := Expired(j, now, |j.approvals|);
    ExpiredQueried(j, now, |j.approvals|);
    ExpireAnswers(cfg, j, rows);
    var s := ExpireApprovals(cfg, j, now);
    forall e | e in s.value ensures Justified(j.approvals, e, now) {
      var i :| 0 <= i < |rows| && AnswersRow(rows[i], e);
      assert rows[i] in rows;
      var o :| 0 <= o < |j.approvals| && j.approvals[o] == rows[i] && HasExpired(j, rows[i], now);
      assert JustifiedBy(j.approvals[o], e, now);
    }
    WereOpen(j, rows, s.value);
  }

  lemma {:induction false} ResumeOnlyStarts(cfg: Config, j: Journal, convs: seq<ConvKey>)
    ensures forall e :: e in ResumeAll(cfg, j, convs).value ==> e.Start?
    decreases |convs|
  {
    if convs != [] { ResumeOnlyStarts(cfg, j, convs[..|convs| - 1]); }
  }

  lemma {:induction false} ReconcileOnlyCancels(cfg: Config, j: Journal, runs: seq<RunId>, room: RoomSnapshot)
    ensures forall e :: e in ReconcileAll(cfg, j, runs, room).value ==> e.Cancel?
    decreases |runs|
  {
    if runs != [] { ReconcileOnlyCancels(cfg, j, runs[..|runs| - 1], room); }
  }

  lemma NextAnswers(cfg: Config, j: Journal, op: Op)
    requires Inv(cfg, j)
    ensures AnswersWell(j, Next(cfg, j, op).journal, Next(cfg, j, op).value, TimeOf(op))
  {
    match op
    case Message(event, room, history, now) =>
      MessageAnswers(cfg, j, event, room, history, now);
      NoAnswers(j, j, [], now);
    case Automatic(now) => AutomaticAnswers(cfg, j, now);
    case Expire(now) => ExpiryAnswers(cfg, j, now);
    case Resume =>
      ResumeOnlyStarts(cfg, j, LeftoverConvs(j, |j.steers|));
      NoAnswers(j, Next(cfg, j, op).journal, Next(cfg, j, op).value, 0);
    case Reconcile(id, room) =>
      ReconcileOnlyCancels(cfg, j, EngagedRuns(j, id, |j.runs|), room);
      NoAnswers(j, Next(cfg, j, op).journal, Next(cfg, j, op).value, 0);
    case _ => NoAnswers(j, Next(cfg, j, op).journal, [], 0);
  }

  // ---------------------------------------------------------------- whole histories

  /** Each request is answered at most once over the whole history, and an answered one stays closed. */
  lemma {:induction false} AnsweredOnce(cfg: Config, ops: seq<Op>, j: Journal, q: RequestId)
    requires Lives(cfg, ops, j)
    ensures CountAnswers(Effects(cfg, ops), q) <= 1
    ensures CountAnswers(Effects(cfg, ops), q) == 1 ==> Closed(j.approvals, q) && !Unanswered(j.approvals, q)
    decreases |ops|
  {
    if ops != [] {
      var front, op := ops[..|ops| - 1], ops[|ops| - 1];
      var i, step := After(cfg, front), Next(cfg, After(cfg, front), op);
      AnsweredOnce(cfg, front, i, q);
      Reachable(cfg, front, i);
      NextGood(cfg, i, op);
      NextAnswers(cfg, i, op);
      AnsweredAgain(cfg, i, j, Effects(cfg, front), step.value, TimeOf(op), q);
    }
  }

  lemma AnsweredAgain(cfg: Config, i: Journal, j: Journal, before: seq<Effect>, effects: seq<Effect>, now: int, q: RequestId)
    requires AnswersWell(i, j, effects, now) && ApprovalsGrow(i.approvals, j.approvals) && ApprovalRowsOk(j.runs, j.approvals, j.decisions)
    requires CountAnswers(before, q) <= 1 && (CountAnswers(before, q) == 1 ==> Closed(i.approvals, q) && !Unanswered(i.approvals, q))
    ensures CountAnswers(before + effects, q) <= 1
    ensures CountAnswers(before + effects, q) == 1 ==> Closed(j.approvals, q) && !Unanswered(j.approvals, q)
  {
    CountAppend(before, effects, q);
    if CountAnswers(before, q) == 1 { ClosedStays(i.approvals, j.approvals, q); }
    OnceClosed(j, q);
  }

  lemma OnceClosed(j: Journal, q: RequestId)
    requires ApprovalRowsOk(j.runs, j.approvals, j.decisions)
    ensures !(Closed(j.approvals, q) && Unanswered(j.approvals, q))
  {}

  /** Every answer ever given was called for at the moment it was given. */
  lemma AnswersJustified(cfg: Config, ops: seq<Op>, j: Journal, op: Op, e: Effect)
    requires Lives(cfg, ops, j) && e in Next(cfg, j, op).value
    ensures Justified(j.approvals, e, TimeOf(op))
  {
    Reachable(cfg, ops, j);
    NextAnswers(cfg, j, op);
  }

  predicate WaitsForOne(j: Journal, r: RunId) {
    exists i :: 0 <= i < |j.approvals| && j.approvals[i].run == r && !j.approvals[i].consumed
  }

  /** In every reachable journal a run waits exactly while one of its requests is unanswered. */
  lemma WaitingMeansUnanswered(cfg: Config, ops: seq<Op>, j: Journal, r: RunId)
    requires Lives(cfg, ops, j) && IsRun(j.runs, r)
    ensures j.runs[r].status.WaitingApproval? <==> WaitsForOne(j, r)
  {
    Reachable(cfg, ops, j);
  }
}
