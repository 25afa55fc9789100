/** Whole histories of the bridge: any transactions, in any order, with restarts anywhere. */
module History {
  import opened Model
  import opened Context
  import opened Journal
  import opened Rules
  import opened Invariants
  import opened Steps
  import opened EventSteps
  import opened Recovery
  import Frames
  import Reactions

  datatype Op =
    | Message(event: Incoming, room: RoomSnapshot, history: seq<Incoming>, now: int)
    | Dispatch(run: RunId)
    | Worker(happened: AgentEvent, now: int)
    | Automatic(now: int)
    | Expire(now: int)
    | Resume
    | Reconcile(id: RoomId, room: RoomSnapshot)
    | Acknowledge(txn: Txn, sent: EventId)
    | Unreact(row: nat, sent: EventId)
    | Say(run: RunId, text: string)
    | Refuse(txn: Txn)
    | Restart(torn: Torn, resets: seq<ConvKey>)

  /** The homeserver gives every event id to one room. */
  predicate Genuine(cfg: Config, op: Op) {
    op.Message? ==> op.event.room == cfg.home(op.event.event)
  }

  function OrElse(j: Journal, r: Result<Journal, Error>): Step<seq<Effect>> {
    match r
    case Success(k) => Step(k, [])
    case Failure(_) => Step(j, [])
  }

  function Heard(j: Journal, r: Result<Step<Handled>, Error>): Step<seq<Effect>> {
    match r
    case Success(s) => Step(s.journal, s.value.effects)
    case Failure(_) => Step(j, [])
  }

  function Said(j: Journal, r: Result<Step<(ConvKey, seq<Txn>)>, Error>): Step<seq<Effect>> {
    match r
    case Success(s) => Step(s.journal, [])
    case Failure(_) => Step(j, [])
  }

  /** One transaction; a failing one leaves the journal as it was. */
  ghost function Next(cfg: Config, j: Journal, op: Op): Step<seq<Effect>> {
    match op
    case Message(event, room, history, now) => Heard(j, Handle(cfg, j, event, room, Some(history), now))
    case Dispatch(run) => OrElse(j, Started(j, run))
    case Worker(event, now) => OrElse(j, OnAgentEvent(cfg, j, event, now))
    case Automatic(now) => AutomaticApprovals(cfg, j, now)
    case Expire(now) => ExpireApprovals(cfg, j, now)
    case Resume => ResumePending(cfg, j)
    case Reconcile(id, room) => ReconcileRoom(cfg, j, id, room)
    case Acknowledge(txn, e) => Step(Deliver(j, txn, e), [])
    case Unreact(row, e) => Step(RemoveReaction(j, row, e), [])
    case Say(run, text) => Said(j, ExplicitMessage(cfg, j, run, text))
    case Refuse(txn) => Step(Block(j, txn), [])
    case Restart(torn, resets) => Step(Restarted(cfg, j, torn, resets), [])
  }

  const EMPTY := Journal({}, map[], map[], [], map[], [], map[], 0, map[], [], map[], [], [], [], map[], {})

  ghost function After(cfg: Config, ops: seq<Op>): Journal {
    if ops == [] then EMPTY else Next(cfg, After(cfg, ops[..|ops| - 1]), ops[|ops| - 1]).journal
  }

  predicate AllGenuine(cfg: Config, ops: seq<Op>) {
    forall i :: 0 <= i < |ops| ==> Genuine(cfg, ops[i])
  }

  /** These transactions can happen one after the other, and this is the journal they leave. */
  ghost predicate Lives(cfg: Config, ops: seq<Op>, j: Journal) {
    AllGenuine(cfg, ops) && j == After(cfg, ops)
  }

  // ---------------------------------------------------------------- every transaction is good

  lemma EmptyGood(cfg: Config)
    ensures Inv(cfg, EMPTY)
  {}

  /** What keeps every invariant and only moves history on. */
  ghost predicate Good(cfg: Config, j: Journal, k: Journal) {
    Inv(cfg, k) && Onward(j, k)
  }

  lemma MessageOk(cfg: Config, j: Journal, event: Incoming, room: RoomSnapshot, history: seq<Incoming>, now: int)
    requires Inv(cfg, j) && event.room == cfg.home(event.event)
    ensures Good(cfg, j, Heard(j, Handle(cfg, j, event, room, Some(history), now)).journal)
  {
    OnwardReflexive(j);
    HandleGood(cfg, j, event, room, history, now);
  }

  lemma DispatchOk(cfg: Config, j: Journal, run: RunId)
    requires Inv(cfg, j)
    ensures Good(cfg, j, OrElse(j, Started(j, run)).journal)
  {
    OnwardReflexive(j);
    if Started(j, run).Success? {
      DispatchGood(cfg, j, run);
    }
  }

  lemma NewsOk(cfg: Config, j: Journal, event: AgentEvent, now: int)
    requires Inv(cfg, j)
    ensures Good(cfg, j, OrElse(j, OnAgentEvent(cfg, j, event, now)).journal)
  {
    OnwardReflexive(j);
    AgentEventGood(cfg, j, event, now);
  }

  lemma SayOk(cfg: Config, j: Journal, run: RunId, text: string)
    requires Inv(cfg, j)
    ensures Good(cfg, j, Said(j, ExplicitMessage(cfg, j, run, text)).journal)
  {
    OnwardReflexive(j);
    ExplicitGood(cfg, j, run, text);
  }

  lemma TimerOk(cfg: Config, j: Journal, op: Op)
    requires Inv(cfg, j)
    ensures op.Automatic? ==> Good(cfg, j, AutomaticApprovals(cfg, j, op.now).journal)
    ensures op.Expire? ==> Good(cfg, j, ExpireApprovals(cfg, j, op.now).journal)
    ensures op.Resume? ==> Good(cfg, j, ResumePending(cfg, j).journal)
    ensures op.Reconcile? ==> Good(cfg, j, ReconcileRoom(cfg, j, op.id, op.room).journal)
  {
    match op
    case Automatic(now) => AutomaticGood(cfg, j, now);
    case Expire(now) => ExpireGood(cfg, j, now);
    case Resume => ResumeAllGood(cfg, j, LeftoverConvs(j, |j.steers|));
    case Reconcile(id, room) => ReconcileAllGood(cfg, j, EngagedRuns(j, id, |j.runs|), room);
    case _ =>
  }

  lemma TransportOk(cfg: Config, j: Journal, op: Op)
    requires Inv(cfg, j)
    ensures op.Acknowledge? ==> Good(cfg, j, Deliver(j, op.txn, op.sent))
    ensures op.Unreact? ==> Good(cfg, j, RemoveReaction(j, op.row, op.sent))
    ensures op.Say? ==> Good(cfg, j, Said(j, ExplicitMessage(cfg, j, op.run, op.text)).journal)
    ensures op.Refuse? ==> Good(cfg, j, Block(j, op.txn))
    ensures op.Dispatch? ==> Good(cfg, j, OrElse(j, Started(j, op.run)).journal)
  {
    match op
    case Acknowledge(txn, e) => DeliverGood(cfg, j, txn, e);
    case Unreact(row, e) => RemoveGood(cfg, j, row, e);
    case Say(run, text) => SayOk(cfg, j, run, text);
    case Refuse(txn) => BlockGood(cfg, j, txn);
    case Dispatch(run) => DispatchOk(cfg, j, run);
    case _ =>
  }

  /** Every transaction keeps every invariant and only moves history on. */
  lemma NextGood(cfg: Config, j: Journal, op: Op)
    requires Inv(cfg, j) && Genuine(cfg, op)
    ensures Good(cfg, j, Next(cfg, j, op).journal)
  {
    match op
    case Message(event, room, history, now) => MessageOk(cfg, j, event, room, history, now);
    case Worker(event, now) => NewsOk(cfg, j, event, now);
    case Restart(torn, resets) => RestartGood(cfg, j, torn, resets);
    case _ => SmallGood(cfg, j, op);
  }

  lemma SmallGood(cfg: Config, j: Journal, op: Op)
    requires Inv(cfg, j) && !op.Message? && !op.Worker? && !op.Restart?
    ensures Good(cfg, j, Next(cfg, j, op).journal)
  {
    if op.Automatic? || op.Expire? || op.Resume? || op.Reconcile? { TimerOk(cfg, j, op); } else { TransportOk(cfg, j, op); }
  }

  /** What each kind of transaction leaves alone. */
  ghost predicate Touches(cfg: Config, op: Op, j: Journal, k: Journal) {
    && (!op.Message? ==> k.inbox == j.inbox && k.convs.Keys == j.convs.Keys && |k.steers| == |j.steers|)
    && (!op.Refuse? ==> k.failures == j.failures)
    && (!op.Worker? && !op.Restart? ==> k.output == j.output)
    && (forall c :: c in k.convs ==>
          (c in j.convs && k.convs[c].policy == j.convs[c].policy) || (c !in j.convs && k.convs[c].policy == cfg.binding(c)))
    && (op.Acknowledge? || op.Unreact? || op.Say? || op.Refuse? ==> k.runs == j.runs && k.inputs == j.inputs && k.steers == j.steers)
  }

  lemma MessageTouches(cfg: Config, op: Op, j: Journal)
    requires op.Message?
    ensures Touches(cfg, op, j, Heard(j, Handle(cfg, j, op.event, op.room, Some(op.history), op.now)).journal)
  {
    var r := Handle(cfg, j, op.event, op.room, Some(op.history), op.now);
    if r.Success? { Frames.MessageFrame(cfg, j, op.event, op.room, Some(op.history), op.now); }
  }

  lemma RestartTouches(cfg: Config, op: Op, j: Journal)
    requires op.Restart?
    ensures Touches(cfg, op, j, Restarted(cfg, j, op.torn, op.resets))
  {
    var i := TornBy(cfg, j, op.torn);
    Frames.TornFrame(cfg, j, op.torn);
    Frames.ResetFrame(i, op.resets);
    Frames.RecoverFrame(cfg, ResetAll(i, op.resets));
  }

  lemma WorkerTouches(cfg: Config, op: Op, j: Journal)
    requires op.Worker?
    ensures Touches(cfg, op, j, OrElse(j, OnAgentEvent(cfg, j, op.happened, op.now)).journal)
  {
    Frames.EventFrame(cfg, j, op.happened, op.now);
  }

  lemma TimerTouches(cfg: Config, op: Op, j: Journal)
    ensures op.Automatic? ==> Touches(cfg, op, j, AutomaticApprovals(cfg, j, op.now).journal)
    ensures op.Expire? ==> Touches(cfg, op, j, ExpireApprovals(cfg, j, op.now).journal)
    ensures op.Resume? ==> Touches(cfg, op, j, ResumePending(cfg, j).journal)
    ensures op.Reconcile? ==> Touches(cfg, op, j, ReconcileRoom(cfg, j, op.id, op.room).journal)
  {
    match op
    case Automatic(now) => Frames.AutoFrame(cfg, j, Open(j, now, |j.approvals|));
    case Expire(now) => Frames.ExpireFrame(cfg, j, Expired(j, now, |j.approvals|));
    case Resume => Frames.ResumeFrame(cfg, j, LeftoverConvs(j, |j.steers|));
    case Reconcile(id, room) => Frames.ReconcileFrame(cfg, j, EngagedRuns(j, id, |j.runs|), room);
    case _ =>
  }

  lemma TransportTouches(cfg: Config, op: Op, j: Journal)
    ensures op.Acknowledge? ==> Touches(cfg, op, j, Deliver(j, op.txn, op.sent))
    ensures op.Unreact? ==> Touches(cfg, op, j, RemoveReaction(j, op.row, op.sent))
  {
    if op.Acknowledge? { Frames.DeliverFrame(j, op.txn, op.sent); }
    if op.Unreact? { Frames.RemoveFrame(j, op.row, op.sent); }
  }

  lemma RunTouches(cfg: Config, op: Op, j: Journal)
    ensures op.Refuse? ==> Touches(cfg, op, j, Block(j, op.txn))
    ensures op.Dispatch? ==> Touches(cfg, op, j, OrElse(j, Started(j, op.run)).journal)
  {
    if op.Refuse? { Frames.BlockFrame(j, op.txn); }
    if op.Dispatch? { Frames.StartedFrame(j, op.run); }
  }

  lemma SayTouches(cfg: Config, op: Op, j: Journal)
    requires op.Say?
    ensures Touches(cfg, op, j, Said(j, ExplicitMessage(cfg, j, op.run, op.text)).journal)
  {
    Frames.ExplicitFrame(cfg, j, op.run, op.text);
  }

  lemma NextFrame(cfg: Config, j: Journal, op: Op)
    ensures Touches(cfg, op, j, Next(cfg, j, op).journal)
  {
    if op.Message? {
      MessageTouches(cfg, op, j);
    } else if op.Worker? {
      WorkerTouches(cfg, op, j);
    } else if op.Restart? {
      RestartTouches(cfg, op, j);
    } else if op.Say? {
      SayTouches(cfg, op, j);
    } else {
      TimerTouches(cfg, op, j);
      TransportTouches(cfg, op, j);
      RunTouches(cfg, op, j);
    }
  }

  lemma {:induction false} Reachable(cfg: Config, ops: seq<Op>, j: Journal)
    requires Lives(cfg, ops, j)
    ensures Inv(cfg, j)
    decreases |ops|
  {
    if ops == [] {
      EmptyGood(cfg);
    } else {
      var front := ops[..|ops| - 1];
      Reachable(cfg, front, After(cfg, front));
      NextGood(cfg, After(cfg, front), ops[|ops| - 1]);
    }
  }

  /** Any later journal of a history is onward from any earlier one. */
  lemma {:induction false} HistoryMovesOn(cfg: Config, earlier: seq<Op>, j: Journal, ops: seq<Op>, k: Journal)
    requires Lives(cfg, earlier, j) && Lives(cfg, ops, k) && earlier <= ops
    ensures Inv(cfg, j) && Good(cfg, j, k)
    decreases |ops|
  {
    Reachable(cfg, earlier, j);
    if earlier == ops {
      OnwardReflexive(j);
    } else {
      var front := ops[..|ops| - 1];
      var i := After(cfg, front);
      HistoryMovesOn(cfg, earlier, j, front, i);
      NextGood(cfg, i, ops[|ops| - 1]);
      OnwardTransitive(j, i, k);
    }
  }

  // ---------------------------------------------------------------- what a history never does

  /** One active run per conversation; the input of every run is known; a finished run stays finished as it was. */
  lemma RunsOverHistory(cfg: Config, earlier: seq<Op>, j: Journal, ops: seq<Op>, k: Journal, r: RunId)
    requires Lives(cfg, earlier, j) && Lives(cfg, ops, k) && earlier <= ops && IsRun(j.runs, r)
    ensures RunKept(j, k, r)
  {
    HistoryMovesOn(cfg, earlier, j, ops, k);
    forall o | IsRun(k.runs, o) && k.runs[o].status.Active() ensures ActiveIn(k.runs, k.runs[o].conv, o) {}
  }

  /** What becomes of a run between two journals. */
  ghost predicate RunKept(j: Journal, k: Journal, r: RunId) {
    && IsRun(j.runs, r) && IsRun(k.runs, r)
    && r in k.inputs && k.runs[r].conv == j.runs[r].conv
    && (!j.runs[r].status.Active() ==> k.runs[r].status == j.runs[r].status)
    && (j.runs[r].status.Cancelling? ==> k.runs[r].status.Cancelling? || !k.runs[r].status.Active())
    && (forall o :: IsRun(k.runs, o) && k.runs[o].conv == k.runs[r].conv && k.runs[o].status.Active() && k.runs[r].status.Active() ==> o == r)
  }

  /** Neither a new run nor a follow-up can meet a unique index, whatever came before, with context or without. */
  lemma InsertsNeverConflict(cfg: Config, ops: seq<Op>, j: Journal, event: Incoming, room: RoomSnapshot, context: Option<seq<Incoming>>, now: int)
    requires Lives(cfg, ops, j) && event.room == cfg.home(event.event)
    ensures Handle(cfg, j, event, room, context, now) != Failure(Conflict)
  {
    Reachable(cfg, ops, j);
    if context.Some? {
      HandleGood(cfg, j, event, room, context.value, now);
    } else {
      PlainNeverConflicts(cfg, j, event, room, now);
    }
  }

  lemma PlainNeverConflicts(cfg: Config, j: Journal, event: Incoming, room: RoomSnapshot, now: int)
    requires LifeOk(cfg, j) && event.room == cfg.home(event.event)
    ensures Handle(cfg, j, event, room, None, now) != Failure(Conflict)
  {
    if Admit(cfg, j, event, room).Admitted? && (event.room, event.event) !in j.inbox {
      forall i | 0 <= i < |j.steers| ensures j.steers[i].event != event.event {
        assert (j.runs[j.steers[i].run].conv.room, j.steers[i].event) in j.inbox;
      }
    }
  }

  /** Nor can a continuation: a resumed conversation has no other active run, before or after any of the others resume. */
  lemma ResumesNeverConflict(cfg: Config, ops: seq<Op>, j: Journal, convs: seq<ConvKey>, conv: ConvKey)
    requires Lives(cfg, ops, j)
    ensures var m := ResumeAll(cfg, j, convs).journal; OneActive(m.runs) && OneActive(ResumeOne(cfg, m, conv).journal.runs)
  {
    Reachable(cfg, ops, j);
    ResumeAllGood(cfg, j, convs);
    ResumeOneGood(cfg, ResumeAll(cfg, j, convs).journal, conv);
  }

  /** Two live batches of one conversation, one staged before the other. */
  ghost predicate LiveInTurn(j: Journal, earlier: EventId, later: EventId) {
    && Live(j, earlier) && Live(j, later)
    && j.batches[earlier].conv == j.batches[later].conv && j.batches[earlier].row < j.batches[later].row
  }

  /** The later batch quotes nothing the earlier one carries, and they do not both carry the baseline. */
  ghost predicate ToldApart(j: Journal, earlier: EventId, later: EventId) {
    earlier in j.batches && later in j.batches && Apart(j, earlier, later)
  }

  /**
   Nothing is told twice. Of two live batches of one conversation, whatever the later one quotes the earlier one
   does not carry, and at most one of them carries the baseline.
   */
  lemma ContextOnce(cfg: Config, ops: seq<Op>, j: Journal, earlier: EventId, later: EventId)
    requires Lives(cfg, ops, j) && LiveInTurn(j, earlier, later)
    ensures ToldApart(j, earlier, later)
  {
    Reachable(cfg, ops, j);
  }

  /** Both journals hold this batch, not another one for the same input. */
  predicate SameRow(j: Journal, k: Journal, e: EventId) {
    e in j.batches && e in k.batches && j.batches[e].row == k.batches[e].row
  }

  /** A batch that has stopped being live never becomes live again, through any races, resets, crashes and restarts. */
  lemma FadedForever(cfg: Config, earlier: seq<Op>, j: Journal, ops: seq<Op>, k: Journal, e: EventId)
    requires Lives(cfg, earlier, j) && Lives(cfg, ops, k) && earlier <= ops && SameRow(j, k, e) && !Live(j, e)
    ensures !Live(k, e)
  {
    HistoryMovesOn(cfg, earlier, j, ops, k);
  }

  // ---------------------------------------------------------------- no silent context loss

  /** What this conversation's agent session has really been told. */
  ghost function Told(j: Journal, conv: ConvKey): (s: set<Mark>)
  {
    (set e, m | e in j.batches && j.batches[e].conv == conv && j.batches[e].state.Told? && m in j.batches[e].events :: m)
    + (if exists e :: e in j.batches && j.batches[e].conv == conv && j.batches[e].state.Told? && j.batches[e].initial
       then Acknowledged(j.outbox, conv) else {})
  }

  ghost predicate Idle(j: Journal, conv: ConvKey) {
    (forall r :: !ActiveIn(j.runs, conv, r)) && (forall i :: !LeftoverOf(j, conv, i))
  }

  lemma IdleLive(cfg: Config, j: Journal, conv: ConvKey, e: EventId)
    requires Inv(cfg, j) && Idle(j, conv) && !Stale(j, conv) && e in j.batches && j.batches[e].conv == conv
    ensures Live(j, e) <==> j.batches[e].state.Told?
  {
    var b := j.batches[e];
    assert !ActiveIn(j.runs, conv, b.run);
    if b.state.Staged? && HasPendingSteer(j.steers, e) {
      var i :| 0 <= i < |j.steers| && j.steers[i].event == e && j.steers[i].run == b.run && !j.steers[i].status.Taken?;
      var k :| 0 <= k < |j.steers| && j.steers[k].event == e && j.steers[k].status.Pending?;
      assert i == k;
      assert !LeftoverOf(j, conv, k);
    }
  }

  lemma IdleSeen(cfg: Config, j: Journal, conv: ConvKey)
    requires Inv(cfg, j) && Idle(j, conv)
    ensures Seen(j, conv) == if Stale(j, conv) then {} else Told(j, conv)
  {
    if !Stale(j, conv) {
      forall e | e in j.batches && j.batches[e].conv == conv
        ensures Live(j, e) <==> j.batches[e].state.Told?
      {
        IdleLive(cfg, j, conv, e);
      }
      forall m
        ensures m in SeenInBatches(j, conv) <==> exists e :: e in j.batches && j.batches[e].conv == conv && j.batches[e].state.Told? && m in j.batches[e].events
      {}
    }
  }

  /** With nothing under way, what the ledger holds back is exactly what was told in this session. */
  lemma KnownIsTold(cfg: Config, ops: seq<Op>, j: Journal, conv: ConvKey)
    requires Lives(cfg, ops, j) && Idle(j, conv)
    ensures Seen(j, conv) == if Stale(j, conv) then {} else Told(j, conv)
  {
    Reachable(cfg, ops, j);
    IdleSeen(cfg, j, conv);
  }

  /** Supporting fact: a batch in flight belongs to a run that is still going. */
  lemma InFlightMeansActive(cfg: Config, ops: seq<Op>, j: Journal, e: EventId)
    requires Lives(cfg, ops, j) && e in j.batches && j.batches[e].state.InFlight?
    ensures ActiveIn(j.runs, j.batches[e].conv, j.batches[e].run)
  {
    Reachable(cfg, ops, j);
  }

  /** The prompt prepared for a request quotes this message. */
  ghost predicate Quotes(cfg: Config, j: Journal, event: Incoming, history: seq<Incoming>, said: Incoming) {
    && event.room in cfg.rooms
    && var p := PrepareContext(cfg, j, event, history);
       p.Success? && exists n :: 0 <= n < |p.value.events| - 1 && p.value.events[n] == MarkOf(said)
  }

  /** History holds a message that may be quoted to a request whose context can be prepared. */
  ghost predicate Offers(cfg: Config, j: Journal, event: Incoming, history: seq<Incoming>, said: Incoming) {
    && event.room in cfg.rooms && said in history
    && Quotable(cfg.rooms[event.room], event, said) && PrepareContext(cfg, j, event, history).Success?
  }

  /**
   So nothing is lost silently: with nothing under way, the next request quotes exactly those quotable messages the
   session has not been told, whatever became of the batches that carried them before.
   */
  lemma OfferedAgain(cfg: Config, ops: seq<Op>, j: Journal, event: Incoming, history: seq<Incoming>, said: Incoming, conv: ConvKey)
    requires Lives(cfg, ops, j) && Offers(cfg, j, event, history, said) && conv == ConversationOf(cfg, event) && Idle(j, conv)
    ensures Quotes(cfg, j, event, history, said) <==> Stale(j, conv) || MarkOf(said) !in Told(j, conv)
  {
    Reachable(cfg, ops, j);
    IdleSeen(cfg, j, conv);
    QuotesUnseen(cfg, j, event, history, said);
  }

  lemma QuotesUnseen(cfg: Config, j: Journal, event: Incoming, history: seq<Incoming>, said: Incoming)
    requires Offers(cfg, j, event, history, said)
    ensures Quotes(cfg, j, event, history, said) <==> MarkOf(said) !in Seen(j, ConversationOf(cfg, event))
  {
    var seen := Seen(j, ConversationOf(cfg, event));
    var g := Gather(cfg, cfg.rooms[event.room], event, history, seen).value;
    var events := PrepareContext(cfg, j, event, history).value.events;
    assert events == g.events + [Mark.Said(event.event)];
    var i :| 0 <= i < |history| && history[i] == said;
    if MarkOf(said) !in seen {
      var n :| 0 <= n < |g.events| && g.events[n] == MarkOf(said);
      assert events[n] == MarkOf(said);
    }
    if n :| 0 <= n < |events| - 1 && events[n] == MarkOf(said) { assert g.events[n] in g.events; }
  }

  /** Handled without its history, a message opens no run, queues no follow-up and stages no batch. */
  ghost predicate OpensNothing(cfg: Config, j: Journal, event: Incoming, room: RoomSnapshot, now: int) {
    var r := Handle(cfg, j, event, room, None, now);
    && r.Success?
    && |r.value.journal.runs| == |j.runs| && |r.value.journal.steers| == |j.steers| && r.value.journal.batches.Keys == j.batches.Keys
    && Frames.OpensNothing(r.value.value.effects)
  }

  /**
   History is fetched only when it will be used: without the need for it, a message has the same outcome with and
   without history, and opens nothing.
   */
  lemma ContextOnlyWhereNeeded(cfg: Config, j: Journal, event: Incoming, room: RoomSnapshot, history: seq<Incoming>, now: int)
    requires !NeedsContext(cfg, j, event, room)
    ensures Heard(j, Handle(cfg, j, event, room, None, now)) == Heard(j, Handle(cfg, j, event, room, Some(history), now))
    ensures OpensNothing(cfg, j, event, room, now)
  {
    var a := Admit(cfg, j, event, room);
    if a.Admitted? && (event.room, event.event) !in j.inbox {
      Frames.CommandFrame(cfg, Register(cfg, j, event, room, a.conv), a.conv, ParseCommand(event.body), now);
    }
  }

  // ---------------------------------------------------------------- reactions

  predicate SameMessage(outbox: seq<OutRow>, a: Txn, b: Txn) {
    Reacts(outbox, a) && Reacts(outbox, b) && outbox[a].reaction.value.event == outbox[b].reaction.value.event
  }

  /** Two reactions to one message are its eyes and its outcome, and an outcome says how the owning run ended. */
  ghost predicate EyesThenOutcome(j: Journal, a: Txn, b: Txn) {
    && SameMessage(j.outbox, a, b)
    && var x, y := j.outbox[a].reaction.value, j.outbox[b].reaction.value;
       && (a != b ==> (x.emoji.Eyes? <==> y.emoji.Terminal()))
       && (x.emoji.Terminal() ==> exists r :: Owns(j, r, x.event) && !j.runs[r].status.Active() && x.emoji == EmojiFor(j.runs[r].status))
  }

  /** A message gets at most one 👀 and at most one outcome, and an outcome says how its run ended. */
  lemma ReactionsOverHistory(cfg: Config, ops: seq<Op>, j: Journal, a: Txn, b: Txn)
    requires Lives(cfg, ops, j) && SameMessage(j.outbox, a, b)
    ensures EyesThenOutcome(j, a, b)
  {
    Reachable(cfg, ops, j);
    ReactedApart(j, a, b);
  }

  lemma ReactedApart(j: Journal, a: Txn, b: Txn)
    requires ReactionsOk(j) && SameMessage(j.outbox, a, b)
    ensures EyesThenOutcome(j, a, b)
  {
    assert a != b ==> !SameReport(j.outbox[a].reaction.value, j.outbox[b].reaction.value);
    if j.outbox[a].reaction.value.emoji.Terminal() {
      assert Reported(j, j.outbox[a].reaction.value.event, j.outbox[a].reaction.value.emoji);
    }
  }

  /**
   Eyes are marked for removal exactly when a later outcome on the same message is acknowledged, once, and are due
   for it only after they have been acknowledged themselves.
   */
  ghost predicate CleanedUp(j: Journal, eyes: Txn) {
    && (HasCleanup(j.cleanup, eyes) <==> exists k :: Superseded(j.outbox, k, eyes) && j.outbox[k].delivered.Some?)
    && (forall a, b :: 0 <= a < |j.cleanup| && 0 <= b < |j.cleanup| && j.cleanup[a].target == eyes == j.cleanup[b].target ==> a == b)
    && (forall i :: RemovalDue(j, i) && j.cleanup[i].target == eyes ==>
          && j.outbox[eyes].delivered.Some?
          && j.outbox[eyes].reaction.Some? && j.outbox[eyes].reaction.value.emoji.Eyes?
          && exists k :: Superseded(j.outbox, k, eyes) && j.outbox[k].delivered.Some?)
  }

  /** The removal of a 👀 does not depend on the order of the acknowledgements. */
  lemma CleanupOverHistory(cfg: Config, ops: seq<Op>, j: Journal, eyes: Txn)
    requires Lives(cfg, ops, j)
    ensures CleanedUp(j, eyes)
  {
    Reachable(cfg, ops, j);
    CleanupIsDue(j, eyes);
  }

  lemma CleanupIsDue(j: Journal, eyes: Txn)
    requires CleanupOk(j.outbox, j.cleanup)
    ensures CleanedUp(j, eyes)
  {
    forall i | RemovalDue(j, i) && j.cleanup[i].target == eyes
      ensures CleanupDue(j.outbox, eyes) && j.outbox[eyes].reaction.Some? && j.outbox[eyes].reaction.value.emoji.Eyes?
    {
      assert HasCleanup(j.cleanup, eyes);
      var k :| Superseded(j.outbox, k, eyes) && j.outbox[k].delivered.Some?;
    }
  }

  /** Two acknowledgements leave the same outbox and the same reactions to remove in either order. */
  lemma AcknowledgementsCommute(cfg: Config, ops: seq<Op>, j: Journal, a: Txn, ea: EventId, b: Txn, eb: EventId, t: Txn)
    requires Lives(cfg, ops, j) && a != b
    ensures var x, y := Deliver(Deliver(j, a, ea), b, eb), Deliver(Deliver(j, b, eb), a, ea);
            x.outbox == y.outbox && (HasCleanup(x.cleanup, t) <==> HasCleanup(y.cleanup, t))
  {
    Reachable(cfg, ops, j);
    DeliveriesCommute(j, a, ea, b, eb, t);
  }

  lemma DeliveriesCommute(j: Journal, a: Txn, ea: EventId, b: Txn, eb: EventId, t: Txn)
    requires ReactionsOk(j) && a != b
    ensures var x, y := Deliver(Deliver(j, a, ea), b, eb), Deliver(Deliver(j, b, eb), a, ea);
            x.outbox == y.outbox && (HasCleanup(x.cleanup, t) <==> HasCleanup(y.cleanup, t))
  {
    DeliverLeaves(j, a, ea);
    DeliverLeaves(Deliver(j, a, ea), b, eb);
    DeliverLeaves(j, b, eb);
    DeliverLeaves(Deliver(j, b, eb), a, ea);
    SentCommutes(j.outbox, a, ea, b, eb);
    SameCleanup(Deliver(Deliver(j, a, ea), b, eb), Deliver(Deliver(j, b, eb), a, ea), t);
  }

  lemma SentCommutes(outbox: seq<OutRow>, a: Txn, ea: EventId, b: Txn, eb: EventId)
    requires a != b
    ensures Sent(Sent(outbox, a, ea), b, eb) == Sent(Sent(outbox, b, eb), a, ea)
  {}

  lemma DeliverLeaves(j: Journal, txn: Txn, e: EventId)
    requires ReactionsOk(j)
    ensures ReactionsOk(Deliver(j, txn, e))
    ensures Deliver(j, txn, e).outbox == Sent(j.outbox, txn, e)
  {
    Reactions.DeliverKeeps(j, txn, e);
  }

  /** An outbox in which one row has been acknowledged, the first time only. */
  function Sent(outbox: seq<OutRow>, txn: Txn, e: EventId): seq<OutRow> {
    if txn < |outbox| && outbox[txn].delivered.None? then outbox[txn := outbox[txn].(delivered := Some(e))] else outbox
  }

  lemma SameCleanup(x: Journal, y: Journal, t: Txn)
    requires ReactionsOk(x) && ReactionsOk(y) && x.outbox == y.outbox
    ensures HasCleanup(x.cleanup, t) <==> HasCleanup(y.cleanup, t)
  {
    assert HasCleanup(x.cleanup, t) <==> CleanupDue(x.outbox, t);
    assert HasCleanup(y.cleanup, t) <==> CleanupDue(y.outbox, t);
  }
}
