/**
 What each move of the system comes to, in terms of runs, follow-ups, workers and queues. There are many moves and few
 kinds: statuses settle, a message is taken in, leftovers are resumed, an effect is carried out, a worker makes a pass,
 an update is recorded, the process closes or crashes. What every interleaving keeps is proved once per kind. Each move
 also commits at most one transaction, so a journal under any interleaving has a history.
 */
module Moves {
  import opened Model
  import opened Journal
  import opened Rules
  import opened Invariants
  import opened Steps
  import opened EventSteps
  import opened Recovery
  import opened History
  import opened TurnLoop
  import opened Handing
  import opened Protocol
  import opened Delivery
  import opened SoftSteps
  import opened DeliverySteps
  import Frames

  // ---------------------------------------------------------------- the kinds of move

  ghost predicate SameQueues(s: Sys, t: Sys) {
    t.links == s.links && t.updates == s.updates && t.handed == s.handed
  }

  /** Statuses move among active ones, follow-ups are dropped, and nothing is started or steered. */
  ghost predicate Settles(s: Sys, t: Sys) {
    && Soft(s.j, t.j) && SameQueues(s, t) && t.closing == s.closing
    && (t.todo == s.todo || (s.todo == [] && Harmless(t.todo) && CancelsStopped(t.j, t.todo)))
    && (t.stage.Resumed? ==> s.stage.Resumed? && t.todo == s.todo)
  }

  /** A message is taken in once leftovers are out of its way. */
  ghost predicate TakesIn(cfg: Config, s: Sys, t: Sys) {
    && s.todo == [] && !s.closing && !t.closing && s.stage.Resumed? && t.stage.Free? && SameQueues(s, t)
    && exists e :: MessageEffect(cfg, s.j, t.j, e, t.todo)
  }

  /** Every leftover becomes part of a continuation. */
  ghost predicate Resumes(cfg: Config, s: Sys, t: Sys) {
    && s.todo == [] && !s.closing && !t.closing && SameQueues(s, t)
    && t.j == ResumePending(cfg, s.j).journal && t.todo == ResumePending(cfg, s.j).value
  }

  ghost predicate SendsTo(s: Sys, t: Sys, r: RunId, c: Command) {
    Sends(s, t, r, c) && !s.todo[0].Start? && (c.CancelRun? ==> s.todo[0] == Effect.Cancel(r))
  }

  ghost predicate SendsOn(s: Sys, t: Sys) {
    t.closing == s.closing && t.stage == s.stage && exists r, c :: SendsTo(s, t, r, c)
  }

  /** The runner drops what it still had to do. */
  ghost predicate GivesUp(s: Sys, t: Sys) {
    t.j == s.j && SameQueues(s, t) && t.todo == [] && NoSteers(s.todo) && t.stage.Free? && t.closing == s.closing
  }

  ghost predicate StartsRun(cfg: Config, s: Sys, t: Sys, r: RunId, spawned: bool) {
    && s.todo != [] && s.todo[0] == Start(r) && Dispatches(cfg, s, t, r, spawned)
    && (t.todo == s.todo[1..] || t.todo == []) && t.closing == s.closing && (t.stage == s.stage || t.stage.Free?)
  }

  ghost predicate Starts(cfg: Config, s: Sys, t: Sys) {
    exists r, spawned :: StartsRun(cfg, s, t, r, spawned)
  }

  /** A run without a worker is cancelled: it ends, or had ended already. */
  ghost predicate Cancels(s: Sys, t: Sys) {
    && s.todo != [] && s.todo[0].Cancel? && t.todo == s.todo[1..] && NoSteers(s.todo) && t.closing == s.closing && t.stage == s.stage
    && ((t.j == s.j && SameQueues(s, t)) || Concludes(s, t, s.todo[0].run, Interrupted))
  }

  /** The head of the updates is journaled. */
  ghost predicate Records(s: Sys, t: Sys) {
    && s.todo == [] && t.todo == [] && s.stage.Free? && t.stage.Free? && t.closing == s.closing
    && (Notes1(s, t) || exists r, status :: Concludes(s, t, r, status))
  }

  ghost predicate WorksOn(s: Sys, t: Sys, r: RunId, input: Input, out: Out) {
    Passes(s, t, r, input, out) && (input == Read(None) ==> s.closing)
  }

  ghost predicate Works(s: Sys, t: Sys) {
    t.closing == s.closing && t.stage == s.stage && exists r, input, out :: WorksOn(s, t, r, input, out)
  }

  ghost predicate Closes(s: Sys, t: Sys) {
    s.todo == [] && s.stage.Free? && t == s.(links := CancelAll(s.links), closing := true)
  }

  /** `k` is `j` after a restart: what was active is interrupted, and what was pending is cut off. */
  ghost predicate Restarts(j: Journal, k: Journal) {
    && k.inputs == j.inputs && |k.runs| == |j.runs| && k.steers == CutOffSteers(j.steers)
    && (forall r :: IsRun(j.runs, r) ==>
          && k.runs[r].conv == j.runs[r].conv
          && k.runs[r].status == if j.runs[r].status.Active() then Interrupted else j.runs[r].status)
  }

  /** What the journal may have come to when the process ends: some of an operation's commits have been made. */
  ghost predicate CrashesAt(cfg: Config, s: Sys, mid: Journal) {
    && LifeOk(cfg, mid) && Grows(s.j, mid)
    && (Soft(s.j, mid) || (s.todo == [] && !s.closing && exists convs :: mid == ResumeAll(cfg, s.j, convs).journal))
  }

  ghost predicate Crashes(cfg: Config, s: Sys, t: Sys) {
    && t.links == map[] && t.updates == [] && t.todo == [] && t.stage.Free? && !t.closing && t.handed == s.handed
    && exists mid :: CrashesAt(cfg, s, mid) && Restarts(mid, t.j)
  }

  ghost predicate Shape(cfg: Config, s: Sys, t: Sys) {
    || Settles(s, t) || TakesIn(cfg, s, t) || Resumes(cfg, s, t)
    || SendsOn(s, t) || GivesUp(s, t) || Starts(cfg, s, t) || Cancels(s, t)
    || Records(s, t) || Works(s, t) || Closes(s, t) || Crashes(cfg, s, t)
  }

  ghost predicate SysInv(cfg: Config, s: Sys) {
    Inv(cfg, s.j) && SysOk(cfg, s)
  }

  /** A message being taken in comes from the room its event belongs to. */
  predicate StageOk(cfg: Config, s: Sys) {
    !s.stage.Free? ==> s.stage.event.room == cfg.home(s.stage.event.event)
  }

  // ---------------------------------------------------------------- timers and transport

  lemma AutoSettles(cfg: Config, j: Journal, now: int)
    requires Inv(cfg, j)
    ensures SettlesAs(j, AutomaticApprovals(cfg, j, now))
  {
    OpenQueried(j, now, |j.approvals|);
    AutoAllSoft(cfg, j, Open(j, now, |j.approvals|));
    AutoHarmless(cfg, j, Open(j, now, |j.approvals|));
  }

  lemma ExpireSettles(cfg: Config, j: Journal, now: int)
    ensures SettlesAs(j, ExpireApprovals(cfg, j, now))
  {
    ExpireAllSoft(cfg, j, Expired(j, now, |j.approvals|));
    ExpireHarmless(cfg, j, Expired(j, now, |j.approvals|));
  }

  lemma ReconcileSettles(cfg: Config, j: Journal, id: RoomId, room: RoomSnapshot)
    ensures SettlesAs(j, ReconcileRoom(cfg, j, id, room))
  {
    ReconcileAllSoft(cfg, j, EngagedRuns(j, id, |j.runs|), room);
    ReconcileHarmless(cfg, j, EngagedRuns(j, id, |j.runs|), room);
  }

  ghost predicate SettlesAs(j: Journal, done: Step<seq<Effect>>) {
    Soft(j, done.journal) && Harmless(done.value) && CancelsStopped(done.journal, done.value)
  }

  /** A timer's transaction settles follow-ups or resumes them all. */
  ghost predicate TimerDone(cfg: Config, j: Journal, op: Op, done: Step<seq<Effect>>) {
    if op.Resume? then done == ResumePending(cfg, j) else SettlesAs(j, done)
  }

  lemma TimerDoes(cfg: Config, j: Journal, op: Op)
    requires Inv(cfg, j) && OfTimers(op)
    ensures TimerDone(cfg, j, op, Next(cfg, j, op))
  {
    match op
    case Automatic(now) => AutoSettles(cfg, j, now);
    case Expire(now) => ExpireSettles(cfg, j, now);
    case Reconcile(id, room) => ReconcileSettles(cfg, j, id, room);
    case Resume =>
  }

  /** `t` is `s` with this done, and its effects to be carried out. */
  predicate DoneTo(s: Sys, t: Sys, done: Step<seq<Effect>>, stage: Stage) {
    t == s.(j := done.journal, todo := done.value, stage := stage)
  }

  lemma TimerShape(cfg: Config, s: Sys, t: Sys, op: Op, done: Step<seq<Effect>>, stage: Stage)
    requires Ready(s) && TimerDone(cfg, s.j, op, done) && DoneTo(s, t, done, stage) && (stage.Resumed? ==> op.Resume?)
    ensures Shape(cfg, s, t)
  {
    if op.Resume? { assert Resumes(cfg, s, t); } else { assert Settles(s, t); }
  }

  lemma MessageShape(cfg: Config, s: Sys, t: Sys, event: Incoming, done: Step<seq<Effect>>)
    requires Ready(s) && MessageDone(cfg, s.j, event, done) && DoneTo(s, t, done, Free) && (IsCommand(event.body) || s.stage.Resumed?)
    ensures Shape(cfg, s, t)
  {
    if IsCommand(event.body) { assert Settles(s, t); } else { assert TakesIn(cfg, s, t); }
  }

  lemma AsideShape(cfg: Config, s: Sys, t: Sys, op: Op)
    requires OfTransport(op) && Touches(cfg, op, s.j, t.j) && t == s.(j := t.j)
    ensures Shape(cfg, s, t)
  {
    SameRuns(s.j, t.j);
    assert Settles(s, t);
  }

  // ---------------------------------------------------------------- the runner

  /** `t` is `s` with the first thing to do done. */
  predicate Applies(cfg: Config, s: Sys, t: Sys, spawned: bool) {
    s.todo != [] && t == ApplyOne(cfg, s, spawned)
  }

  predicate StartsNow(cfg: Config, s: Sys, t: Sys, r: RunId, spawned: bool) {
    s.todo != [] && s.todo[0] == Start(r) && t == StartRun(cfg, s.(todo := s.todo[1..]), r, spawned)
  }

  predicate CancelsNow(cfg: Config, s: Sys, t: Sys, r: RunId) {
    s.todo != [] && s.todo[0] == Effect.Cancel(r) && t == CancelRunNow(cfg, s.(todo := s.todo[1..]), r)
  }

  /** `t` is `s` with the oldest update journaled. */
  predicate RecordsNow(cfg: Config, s: Sys, t: Sys, now: int) {
    s.updates != [] && s.todo == [] && s.stage.Free? && t == RecordOne(cfg, s, now)
  }

  predicate WorksNow(s: Sys, t: Sys, r: RunId, input: Input) {
    && r in s.links && Enabled(s.links[r].worker, input) && Reads(s.links[r].queue, input)
    && t == WorkOne(s, r, input) && (input == Read(None) ==> s.closing)
  }

  predicate EndsRun(j: Journal, k: Journal, r: RunId, status: Status)
    requires IsRun(j.runs, r)
  {
    k.runs == SetStatus(j.runs, r, status) && k.inputs == j.inputs && k.steers == j.steers
  }

  lemma InterruptEffect(cfg: Config, j: Journal, r: RunId)
    ensures var k := OrElse(j, OnAgentEvent(cfg, j, Finished(r, Interrupted), 0)).journal;
            || k == j
            || (IsRun(j.runs, r) && j.runs[r].status.Active() && EndsRun(j, k, r, Interrupted))
  {
    if IsRun(j.runs, r) && j.runs[r].status.Active() { Frames.FinishFrame(j, r, j.runs[r].conv, Interrupted); }
  }

  lemma StartShape(cfg: Config, s: Sys, t: Sys, r: RunId, spawned: bool)
    requires SysOk(cfg, s) && StartsNow(cfg, s, t, r, spawned)
    ensures Shape(cfg, s, t)
  {
    assert s.todo[0].Start?;
    if Started(s.j, r).Failure? { assert GivesUp(s, t); } else { assert StartsRun(cfg, s, t, r, spawned); }
  }

  lemma CancelShape(cfg: Config, s: Sys, t: Sys, r: RunId)
    requires SysOk(cfg, s) && CancelsNow(cfg, s, t, r)
    ensures Shape(cfg, s, t)
  {
    assert s.todo[0].Cancel?;
    if r in s.links {
      assert SendsTo(s, t, r, CancelRun);
    } else {
      InterruptEffect(cfg, s.j, r);
      CancelEnds(cfg, s, t, r);
    }
  }

  lemma CancelEnds(cfg: Config, s: Sys, t: Sys, r: RunId)
    requires s.todo != [] && s.todo[0] == Effect.Cancel(r) && NoSteers(s.todo) && r !in s.links && t == s.(j := t.j, todo := s.todo[1..])
    requires t.j == s.j || (IsRun(s.j.runs, r) && s.j.runs[r].status.Active() && EndsRun(s.j, t.j, r, Interrupted))
    ensures Cancels(s, t)
  {
    assert s.links - {r} == s.links;
  }

  lemma ApplyShape(cfg: Config, s: Sys, t: Sys, spawned: bool)
    requires SysOk(cfg, s) && Applies(cfg, s, t, spawned)
    ensures Shape(cfg, s, t)
  {
    match s.todo[0]
    case Start(r) => StartShape(cfg, s, t, r, spawned);
    case Cancel(r) => CancelShape(cfg, s, t, r);
    case Steer(r, e, prompt) => assert SendsTo(s, t, r, SteerRun(e, prompt));
    case Decide(r, q, option) => assert SendsTo(s, t, r, DecideRun(q, option));
  }

  predicate HeadEnds(s: Sys) {
    s.updates != [] && s.updates[0].Finished?
  }

  lemma OutcomeShape(cfg: Config, s: Sys, t: Sys, now: int)
    requires SysOk(cfg, s) && HeadEnds(s) && RecordsNow(cfg, s, t, now)
    ensures Shape(cfg, s, t)
  {
    var r, status := s.updates[0].run, s.updates[0].status;
    assert Ends(s.updates, 0, r);
    assert r in s.links && !status.Active();
    OutcomeEffect(cfg, s.j, r, status, now);
    assert Concludes(s, t, r, status);
  }

  lemma OutcomeEffect(cfg: Config, j: Journal, r: RunId, status: Status, now: int)
    requires IsRun(j.runs, r) && j.runs[r].status.Active() && !status.Active()
    ensures var f := OnAgentEvent(cfg, j, Finished(r, status), now); f.Success? && EndsRun(j, f.value, r, status)
  {
    Frames.FinishFrame(j, r, j.runs[r].conv, status);
  }

  /** A cancelled run has nothing pending that was handed over, so ignoring its news loses nothing. */
  lemma NewsShape(cfg: Config, s: Sys, t: Sys, now: int)
    requires SysOk(cfg, s) && !HeadEnds(s) && RecordsNow(cfg, s, t, now)
    ensures Shape(cfg, s, t)
  {
    var event := s.updates[0];
    assert event.run in s.links;
    NewsEffect(cfg, s.j, event, now);
    SoftReflexive(s.j);
    if Soft(s.j, t.j) {
      forall i | PendingRow(t.j, i) && event == Steered(t.j.steers[i].run, t.j.steers[i].event)
        ensures Count(s.handed, t.j.steers[i].event) == 0
      {
        assert PendingRow(s.j, i) && t.j.steers[i] == s.j.steers[i];
        IgnoredNews(cfg, s, t, now, i);
      }
    }
    assert Notes1(s, t);
  }

  lemma IgnoredNews(cfg: Config, s: Sys, t: Sys, now: int, i: nat)
    requires SettlingOk(s) && s.updates != [] && t == RecordOne(cfg, s, now)
    requires PendingRow(s.j, i) && PendingRow(t.j, i) && s.updates[0] == Steered(s.j.steers[i].run, s.j.steers[i].event)
    requires IsRun(s.j.runs, s.j.steers[i].run) && s.j.runs[s.j.steers[i].run].status.Active()
    ensures Count(s.handed, s.j.steers[i].event) == 0
  {
    var r, e := s.j.steers[i].run, s.j.steers[i].event;
    assert Count(s.handed, e) > 0 ==> Settling(s, r, e);
    TakeTables(cfg, s.j, r, s.j.runs[r].conv, e);
  }

  lemma WorkShape(cfg: Config, s: Sys, t: Sys, r: RunId, input: Input)
    requires SysOk(cfg, s) && WorksNow(s, t, r, input)
    ensures Shape(cfg, s, t)
  {
    assert WorksOn(s, t, r, input, TurnLoop.Step(s.links[r].worker, input));
  }

  // ---------------------------------------------------------------- a crash

  lemma RecoverRestarts(cfg: Config, j: Journal, resets: seq<ConvKey>)
    requires forall i :: 0 <= i < |j.output| ==> IsRun(j.runs, j.output[i].run)
    ensures Restarts(j, Recover(cfg, ResetAll(j, resets)).journal)
  {
    Frames.ResetFrame(j, resets);
    var rows := RecoverShape(cfg, ResetAll(j, resets));
  }

  lemma TornAt(cfg: Config, s: Sys, torn: Torn)
    requires Inv(cfg, s.j) && (torn.Whole? || Ready(s))
    ensures CrashesAt(cfg, s, TornBy(cfg, s.j, torn))
    ensures var mid := TornBy(cfg, s.j, torn); forall i :: 0 <= i < |mid.output| ==> IsRun(mid.runs, mid.output[i].run)
  {
    TornFollows(cfg, s.j, torn);
    if !torn.Resuming? { TornSoft(cfg, s.j, torn); }
  }

  lemma CrashShape(cfg: Config, s: Sys, t: Sys, torn: Torn, resets: seq<ConvKey>)
    requires Inv(cfg, s.j) && (torn.Whole? || Ready(s))
    requires t == Sys(Restarted(cfg, s.j, torn, resets), map[], [], [], Free, false, s.handed)
    ensures Shape(cfg, s, t)
  {
    var mid := TornBy(cfg, s.j, torn);
    TornAt(cfg, s, torn);
    RecoverRestarts(cfg, mid, resets);
    assert Crashes(cfg, s, t);
  }

  // ---------------------------------------------------------------- every move

  lemma ProceedShape(cfg: Config, s: Sys, t: Sys)
    requires SysInv(cfg, s) && StageOk(cfg, s) && Makes(cfg, s, Proceed, t)
    ensures Shape(cfg, s, t)
  {
    var event, room, history, now := s.stage.event, s.stage.room, s.stage.history, s.stage.now;
    if s.stage.Reconciled? && !IsCommand(event.body) {
      TimerShape(cfg, s, t, Op.Resume, ResumePending(cfg, s.j), t.stage);
    } else {
      MessageDoes(cfg, s.j, event, room, history, now);
      MessageShape(cfg, s, t, event, Heard(s.j, Handle(cfg, s.j, event, room, Some(history), now)));
    }
  }

  lemma OpShape(cfg: Config, s: Sys, t: Sys, m: Move)
    requires SysInv(cfg, s) && Makes(cfg, s, m, t) && (m.Arrive? || m.Timers? || m.Aside?)
    ensures Shape(cfg, s, t)
  {
    if m.Aside? {
      NextFrame(cfg, s.j, m.op);
      AsideShape(cfg, s, t, m.op);
    } else {
      var op := if m.Timers? then m.op else Reconcile(m.event.room, m.room);
      TimerDoes(cfg, s.j, op);
      TimerShape(cfg, s, t, op, Next(cfg, s.j, op), t.stage);
    }
  }

  lemma MoveShape(cfg: Config, s: Sys, m: Move, t: Sys)
    requires SysInv(cfg, s) && StageOk(cfg, s) && Makes(cfg, s, m, t)
    ensures Shape(cfg, s, t)
  {
    match m
    case Proceed => ProceedShape(cfg, s, t);
    case Arrive(_, _, _, _) => OpShape(cfg, s, t, m);
    case Timers(_) => OpShape(cfg, s, t, m);
    case Aside(_) => OpShape(cfg, s, t, m);
    case _ => RunnerShape(cfg, s, m, t);
  }

  lemma RunnerShape(cfg: Config, s: Sys, m: Move, t: Sys)
    requires SysInv(cfg, s) && Makes(cfg, s, m, t) && (m.Apply? || m.Record? || m.Work? || m.Close? || m.Crash?)
    ensures Shape(cfg, s, t)
  {
    if m.Apply? {
      ApplyMade(cfg, s, m, t);
      ApplyShape(cfg, s, t, m.spawned);
    } else if m.Record? {
      RecordMade(cfg, s, m, t);
      RecordShape(cfg, s, t, m.now);
    } else {
      OtherShape(cfg, s, m, t);
    }
  }

  lemma OtherShape(cfg: Config, s: Sys, m: Move, t: Sys)
    requires SysInv(cfg, s) && Makes(cfg, s, m, t) && (m.Work? || m.Close? || m.Crash?)
    ensures Shape(cfg, s, t)
  {
    if m.Work? {
      WorkShape(cfg, s, t, m.run, m.input);
    } else if m.Close? {
      assert Closes(s, t);
    } else {
      CrashShape(cfg, s, t, m.torn, m.resets);
    }
  }

  lemma RecordShape(cfg: Config, s: Sys, t: Sys, now: int)
    requires SysOk(cfg, s) && RecordsNow(cfg, s, t, now)
    ensures Shape(cfg, s, t)
  {
    if HeadEnds(s) { OutcomeShape(cfg, s, t, now); } else { NewsShape(cfg, s, t, now); }
  }

  // ---------------------------------------------------------------- the journal under every move

  /** A conversation keeps the configuration it was admitted under; a new one gets the present one. */
  predicate ConvsKeep(cfg: Config, j: Journal, k: Journal) {
    forall c :: c in k.convs ==>
      (c in j.convs && k.convs[c].policy == j.convs[c].policy) || (c !in j.convs && k.convs[c].policy == cfg.binding(c))
  }

  ghost predicate JournalKept(cfg: Config, j: Journal, k: Journal) {
    Good(cfg, j, k) && ConvsKeep(cfg, j, k)
  }

  /** The transaction a move makes, if it makes one. */
  function OpOf(s: Sys, m: Move): Option<Op> {
    match m
    case Arrive(event, room, _, _) => Some(Reconcile(event.room, room))
    case Proceed =>
      (match s.stage
       case Reconciled(event, room, history, now) => Some(if IsCommand(event.body) then Message(event, room, history, now) else Op.Resume)
       case Resumed(event, room, history, now) => Some(Message(event, room, history, now))
       case Free => None)
    case Timers(op) => Some(op)
    case Aside(op) => Some(op)
    case Apply(_) => if s.todo == [] then None else EffectOp(s, s.todo[0])
    case Record(now) => if s.updates == [] then None else Some(Op.Worker(s.updates[0], now))
    case Crash(torn, resets) => Some(Restart(torn, resets))
    case _ => None
  }

  function EffectOp(s: Sys, effect: Effect): Option<Op> {
    match effect
    case Start(r) => Some(Dispatch(r))
    case Cancel(r) => if r in s.links then None else Some(Op.Worker(Finished(r, Interrupted), 0))
    case _ => None
  }

  ghost predicate Commits(cfg: Config, j: Journal, k: Journal, op: Option<Op>) {
    if op.None? then k == j else Genuine(cfg, op.value) && k == Next(cfg, j, op.value).journal
  }

  lemma ApplyCommits(cfg: Config, s: Sys, t: Sys, spawned: bool)
    requires Applies(cfg, s, t, spawned)
    ensures Commits(cfg, s.j, t.j, EffectOp(s, s.todo[0])) && (t.stage == s.stage || t.stage.Free?)
  {}

  /** Every move makes at most one transaction. */
  lemma MoveCommits(cfg: Config, s: Sys, m: Move, t: Sys)
    requires Makes(cfg, s, m, t) && StageOk(cfg, s)
    ensures Commits(cfg, s.j, t.j, OpOf(s, m)) && StageOk(cfg, t)
  {
    if m.Apply? {
      ApplyMade(cfg, s, m, t);
      ApplyCommits(cfg, s, t, m.spawned);
    }
  }

  lemma OpKept(cfg: Config, j: Journal, k: Journal, op: Option<Op>)
    requires Inv(cfg, j) && Commits(cfg, j, k, op)
    ensures JournalKept(cfg, j, k)
  {
    if op.None? {
      OnwardReflexive(j);
    } else {
      NextGood(cfg, j, op.value);
      NextFrame(cfg, j, op.value);
    }
  }

  lemma ApplyMade(cfg: Config, s: Sys, m: Move, t: Sys)
    requires m.Apply? && Makes(cfg, s, m, t)
    ensures Applies(cfg, s, t, m.spawned)
  {}

  lemma RecordMade(cfg: Config, s: Sys, m: Move, t: Sys)
    requires m.Record? && Makes(cfg, s, m, t)
    ensures RecordsNow(cfg, s, t, m.now)
  {}

  /** Every move is good for the journal. */
  lemma MoveKept(cfg: Config, s: Sys, m: Move, t: Sys)
    requires Inv(cfg, s.j) && StageOk(cfg, s) && Makes(cfg, s, m, t)
    ensures JournalKept(cfg, s.j, t.j) && StageOk(cfg, t)
  {
    MoveCommits(cfg, s, m, t);
    OpKept(cfg, s.j, t.j, OpOf(s, m));
  }
}
