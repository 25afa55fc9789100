/**
 The whole system: the journal, one worker per dispatched run, a command queue to each, one update queue back, and
 the effects the runner still has to carry out. Any interleaving of these is a run of the system.
 */
module Protocol {
  import opened Model
  import opened Journal
  import opened Rules
  import opened Recovery
  import opened History
  import opened TurnLoop
  import opened Handing

  datatype Link = Link(worker: Worker, queue: seq<Command>)

  /** Where the runner is in taking one message in: after reconciling its room, after resuming leftovers, or nowhere. */
  datatype Stage =
    | Free
    | Reconciled(event: Incoming, room: RoomSnapshot, history: seq<Incoming>, now: int)
    | Resumed(event: Incoming, room: RoomSnapshot, history: seq<Incoming>, now: int)

  /** `handed` lists every message put before an agent, as it happened, over all restarts. */
  datatype Sys = Sys(
    j: Journal,
    links: map<RunId, Link>,
    updates: seq<AgentEvent>,
    todo: seq<Effect>,
    stage: Stage,
    closing: bool,
    handed: seq<EventId>)

  const START := Sys(EMPTY, map[], [], [], Free, false, [])

  datatype Move =
    | Arrive(event: Incoming, room: RoomSnapshot, history: seq<Incoming>, now: int)
    | Proceed
    | Timers(op: Op)
    | Aside(op: Op)
    | Apply(spawned: bool)
    | Record(now: int)
    | Work(run: RunId, input: Input)
    | Close
    | Crash(torn: Torn, resets: seq<ConvKey>)

  predicate Alive(links: map<RunId, Link>, r: int) {
    r in links && !links[r].worker.phase.Over?
  }

  // ---------------------------------------------------------------- moves

  /** The messages a fresh run's prompt is made of: the follow-ups it continues, or its own request. */
  function TakenEvents(steers: seq<SteerRow>, r: RunId): seq<EventId> {
    if steers == [] then []
    else
      var last := steers[|steers| - 1];
      TakenEvents(steers[..|steers| - 1], r) + (if last.run == r && last.status.Taken? then [last.event] else [])
  }

  function Carried(j: Journal, r: RunId): seq<EventId> {
    var rows := TakenEvents(j.steers, r);
    rows + (if r in j.inputs && j.inputs[r] !in rows then [j.inputs[r]] else [])
  }

  function Send(links: map<RunId, Link>, r: RunId, c: Command): map<RunId, Link> {
    if Alive(links, r) then links[r := links[r].(queue := links[r].queue + [c])] else links
  }

  /** The runner gives up on what it was doing; the effects left over are forgotten. */
  function GiveUp(s: Sys): Sys {
    s.(todo := [], stage := Free)
  }

  function StartRun(cfg: Config, s: Sys, r: RunId, spawned: bool): Sys {
    match Started(s.j, r)
    case Failure(_) => GiveUp(s)
    case Success(k) =>
      if !spawned then GiveUp(s.(j := k))
      else s.(j := k, links := s.links[r := Link(NewWorker(r, cfg.steering, Carried(s.j, r), k.runs[r].prompt), [])])
  }

  /** A run without a worker has nothing to wait for. */
  function CancelRunNow(cfg: Config, s: Sys, r: RunId): Sys {
    if r in s.links then s.(links := Send(s.links, r, CancelRun))
    else s.(j := OrElse(s.j, OnAgentEvent(cfg, s.j, Finished(r, Interrupted), 0)).journal)
  }

  function ApplyOne(cfg: Config, s: Sys, spawned: bool): Sys
    requires s.todo != []
  {
    var t := s.(todo := s.todo[1..]);
    match s.todo[0]
    case Start(r) => StartRun(cfg, t, r, spawned)
    case Cancel(r) => CancelRunNow(cfg, t, r)
    case Steer(r, e, prompt) => t.(links := Send(t.links, r, SteerRun(e, prompt)))
    case Decide(r, q, option) => t.(links := Send(t.links, r, DecideRun(q, option)))
  }

  function RecordOne(cfg: Config, s: Sys, now: int): Sys
    requires s.updates != []
  {
    var event := s.updates[0];
    var t := s.(updates := s.updates[1..]);
    match OnAgentEvent(cfg, s.j, event, now)
    case Failure(_) => t
    case Success(k) =>
      t.(j := k, links := if event.Finished? then s.links - {event.run} else s.links)
  }

  function WorkOne(s: Sys, r: RunId, input: Input): Sys
    requires r in s.links && Enabled(s.links[r].worker, input) && Reads(s.links[r].queue, input)
  {
    var w, queue := s.links[r].worker, s.links[r].queue;
    var out := TurnLoop.Step(w, input);
    s.(links := s.links[r := Link(out.worker, Rest(queue, input))],
       updates := s.updates + out.sends,
       handed := s.handed + HandedBy(w, input))
  }

  ghost function Does(cfg: Config, s: Sys, op: Op, stage: Stage): Sys {
    var step := Next(cfg, s.j, op);
    s.(j := step.journal, todo := step.value, stage := stage)
  }

  function CancelAll(links: map<RunId, Link>): map<RunId, Link> {
    map r | r in links :: if Alive(links, r) then links[r].(queue := links[r].queue + [CancelRun]) else links[r]
  }

  predicate OfTimers(op: Op) {
    op.Automatic? || op.Expire? || op.Resume? || op.Reconcile?
  }

  predicate OfTransport(op: Op) {
    op.Acknowledge? || op.Unreact? || op.Say? || op.Refuse?
  }

  predicate Ready(s: Sys) {
    s.todo == [] && !s.closing
  }

  predicate Can(cfg: Config, s: Sys, m: Move) {
    match m
    case Arrive(event, _, _, _) => Ready(s) && s.stage.Free? && event.room == cfg.home(event.event)
    case Proceed => Ready(s) && !s.stage.Free?
    case Timers(op) => Ready(s) && s.stage.Free? && OfTimers(op)
    case Aside(op) => OfTransport(op)
    case Apply(_) => s.todo != []
    case Record(_) => s.updates != [] && s.todo == [] && s.stage.Free?
    case Work(r, input) =>
      r in s.links && Enabled(s.links[r].worker, input) && Reads(s.links[r].queue, input)
      && (input == Read(None) ==> s.closing)
    case Close => Ready(s) && s.stage.Free?
    case Crash(torn, _) => torn.Whole? || Ready(s)
  }

  /**
   A message is taken in three steps: its room is reconciled, leftovers of older runs are resumed (unless it is a
   command), and only then is it handled.
   */
  ghost function Perform(cfg: Config, s: Sys, m: Move): Sys
    requires Can(cfg, s, m)
  {
    match m
    case Arrive(event, room, history, now) => Does(cfg, s, Reconcile(event.room, room), Reconciled(event, room, history, now))
    case Proceed =>
      (match s.stage
       case Reconciled(event, room, history, now) =>
         if IsCommand(event.body) then Does(cfg, s, Message(event, room, history, now), Free)
         else Does(cfg, s, Resume, Resumed(event, room, history, now))
       case Resumed(event, room, history, now) => Does(cfg, s, Message(event, room, history, now), Free)
       case Free => s)
    case Timers(op) => Does(cfg, s, op, Free)
    case Aside(op) => s.(j := Next(cfg, s.j, op).journal)
    case Apply(spawned) => ApplyOne(cfg, s, spawned)
    case Record(now) => RecordOne(cfg, s, now)
    case Work(r, input) => WorkOne(s, r, input)
    case Close => s.(links := CancelAll(s.links), closing := true)
    case Crash(torn, resets) => Sys(Next(cfg, s.j, Restart(torn, resets)).journal, map[], [], [], Free, false, s.handed)
  }

  ghost predicate Makes(cfg: Config, s: Sys, m: Move, t: Sys) {
    Can(cfg, s, m) && t == Perform(cfg, s, m)
  }

  /** The states a history of moves can lead to. */
  ghost predicate Valid(cfg: Config, moves: seq<Move>)
    decreases |moves|, 0
  {
    moves == [] || (Valid(cfg, moves[..|moves| - 1]) && Can(cfg, StateOf(cfg, moves[..|moves| - 1]), moves[|moves| - 1]))
  }

  ghost function StateOf(cfg: Config, moves: seq<Move>): Sys
    requires Valid(cfg, moves)
    decreases |moves|, 1
  {
    if moves == [] then START else Perform(cfg, StateOf(cfg, moves[..|moves| - 1]), moves[|moves| - 1])
  }

  /** These moves can follow one another, and this is where they lead. */
  ghost predicate Reaches(cfg: Config, moves: seq<Move>, s: Sys) {
    Valid(cfg, moves) && s == StateOf(cfg, moves)
  }
}
