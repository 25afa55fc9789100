/**
 One agent run: the loop that submits prompts, steers a running turn, drains what the agent still owes, and reports
 how the run ended. `Step` is one pass of the loop: one select arm, then the check at its top.
 */
module TurnLoop {
  import opened Model
  import opened Text

  datatype Command =
    | CancelRun
    | SteerRun(event: EventId, prompt: string)
    | DecideRun(request: RequestId, option: Option<string>)

  datatype Phase = Setup | Turning | Over

  datatype Note = Note(event: EventId, prompt: string)

  /** An outstanding steering request; `taken` once the agent has really put the text into the running turn. */
  datatype Request = Request(event: EventId, prompt: string, taken: bool)

  datatype Worker = Worker(
    run: RunId,
    strategy: Steering,
    carried: seq<EventId>,
    prompt: string,
    phase: Phase,
    turn: nat,
    generation: nat,
    primary: Option<Status>,
    stopping: bool,
    open: bool,
    steering: seq<Note>,
    concurrent: seq<EventId>,
    interjections: seq<EventId>,
    sessions: seq<Request>,
    needsDrain: bool,
    draining: bool,
    asked: map<RequestId, set<string>>)

  datatype SteerOutcome = Injected | PromptRequired | Unsupported

  datatype Input =
    | Begin(session: SessionId)
    | Respond(turn: nat, generation: nat, outcome: Option<Status>)
    | Take(i: nat)
    | SteerReply(i: nat, reply: SteerOutcome)
    | InterjectReply(i: nat, queued: bool)
    | DrainReply(idle: bool)
    | ModeFault
    | Deadline
    | Read(command: Option<Command>)
    | Say(text: string)
    | UseTool
    | Ask(request: RequestId, title: string, options: seq<Choice>)
    | TimeOut(request: RequestId)
    | Break(during: Input, sent: nat)

  datatype Act =
    | Submit(turn: nat, generation: nat, text: string, events: seq<EventId>)
    | RequestSteer(event: EventId, text: string)
    | Interject(event: EventId, text: string)
    | BeginDrain
    | CancelTurn
    | Reply(request: RequestId, option: Option<string>)
    | Withdraw(requests: set<RequestId>)

  datatype Out = Out(worker: Worker, sends: seq<AgentEvent>, acts: seq<Act>)

  function NewWorker(run: RunId, strategy: Steering, carried: seq<EventId>, prompt: string): Worker {
    Worker(run, strategy, carried, prompt, Setup, 0, 0, None, false, true, [], [], [], [], false, false, map[])
  }

  // ---------------------------------------------------------------- what can happen next

  /** The agent tells the truth about whether it took the text in. */
  predicate Truthful(sessions: seq<Request>, i: nat, reply: SteerOutcome) {
    && i < |sessions|
    && (reply.Injected? ==> sessions[i].taken)
    && (reply.PromptRequired? ==> !sessions[i].taken)
  }

  /** A response belongs to a prompt submitted in this turn. */
  predicate Responds(w: Worker, turn: nat, generation: nat, outcome: Option<Status>) {
    && w.primary.None? && turn == w.turn && generation <= w.generation
    && (outcome.Some? ==> outcome.value.Completed? || outcome.value.Cancelled? || outcome.value.Failed?)
  }

  predicate Enabled(w: Worker, input: Input) {
    if input.Break? then !w.phase.Over? && !input.during.Break?
    else if input.Begin? then w.phase.Setup?
    else w.phase.Turning? && ArmReady(w, input)
  }

  /** The guards of the select arms, and what the surroundings of the loop can do. */
  predicate ArmReady(w: Worker, input: Input) {
    match input
    case Respond(turn, generation, outcome) => Responds(w, turn, generation, outcome)
    case Take(i) => i < |w.sessions| && !w.sessions[i].taken
    case SteerReply(i, reply) => Truthful(w.sessions, i, reply)
    case InterjectReply(i, _) => i < |w.interjections|
    case DrainReply(_) => w.draining
    case Deadline => w.stopping
    case Read(_) => w.open
    case Ask(request, _, _) => request !in w.asked
    case TimeOut(request) => request in w.asked
    case _ => true
  }

  // ---------------------------------------------------------------- the loop

  function Notes(notes: seq<Note>): (r: seq<EventId>)
    ensures |r| == |notes| && forall i :: 0 <= i < |r| ==> r[i] == notes[i].event
  {
    seq(|notes|, i requires 0 <= i < |notes| => notes[i].event)
  }

  function NotePrompts(notes: seq<Note>): (r: seq<string>)
    ensures |r| == |notes| && forall i :: 0 <= i < |r| ==> r[i] == notes[i].prompt
  {
    seq(|notes|, i requires 0 <= i < |notes| => notes[i].prompt)
  }

  function SteeredAll(run: RunId, events: seq<EventId>): (r: seq<AgentEvent>)
    ensures |r| == |events| && forall i :: 0 <= i < |r| ==> r[i] == Steered(run, events[i])
  {
    seq(|events|, i requires 0 <= i < |events| => Steered(run, events[i]))
  }

  function Without<T>(s: seq<T>, i: nat): seq<T>
    requires i < |s|
  {
    s[..i] + s[i + 1..]
  }

  /** Nothing the agent was asked to take in is still unanswered. */
  predicate Settled(w: Worker) {
    w.interjections == [] && w.sessions == []
  }

  /** The run is over: pending permissions are withdrawn and the outcome is reported. */
  function Finish(w: Worker, status: Status): Out {
    Out(w.(phase := Over, asked := map[]), [Finished(w.run, status)], [Withdraw(w.asked.Keys)])
  }

  /** A turn has an outcome: go on with what was kept for after it, or end the run. */
  function EndTurn(w: Worker, outcome: Status): Out {
    if !w.stopping && w.steering != [] && outcome.Completed? then
      var text := JoinLines(NotePrompts(w.steering));
      var next := w.(turn := w.turn + 1, generation := 0, primary := None, steering := [], concurrent := [],
                     needsDrain := false, draining := false);
      Out(next, SteeredAll(w.run, Notes(w.steering)), [Submit(next.turn, 0, text, Notes(w.steering))])
    else
      Finish(w, if w.stopping && outcome.Completed? then Cancelled else outcome)
  }

  /** The check at the top of the loop. */
  function Top(w: Worker): Out {
    if !w.phase.Turning? || w.primary.None? || !Settled(w) then Out(w, [], [])
    else if w.needsDrain then
      if w.draining then Out(w, [], []) else Out(w.(draining := true), [], [BeginDrain])
    else EndTurn(w, w.primary.value)
  }

  /** A follow-up read while the run is not being stopped. */
  function SteerNow(w: Worker, event: EventId, prompt: string): Out {
    var v := w.(draining := false);
    match w.strategy
    case AfterTurn => Out(v.(steering := w.steering + [Note(event, prompt)]), [], [])
    case ConcurrentPrompt =>
      Out(v.(concurrent := w.concurrent + [event], primary := None, generation := w.generation + 1), [],
          [Submit(w.turn, w.generation + 1, prompt, [event])])
    case SessionSteering => Out(v.(sessions := w.sessions + [Request(event, prompt, false)]), [], [RequestSteer(event, prompt)])
    case GrokInterject => Out(v.(interjections := w.interjections + [event]), [], [Interject(event, prompt)])
  }

  function StopNow(w: Worker, closed: bool): Out {
    var v := w.(steering := [], open := w.open && !closed);
    if w.stopping then Out(v, [], [])
    else Out(v.(stopping := true, asked := map[]), [], [Withdraw(w.asked.Keys), CancelTurn])
  }

  function Decision(w: Worker, request: RequestId, option: Option<string>): Out {
    if request in w.asked && (option.Some? ==> option.value in w.asked[request])
    then Out(w.(asked := w.asked - {request}), [], [Reply(request, option)])
    else Out(w, [], [])
  }

  /** The request handler: a running, unstopped turn may ask; everything else is answered with a cancellation. */
  function Asked(w: Worker, request: RequestId, title: string, options: seq<Choice>): Out {
    if w.stopping || options == [] || !SafeOptions(options) then Out(w, [], [Reply(request, None)])
    else Out(w.(asked := w.asked[request := set o | o in options :: o.id]), [Permission(w.run, request, title, options)], [])
  }

  function Arm(w: Worker, input: Input): Out
    requires Enabled(w, input) && !input.Break?
  {
    match input
    case Begin(session) => Out(w.(phase := Turning), [SessionReady(w.run, session)], [Submit(0, 0, w.prompt, w.carried)])
    case Respond(turn, generation, outcome) =>
      if generation != w.generation then Out(w, [], [])
      else if outcome.None? then Finish(w, Failed)
      else Out(w.(primary := outcome, concurrent := []), SteeredAll(w.run, w.concurrent), [])
    case Take(i) => Out(w.(sessions := w.sessions[i := w.sessions[i].(taken := true)]), [], [])
    case SteerReply(i, reply) =>
      var v := w.(sessions := Without(w.sessions, i));
      (match reply
       case Injected => Out(v, [Steered(w.run, w.sessions[i].event)], [])
       case PromptRequired => Out(v.(steering := w.steering + [Note(w.sessions[i].event, w.sessions[i].prompt)]), [], [])
       case Unsupported => Finish(w, Failed))
    case InterjectReply(i, queued) =>
      if queued then
        Out(w.(interjections := Without(w.interjections, i), needsDrain := true, draining := false),
            [Steered(w.run, w.interjections[i])], [])
      else Finish(w, Failed)
    case DrainReply(idle) => if idle then Out(w.(needsDrain := false, draining := false), [], []) else Finish(w, Failed)
    case ModeFault => Finish(w, Failed)
    case Deadline => Finish(w, Interrupted)
    case Read(command) =>
      (match command
       case None => StopNow(w, true)
       case Some(CancelRun) => StopNow(w, false)
       case Some(SteerRun(event, prompt)) => if w.stopping then Out(w, [], []) else SteerNow(w, event, prompt)
       case Some(DecideRun(request, option)) => Decision(w, request, option))
    case Say(text) => Out(w, if w.stopping then [] else [AgentEvent.Text(w.run, text)], [])
    case UseTool => Out(w, if w.stopping then [] else [Tool(w.run)], [])
    case Ask(request, title, options) => Asked(w, request, title, options)
    case TimeOut(request) => Out(w.(asked := w.asked - {request}), [], [Reply(request, None)])
  }

  function Then(a: Out, b: Out): Out {
    Out(b.worker, a.sends + b.sends, a.acts + b.acts)
  }

  function Pass(w: Worker, input: Input): Out
    requires Enabled(w, input) && !input.Break?
  {
    var a := Arm(w, input);
    Then(a, Top(a.worker))
  }

  /** How much of a list of events was sent before the connection broke. */
  function Sent(sends: seq<AgentEvent>, n: nat): seq<AgentEvent> {
    if n < |sends| then sends[..n] else sends
  }

  function BeforeEnd(sends: seq<AgentEvent>): seq<AgentEvent> {
    if sends != [] && sends[|sends| - 1].Finished? then sends[..|sends| - 1] else sends
  }

  /** What a pass that breaks off has sent. */
  function Broken(w: Worker, during: Input, sent: nat): seq<AgentEvent>
    requires !during.Break?
  {
    if Enabled(w, during) then Sent(BeforeEnd(Pass(w, during).sends), sent) else []
  }

  /** One pass of the loop; a broken pass sends some of its updates, asks nothing of the agent, and fails the run. */
  function Step(w: Worker, input: Input): Out
    requires Enabled(w, input)
  {
    if input.Break? then
      var sends := Broken(w, input.during, input.sent);
      var end := Finish(w, Failed);
      Out(end.worker, sends + end.sends, end.acts)
    else Pass(w, input)
  }
}
