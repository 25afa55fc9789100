/**
 The turn loop as the program runs it: local variables rewritten by the arms of one `select`, one pass after the
 other. Every arm is proved against its function in `TurnLoop`, and whole runs against the traces of `TurnSafety`.
 */
module Turn {
  import opened Model
  import opened Text
  import opened TurnLoop
  import opened TurnSafety

  class Loop {
    const run: RunId
    const strategy: Steering
    const carried: seq<EventId>
    const prompt: string

    var phase: Phase
    var turn: nat
    var generation: nat
    var primary: Option<Status>
    var stopping: bool
    var open: bool
    var steering: seq<Note>
    var concurrent: seq<EventId>
    var interjections: seq<EventId>
    var sessions: seq<Request>
    var needsDrain: bool
    var draining: bool
    var asked: map<RequestId, set<string>>

    function View(): Worker
      reads this
    {
      Worker(run, strategy, carried, prompt, phase, turn, generation, primary, stopping, open, steering, concurrent,
             interjections, sessions, needsDrain, draining, asked)
    }

    constructor (run: RunId, strategy: Steering, carried: seq<EventId>, prompt: string)
      ensures View() == NewWorker(run, strategy, carried, prompt)
    {
      this.run, this.strategy, this.carried, this.prompt := run, strategy, carried, prompt;
      phase, turn, generation, primary, stopping, open := Setup, 0, 0, None, false, true;
      steering, concurrent, interjections, sessions, needsDrain, draining, asked := [], [], [], [], false, false, map[];
    }

    /**
     A whole run against any possible behaviour of its surroundings. It reports the answer to its newest prompt;
     it reports success only when it was not stopped, owes the agent nothing, and has drained what was interjected;
     and it asks the agent to stop once if it is told to stop.
     */
    method Serve(inputs: seq<Input>) returns (log: seq<Record>)
      requires Fresh(View()) && Valid(View(), inputs)
      modifies this
      ensures Trace(View(), log) == TraceOf(old(View()), inputs)
      ensures Reports(log, Completed) ==> NewestAnswer(log) == Some(Completed) && !Stopped(log) && Outstanding(log) == 0 && AllDrained(log)
      ensures CancelCount(log) == if Stopped(log) then 1 else 0
      ensures forall q :: AnswerCount(log, q) <= 1
    {
      ghost var start := View();
      log := [];
      for i := 0 to |inputs|
        invariant Valid(start, inputs[..i]) && Valid(start, inputs)
        invariant Trace(View(), log) == TraceOf(start, inputs[..i])
      {
        PrefixValid(start, inputs, i + 1);
        assert inputs[..i + 1][..i] == inputs[..i];
        var sends, acts := Pass(inputs[i]);
        log := log + [Record(inputs[i], sends, acts)];
      }
      assert inputs[..|inputs|] == inputs;
      CancelOnce(start, inputs);
      if Reports(log, Completed) { ReportIsNewestAnswer(start, inputs, Completed); }
      forall q ensures AnswerCount(log, q) <= 1 { PermissionsAnsweredOnce(start, inputs, q); }
    }

    /** One pass: an arm, then the check at the top of the loop. */
    method Pass(input: Input) returns (sends: seq<AgentEvent>, acts: seq<Act>)
      requires Enabled(View(), input)
      modifies this
      ensures Out(View(), sends, acts) == Step(old(View()), input)
    {
      if input.Break? {
        var sent := Broken(View(), input.during, input.sent);
        sends, acts := End(Failed);
        sends := sent + sends;
      } else {
        sends, acts := Select(input);
        var more, asks := Check();
        sends, acts := sends + more, acts + asks;
      }
    }

    /** Pending permissions are withdrawn and the outcome is reported. */
    method End(status: Status) returns (sends: seq<AgentEvent>, acts: seq<Act>)
      modifies this`phase, this`asked
      ensures Out(View(), sends, acts) == Finish(old(View()), status)
    {
      sends, acts := [Finished(run, status)], [Withdraw(asked.Keys)];
      phase, asked := Over, map[];
    }

    method Check() returns (sends: seq<AgentEvent>, acts: seq<Act>)
      modifies this
      ensures Out(View(), sends, acts) == Top(old(View()))
    {
      sends, acts := [], [];
      if phase.Turning? && primary.Some? && interjections == [] && sessions == [] {
        if !needsDrain {
          sends, acts := Leave(primary.value);
        } else if !draining {
          draining := true;
          acts := [BeginDrain];
        }
      }
    }

    /** A turn is over: the follow-ups kept for it open the next one, or the run ends. */
    method Leave(outcome: Status) returns (sends: seq<AgentEvent>, acts: seq<Act>)
      modifies this
      ensures Out(View(), sends, acts) == EndTurn(old(View()), outcome)
    {
      if !stopping && steering != [] && outcome.Completed? {
        var text, events := JoinLines(NotePrompts(steering)), Notes(steering);
        sends := Announce(events);
        NextTurn();
        acts := [Submit(turn, 0, text, events)];
      } else {
        sends, acts := End(if stopping && outcome.Completed? then Cancelled else outcome);
      }
    }

    method NextTurn()
      modifies this
      ensures View() == old(View()).(turn := old(turn) + 1, generation := 0, primary := None, steering := [], concurrent := [],
                                     needsDrain := false, draining := false)
    {
      turn, generation, primary := turn + 1, 0, None;
      steering, concurrent, needsDrain, draining := [], [], false, false;
    }

    method Announce(events: seq<EventId>) returns (sends: seq<AgentEvent>)
      ensures sends == SteeredAll(run, events)
    {
      sends := [];
      for i := 0 to |events|
        invariant |sends| == i && forall k :: 0 <= k < i ==> sends[k] == Steered(run, events[k])
      {
        sends := sends + [Steered(run, events[i])];
      }
    }

    /** The arms of the select. */
    method Select(input: Input) returns (sends: seq<AgentEvent>, acts: seq<Act>)
      requires Enabled(View(), input) && !input.Break?
      modifies this
      ensures Out(View(), sends, acts) == Arm(old(View()), input)
    {
      sends, acts := [], [];
      match input
      case Begin(session) =>
        phase := Turning;
        sends, acts := [SessionReady(run, session)], [Submit(0, 0, prompt, carried)];
      case Respond(_, answered, outcome) => sends, acts := Answer(answered, outcome);
      case Take(i) => sessions := sessions[i := sessions[i].(taken := true)];
      case SteerReply(i, reply) => sends, acts := SteerAnswer(i, reply);
      case InterjectReply(i, queued) => sends, acts := InterjectAnswer(i, queued);
      case DrainReply(idle) =>
        if idle {
          needsDrain, draining := false, false;
        } else {
          sends, acts := End(Failed);
        }
      case ModeFault => sends, acts := End(Failed);
      case Deadline => sends, acts := End(Interrupted);
      case Read(command) => acts := Obey(command);
      case Say(text) => if !stopping { sends := [AgentEvent.Text(run, text)]; }
      case UseTool => if !stopping { sends := [Tool(run)]; }
      case Ask(request, title, options) => sends, acts := Request(request, title, options);
      case TimeOut(request) =>
        asked := asked - {request};
        acts := [Reply(request, None)];
    }

    /** Only the newest prompt's answer counts. */
    method Answer(answered: nat, outcome: Option<Status>) returns (sends: seq<AgentEvent>, acts: seq<Act>)
      requires phase.Turning? && Responds(View(), turn, answered, outcome)
      modifies this
      ensures Out(View(), sends, acts) == Arm(old(View()), Respond(old(turn), answered, outcome))
    {
      sends, acts := [], [];
      if answered == generation {
        if outcome.None? {
          sends, acts := End(Failed);
        } else {
          primary := outcome;
          sends := Announce(concurrent);
          concurrent := [];
        }
      }
    }

    method SteerAnswer(i: nat, reply: SteerOutcome) returns (sends: seq<AgentEvent>, acts: seq<Act>)
      requires phase.Turning? && Truthful(sessions, i, reply)
      modifies this
      ensures Out(View(), sends, acts) == Arm(old(View()), SteerReply(i, reply))
    {
      sends, acts := [], [];
      if reply.Unsupported? {
        sends, acts := End(Failed);
      } else {
        var answered := sessions[i];
        sessions := Without(sessions, i);
        if reply.Injected? {
          sends := [Steered(run, answered.event)];
        } else {
          steering := steering + [Note(answered.event, answered.prompt)];
        }
      }
    }

    /** What was interjected is under way: what the agent still owes must be drained anew. */
    method InterjectAnswer(i: nat, queued: bool) returns (sends: seq<AgentEvent>, acts: seq<Act>)
      requires phase.Turning? && i < |interjections|
      modifies this
      ensures Out(View(), sends, acts) == Arm(old(View()), InterjectReply(i, queued))
    {
      sends, acts := [], [];
      if queued {
        sends := [Steered(run, interjections[i])];
        interjections := Without(interjections, i);
        needsDrain, draining := true, false;
      } else {
        sends, acts := End(Failed);
      }
    }

    method Obey(command: Option<Command>) returns (acts: seq<Act>)
      requires phase.Turning? && open
      modifies this
      ensures Out(View(), [], acts) == Arm(old(View()), Read(command))
    {
      acts := [];
      match command
      case None => acts := Halt(true);
      case Some(CancelRun) => acts := Halt(false);
      case Some(SteerRun(event, text)) => if !stopping { acts := Steer(event, text); }
      case Some(DecideRun(request, option)) =>
        if request in asked && (option.None? || option.value in asked[request]) {
          asked := asked - {request};
          acts := [Reply(request, option)];
        }
    }

    method Steer(event: EventId, text: string) returns (acts: seq<Act>)
      modifies this
      ensures Out(View(), [], acts) == SteerNow(old(View()), event, text)
    {
      draining := false;
      match strategy
      case AfterTurn => steering := steering + [Note(event, text)]; acts := [];
      case ConcurrentPrompt =>
        concurrent := concurrent + [event];
        primary := None;
        generation := generation + 1;
        acts := [Submit(turn, generation, text, [event])];
      case SessionSteering => sessions := sessions + [TurnLoop.Request(event, text, false)]; acts := [RequestSteer(event, text)];
      case GrokInterject => interjections := interjections + [event]; acts := [Interject(event, text)];
    }

    method Halt(closed: bool) returns (acts: seq<Act>)
      modifies this
      ensures Out(View(), [], acts) == StopNow(old(View()), closed)
    {
      acts := [];
      steering := [];
      if !stopping {
        stopping := true;
        acts := [Withdraw(asked.Keys), CancelTurn];
        asked := map[];
      }
      if closed {
        open := false;
      }
    }

    /** The handler of the agent's permission requests. */
    method Request(request: RequestId, title: string, options: seq<Choice>) returns (sends: seq<AgentEvent>, acts: seq<Act>)
      modifies this`asked
      ensures Out(View(), sends, acts) == Asked(old(View()), request, title, options)
    {
      sends, acts := [], [];
      if stopping || options == [] || !SafeOptions(options) {
        acts := [Reply(request, None)];
      } else {
        asked := asked[request := set o | o in options :: o.id];
        sends := [Permission(run, request, title, options)];
      }
    }
  }

  /** Any start of a possible run is a possible run. */
  lemma {:induction false} PrefixValid(start: Worker, inputs: seq<Input>, n: nat)
    requires Valid(start, inputs) && n <= |inputs|
    ensures Valid(start, inputs[..n])
    decreases |inputs|
  {
    if n < |inputs| {
      PrefixValid(start, inputs[..|inputs| - 1], n);
      assert inputs[..|inputs| - 1][..n] == inputs[..n];
    } else {
      assert inputs[..n] == inputs;
    }
  }
}
