/** What one pass of the turn loop does to the follow-ups it holds: nothing is lost, nothing is handed over twice. */
module Handing {
  import opened Model
  import opened TurnLoop

  // ---------------------------------------------------------------- follow-ups in hand

  function Count(events: seq<EventId>, e: EventId): nat {
    if events == [] then 0 else Count(events[..|events| - 1], e) + (if events[|events| - 1] == e then 1 else 0)
  }

  function NoteCount(notes: seq<Note>, e: EventId): nat {
    if notes == [] then 0 else NoteCount(notes[..|notes| - 1], e) + (if notes[|notes| - 1].event == e then 1 else 0)
  }

  /** Outstanding requests the agent has not taken in. */
  function OpenCount(sessions: seq<Request>, e: EventId): nat {
    if sessions == [] then 0
    else
      var last := sessions[|sessions| - 1];
      OpenCount(sessions[..|sessions| - 1], e) + (if last.event == e && !last.taken then 1 else 0)
  }

  function QueueCount(queue: seq<Command>, e: EventId): nat {
    if queue == [] then 0
    else QueueCount(queue[1..], e) + (if queue[0].SteerRun? && queue[0].event == e then 1 else 0)
  }

  predicate TakenIn(sessions: seq<Request>, e: EventId) {
    exists i :: 0 <= i < |sessions| && sessions[i].taken && sessions[i].event == e
  }

  /** How often a live worker still means to hand a message to the agent. */
  function Waiting(w: Worker, e: EventId): nat {
    (if w.phase.Setup? then Count(w.carried, e) else 0) + NoteCount(w.steering, e) + OpenCount(w.sessions, e)
  }

  /** A message handed to the agent whose acceptance has not been reported yet. */
  predicate Unacked(w: Worker, e: EventId) {
    e in w.concurrent || e in w.interjections || TakenIn(w.sessions, e)
  }

  function HandedAs(act: Act): seq<EventId> {
    match act
    case Submit(_, _, _, events) => events
    case Interject(event, _) => [event]
    case _ => []
  }

  function HandedIn(acts: seq<Act>): seq<EventId> {
    if acts == [] then [] else HandedIn(acts[..|acts| - 1]) + HandedAs(acts[|acts| - 1])
  }

  function ArmHands(w: Worker, input: Input): seq<EventId>
    requires Enabled(w, input) && !input.Break?
  {
    if input.Take? then [w.sessions[input.i].event] else HandedIn(Arm(w, input).acts)
  }

  /** What a pass puts before the agent: prompts and interjections as they are sent, steering when it is taken in. */
  function HandedBy(w: Worker, input: Input): seq<EventId>
    requires Enabled(w, input)
  {
    if input.Break? then [] else ArmHands(w, input) + HandedIn(Top(Arm(w, input).worker).acts)
  }

  /** The command a pass reads is the head of its queue. */
  predicate Reads(queue: seq<Command>, input: Input) {
    input.Read? && input.command.Some? ==> queue != [] && queue[0] == input.command.value
  }

  function Rest(queue: seq<Command>, input: Input): seq<Command>
    requires Reads(queue, input)
  {
    if input.Read? && input.command.Some? then queue[1..] else queue
  }

  ghost predicate Fails(sends: seq<AgentEvent>) {
    exists i :: 0 <= i < |sends| && sends[i].Finished? && (sends[i].status.Failed? || sends[i].status.Interrupted?)
  }

  /** What every reachable worker satisfies. */
  predicate WorkerOk(w: Worker) {
    && (w.phase.Setup? ==> w == NewWorker(w.run, w.strategy, w.carried, w.prompt))
    && (w.primary.Some? ==> w.concurrent == [] && !w.primary.value.Active() && !w.primary.value.Interrupted?)
    && (w.strategy.AfterTurn? ==> w.concurrent == [] && w.interjections == [] && w.sessions == [])
  }

  // ---------------------------------------------------------------- lists

  lemma {:induction false} CountJoin(a: seq<EventId>, b: seq<EventId>, e: EventId)
    ensures Count(a + b, e) == Count(a, e) + Count(b, e)
    decreases |b|
  {
    if b == [] {
      assert a + b == a;
    } else {
      CountJoin(a, b[..|b| - 1], e);
      assert (a + b)[..|a + b| - 1] == a + b[..|b| - 1];
    }
  }

  lemma CountOne(x: EventId, e: EventId)
    ensures Count([x], e) == if x == e then 1 else 0
  {
    assert [x][..0] == [];
  }

  lemma {:induction false} CountIn(events: seq<EventId>, e: EventId)
    ensures Count(events, e) > 0 <==> e in events
  {
    if events != [] {
      CountIn(events[..|events| - 1], e);
      assert events == events[..|events| - 1] + [events[|events| - 1]];
    }
  }

  lemma {:induction false} NotesCounted(notes: seq<Note>, e: EventId)
    ensures Count(Notes(notes), e) == NoteCount(notes, e)
  {
    if notes != [] {
      NotesCounted(notes[..|notes| - 1], e);
      assert Notes(notes)[..|notes| - 1] == Notes(notes[..|notes| - 1]);
    }
  }

  lemma NoteAppend(notes: seq<Note>, n: Note, e: EventId)
    ensures NoteCount(notes + [n], e) == NoteCount(notes, e) + (if n.event == e then 1 else 0)
  {
    assert (notes + [n])[..|notes|] == notes;
  }

  lemma OpenAppend(sessions: seq<Request>, r: Request, e: EventId)
    ensures OpenCount(sessions + [r], e) == OpenCount(sessions, e) + (if r.event == e && !r.taken then 1 else 0)
    ensures TakenIn(sessions + [r], e) <==> TakenIn(sessions, e) || (r.taken && r.event == e)
  {
    var after := sessions + [r];
    assert after[..|sessions|] == sessions;
    if TakenIn(sessions, e) {
      var i :| 0 <= i < |sessions| && sessions[i].taken && sessions[i].event == e;
      assert after[i].taken;
    }
    if r.taken && r.event == e { assert after[|sessions|].taken; }
  }

  lemma {:induction false} OpenRemoved(sessions: seq<Request>, i: nat, e: EventId)
    requires i < |sessions|
    ensures OpenCount(sessions, e) == OpenCount(Without(sessions, i), e) + (if sessions[i].event == e && !sessions[i].taken then 1 else 0)
    decreases |sessions|
  {
    var front, last := sessions[..|sessions| - 1], sessions[|sessions| - 1];
    if i == |front| {
      assert Without(sessions, i) == front;
    } else {
      OpenRemoved(front, i, e);
      assert Without(sessions, i)[..|sessions| - 2] == Without(front, i);
    }
  }

  lemma TakenRemoved(sessions: seq<Request>, i: nat, e: EventId)
    requires i < |sessions|
    ensures TakenIn(sessions, e) <==> TakenIn(Without(sessions, i), e) || (sessions[i].taken && sessions[i].event == e)
  {
    var rest := Without(sessions, i);
    if TakenIn(sessions, e) && !(sessions[i].taken && sessions[i].event == e) {
      var k :| 0 <= k < |sessions| && sessions[k].taken && sessions[k].event == e;
      assert rest[if k < i then k else k - 1] == sessions[k];
    }
    if TakenIn(rest, e) {
      var k :| 0 <= k < |rest| && rest[k].taken && rest[k].event == e;
      assert sessions[if k < i then k else k + 1] == rest[k];
    }
  }

  lemma TakeOne(sessions: seq<Request>, i: nat, e: EventId)
    requires i < |sessions| && !sessions[i].taken
    ensures var after := sessions[i := sessions[i].(taken := true)];
            && OpenCount(sessions, e) == OpenCount(after, e) + (if sessions[i].event == e then 1 else 0)
            && (TakenIn(after, e) <==> TakenIn(sessions, e) || sessions[i].event == e)
  {
    var after := sessions[i := sessions[i].(taken := true)];
    assert Without(after, i) == Without(sessions, i);
    OpenRemoved(sessions, i, e);
    OpenRemoved(after, i, e);
    TakenRemoved(sessions, i, e);
    TakenRemoved(after, i, e);
  }

  lemma FewHanded(acts: seq<Act>)
    requires |acts| <= 2
    ensures HandedIn(acts) == match |acts|
                              case 0 => []
                              case 1 => HandedAs(acts[0])
                              case _ => HandedAs(acts[0]) + HandedAs(acts[1])
  {
    if |acts| == 1 { assert acts[..0] == []; }
    if |acts| == 2 {
      assert acts[..1] == [acts[0]] && [acts[0]][..0] == [];
      assert HandedIn([acts[0]]) == [] + HandedAs(acts[0]);
    }
  }

  lemma {:induction false} QueueAppend(queue: seq<Command>, c: Command, e: EventId)
    ensures QueueCount(queue + [c], e) == QueueCount(queue, e) + (if c.SteerRun? && c.event == e then 1 else 0)
  {
    if queue == [] {
      assert (queue + [c])[1..] == [];
    } else {
      QueueAppend(queue[1..], c, e);
      assert (queue + [c])[1..] == queue[1..] + [c];
    }
  }

  // ---------------------------------------------------------------- half a pass

  /** From `w` with `before` copies of `e` queued to `out` with `after` queued, handing over `handed`: none is duplicated. */
  ghost predicate Conserves(w: Worker, before: nat, out: Out, after: nat, handed: seq<EventId>, e: EventId) {
    if out.worker.phase.Over? then handed == []
    else Waiting(out.worker, e) + after + Count(handed, e) <= Waiting(w, e) + before
  }

  predicate IsSteered(sends: seq<AgentEvent>, run: RunId, e: EventId) {
    exists i :: 0 <= i < |sends| && sends[i] == Steered(run, e)
  }

  /** What was handed over and not reported yet is reported now or remembered, unless the run fails; and nothing else is. */
  ghost predicate Accounts(w: Worker, out: Out, handed: seq<EventId>, e: EventId) {
    Fails(out.sends) ||
    ( && (e in handed || Unacked(w, e) ==> IsSteered(out.sends, w.run, e) || (!out.worker.phase.Over? && Unacked(out.worker, e)))
      && (IsSteered(out.sends, w.run, e) ==> e in handed || Unacked(w, e))
      && (!out.worker.phase.Over? && Unacked(out.worker, e) ==> e in handed || Unacked(w, e)) )
  }

  /** What half a pass sends is its own, and its outcome, if any, comes last and ends the run. */
  ghost predicate SendsOk(w: Worker, out: Out) {
    && out.worker.run == w.run && out.worker.strategy == w.strategy && out.worker.carried == w.carried
    && (forall i :: 0 <= i < |out.sends| ==> out.sends[i].run == w.run && (out.sends[i].Finished? ==> !out.sends[i].status.Active()))
    && (forall i :: 0 <= i < |out.sends| && out.sends[i].Finished? ==> i == |out.sends| - 1 && out.worker.phase.Over?)
    && (out.worker.phase.Over? && !w.phase.Over? ==> out.sends != [] && out.sends[|out.sends| - 1].Finished?)
    && !out.worker.phase.Setup?
    && WorkerOk(out.worker)
  }

  lemma SteerSends(w: Worker, event: EventId, prompt: string)
    requires w.phase.Turning? && WorkerOk(w)
    ensures SendsOk(w, SteerNow(w, event, prompt))
  {
    SteerOk(w, event, prompt);
    SteerStays(w, event, prompt);
  }

  lemma SteerOk(w: Worker, event: EventId, prompt: string)
    requires w.phase.Turning? && WorkerOk(w)
    ensures WorkerOk(SteerNow(w, event, prompt).worker)
  {}

  lemma SteerStays(w: Worker, event: EventId, prompt: string)
    ensures var out := SteerNow(w, event, prompt);
            && out.sends == [] && out.worker.run == w.run && out.worker.strategy == w.strategy && out.worker.carried == w.carried
            && out.worker.phase == w.phase
  {}

  lemma ArmSends(w: Worker, input: Input)
    requires Enabled(w, input) && !input.Break? && WorkerOk(w)
    ensures SendsOk(w, Arm(w, input))
  {
    if input.Read? {
      if input.command.Some? && input.command.value.SteerRun? && !w.stopping {
        SteerSends(w, input.command.value.event, input.command.value.prompt);
      }
    } else {
      PlainSends(w, input);
    }
  }

  lemma PlainSends(w: Worker, input: Input)
    requires Enabled(w, input) && !input.Break? && WorkerOk(w) && !input.Read?
    ensures SendsOk(w, Arm(w, input))
  {
    var out := Arm(w, input);
    if input.Respond? {
      RespondSends(w, input);
    } else {
      assert |out.sends| <= 1;
      assert out.worker.phase.Over? ==> out.sends[0].Finished? && out.sends[0].run == w.run && !out.sends[0].status.Active();
      OneSend(w, out);
    }
  }

  lemma RespondSends(w: Worker, input: Input)
    requires Enabled(w, input) && WorkerOk(w) && input.Respond?
    ensures SendsOk(w, Arm(w, input))
  {}

  lemma OneSend(w: Worker, out: Out)
    requires |out.sends| <= 1 && (out.sends != [] ==> out.sends[0].run == w.run)
    requires out.worker.phase.Over? <==> out.sends != [] && out.sends[0].Finished?
    requires out.worker.phase.Over? ==> !out.sends[0].status.Active()
    requires out.worker.run == w.run && out.worker.strategy == w.strategy && out.worker.carried == w.carried
    requires !out.worker.phase.Setup? && WorkerOk(out.worker)
    ensures SendsOk(w, out)
  {}

  lemma TopSends(w: Worker)
    requires WorkerOk(w) && w.phase.Turning?
    ensures SendsOk(w, Top(w))
  {}

  // ---------------------------------------------------------------- nothing is duplicated

  lemma KeepForLater(w: Worker, event: EventId, prompt: string, e: EventId)
    requires w.phase.Turning? && w.strategy.AfterTurn?
    ensures var out := SteerNow(w, event, prompt);
            && out.acts == [] && out.sends == [] && out.worker == w.(draining := false, steering := w.steering + [Note(event, prompt)])
            && Waiting(out.worker, e) == Waiting(w, e) + (if event == e then 1 else 0)
            && (Unacked(out.worker, e) <==> Unacked(w, e))
  {
    NoteAppend(w.steering, Note(event, prompt), e);
  }

  lemma PromptAgain(w: Worker, event: EventId, prompt: string, e: EventId)
    requires w.phase.Turning? && w.strategy.ConcurrentPrompt?
    ensures var out := SteerNow(w, event, prompt);
            && HandedIn(out.acts) == [event] && out.sends == [] && out.worker.phase.Turning?
            && Waiting(out.worker, e) == Waiting(w, e)
            && (Unacked(out.worker, e) <==> Unacked(w, e) || e == event)
  {
    var out := SteerNow(w, event, prompt);
    FewHanded(out.acts);
    assert out.worker.concurrent == w.concurrent + [event];
  }

  lemma AskTurn(w: Worker, event: EventId, prompt: string, e: EventId)
    requires w.phase.Turning? && w.strategy.SessionSteering?
    ensures var out := SteerNow(w, event, prompt);
            && HandedIn(out.acts) == [] && out.sends == [] && out.worker.phase.Turning?
            && Waiting(out.worker, e) == Waiting(w, e) + (if event == e then 1 else 0)
            && (Unacked(out.worker, e) <==> Unacked(w, e))
  {
    var out := SteerNow(w, event, prompt);
    FewHanded(out.acts);
    OpenAppend(w.sessions, Request(event, prompt, false), e);
    assert out.worker.sessions == w.sessions + [Request(event, prompt, false)];
  }

  lemma InterjectTurn(w: Worker, event: EventId, prompt: string, e: EventId)
    requires w.phase.Turning? && w.strategy.GrokInterject?
    ensures var out := SteerNow(w, event, prompt);
            && HandedIn(out.acts) == [event] && out.sends == [] && out.worker.phase.Turning?
            && Waiting(out.worker, e) == Waiting(w, e)
            && (Unacked(out.worker, e) <==> Unacked(w, e) || e == event)
  {
    var out := SteerNow(w, event, prompt);
    FewHanded(out.acts);
    assert out.worker.interjections == w.interjections + [event];
  }

  /** Reading a follow-up while the run goes on: it is kept, or it is handed over and remembered. */
  lemma SteerFacts(w: Worker, event: EventId, prompt: string, e: EventId)
    requires w.phase.Turning?
    ensures var out := SteerNow(w, event, prompt);
            && out.sends == [] && out.worker.phase.Turning?
            && Waiting(out.worker, e) + Count(HandedIn(out.acts), e) == Waiting(w, e) + (if event == e then 1 else 0)
            && (Unacked(out.worker, e) <==> Unacked(w, e) || e in HandedIn(out.acts))
  {
    CountOne(event, e);
    match w.strategy
    case AfterTurn => KeepForLater(w, event, prompt, e);
    case ConcurrentPrompt => PromptAgain(w, event, prompt, e);
    case SessionSteering => AskTurn(w, event, prompt, e);
    case GrokInterject => InterjectTurn(w, event, prompt, e);
  }

  predicate ReadsSteer(w: Worker, input: Input) {
    input.Read? && input.command.Some? && input.command.value.SteerRun? && !w.stopping
  }

  predicate StaysPut(w: Worker, out: Out) {
    && out.sends == []
    && out.worker == w.(steering := out.worker.steering, stopping := out.worker.stopping, open := out.worker.open, asked := out.worker.asked)
    && (out.worker.steering == w.steering || out.worker.steering == [])
  }

  lemma StopFacts(w: Worker, closed: bool)
    ensures var out := StopNow(w, closed); HandedIn(out.acts) == [] && StaysPut(w, out)
  {
    FewHanded(StopNow(w, closed).acts);
  }

  lemma DecisionFacts(w: Worker, request: RequestId, option: Option<string>)
    ensures var out := Decision(w, request, option); HandedIn(out.acts) == [] && StaysPut(w, out)
  {
    FewHanded(Decision(w, request, option).acts);
  }

  /** Every other command hands nothing over and sends nothing. */
  lemma ReadFacts(w: Worker, input: Input)
    requires Enabled(w, input) && input.Read? && !ReadsSteer(w, input)
    ensures HandedIn(Arm(w, input).acts) == [] && StaysPut(w, Arm(w, input))
  {
    match input.command
    case None => StopFacts(w, true);
    case Some(CancelRun) => StopFacts(w, false);
    case Some(SteerRun(_, _)) => FewHanded([]);
    case Some(DecideRun(request, option)) => DecisionFacts(w, request, option);
  }

  lemma ReadConserves(w: Worker, queue: seq<Command>, input: Input, e: EventId)
    requires Enabled(w, input) && input.Read? && Reads(queue, input)
    ensures Conserves(w, QueueCount(queue, e), Arm(w, input), QueueCount(Rest(queue, input), e), HandedIn(Arm(w, input).acts), e)
  {
    if ReadsSteer(w, input) {
      SteerFacts(w, input.command.value.event, input.command.value.prompt, e);
    } else {
      ReadFacts(w, input);
    }
  }

  lemma ReadAccounts(w: Worker, input: Input, e: EventId)
    requires Enabled(w, input) && input.Read?
    ensures Accounts(w, Arm(w, input), HandedIn(Arm(w, input).acts), e)
  {
    if ReadsSteer(w, input) {
      SteerFacts(w, input.command.value.event, input.command.value.prompt, e);
    } else {
      ReadFacts(w, input);
    }
  }

  lemma ArmConserves(w: Worker, queue: seq<Command>, input: Input, e: EventId)
    requires Enabled(w, input) && !input.Break? && WorkerOk(w) && Reads(queue, input)
    ensures Conserves(w, QueueCount(queue, e), Arm(w, input), QueueCount(Rest(queue, input), e), ArmHands(w, input), e)
  {
    if input.Read? {
      ReadConserves(w, queue, input, e);
    } else {
      FewHanded(Arm(w, input).acts);
      if input.SteerReply? {
        OpenRemoved(w.sessions, input.i, e);
        NoteAppend(w.steering, Note(w.sessions[input.i].event, w.sessions[input.i].prompt), e);
      } else if input.Take? {
        TakeOne(w.sessions, input.i, e);
        CountOne(w.sessions[input.i].event, e);
      }
    }
  }

  /** The turn is over and what was kept for after it goes out as the next prompt. */
  predicate NextTurn(w: Worker, out: Out) {
    && !w.stopping && out.worker.phase == w.phase && out.worker.stopping == w.stopping && out.worker.carried == w.carried
    && out.worker.steering == [] && out.worker.sessions == w.sessions == [] && out.worker.interjections == w.interjections
    && |out.acts| == 1 && out.acts[0].Submit? && out.acts[0].events == Notes(w.steering)
  }

  /** What the check at the top can do: nothing, begin a drain, start the next turn, or end the run. */
  lemma TopShape(w: Worker)
    ensures var out := Top(w);
      || out == Out(w, [], []) || out == Out(w.(draining := true), [], [BeginDrain])
      || NextTurn(w, out)
      || (out.worker.phase.Over? && |out.acts| == 1 && out.acts[0].Withdraw?)
  {}

  lemma TopConserves(w: Worker, rest: nat, e: EventId)
    requires !w.phase.Over?
    ensures Conserves(w, rest, Top(w), rest, HandedIn(Top(w).acts), e)
  {
    TopShape(w);
    FewHanded(Top(w).acts);
    NotesCounted(w.steering, e);
  }

  // ---------------------------------------------------------------- nothing is forgotten

  lemma FinishFails(w: Worker, status: Status)
    requires status.Failed? || status.Interrupted?
    ensures Fails(Finish(w, status).sends)
  {
    assert Finish(w, status).sends[0].status == status;
  }

  lemma SteeredIn(run: RunId, events: seq<EventId>, e: EventId)
    ensures IsSteered(SteeredAll(run, events), run, e) <==> e in events
  {
    if e in events {
      var i :| 0 <= i < |events| && events[i] == e;
      assert SteeredAll(run, events)[i] == Steered(run, e);
    }
  }

  lemma InterjectReplyAccounts(w: Worker, i: nat, e: EventId)
    requires Enabled(w, InterjectReply(i, true))
    ensures var out := Arm(w, InterjectReply(i, true)); Accounts(w, out, HandedIn(out.acts), e)
  {
    var out := Arm(w, InterjectReply(i, true));
    assert w.interjections == w.interjections[..i] + [w.interjections[i]] + w.interjections[i + 1..];
    assert out.sends[0] == Steered(w.run, w.interjections[i]);
  }

  lemma SteerReplyAccounts(w: Worker, i: nat, reply: SteerOutcome, e: EventId)
    requires Enabled(w, SteerReply(i, reply)) && !reply.Unsupported?
    ensures var out := Arm(w, SteerReply(i, reply)); Accounts(w, out, HandedIn(out.acts), e)
  {
    var out := Arm(w, SteerReply(i, reply));
    TakenRemoved(w.sessions, i, e);
    if reply.Injected? { assert out.sends[0] == Steered(w.run, w.sessions[i].event); }
  }

  /** What half a pass has to report on; the first prompt of a run is not a follow-up. */
  function ArmSteers(w: Worker, input: Input): seq<EventId>
    requires Enabled(w, input) && !input.Break?
  {
    if input.Begin? then [] else ArmHands(w, input)
  }

  lemma ArmAccounts(w: Worker, input: Input, e: EventId)
    requires Enabled(w, input) && !input.Break? && WorkerOk(w)
    ensures Accounts(w, Arm(w, input), ArmSteers(w, input), e)
  {
    if input.Read? {
      ReadAccounts(w, input, e);
    } else if input.InterjectReply? && input.queued {
      InterjectReplyAccounts(w, input.i, e);
    } else if input.SteerReply? && !input.reply.Unsupported? {
      SteerReplyAccounts(w, input.i, input.reply, e);
    } else {
      PlainAccounts(w, input, e);
    }
  }

  lemma PlainAccounts(w: Worker, input: Input, e: EventId)
    requires Enabled(w, input) && !input.Break? && WorkerOk(w)
    requires !input.Read? && !(input.InterjectReply? && input.queued) && !(input.SteerReply? && !input.reply.Unsupported?)
    ensures Accounts(w, Arm(w, input), ArmSteers(w, input), e)
  {
    if input.Respond? {
      RespondAccounts(w, input, e);
    } else if input.Take? {
      TakeOne(w.sessions, input.i, e);
    } else {
      QuietAccounts(w, input, e);
    }
  }

  lemma RespondAccounts(w: Worker, input: Input, e: EventId)
    requires Enabled(w, input) && input.Respond? && WorkerOk(w)
    ensures Accounts(w, Arm(w, input), ArmSteers(w, input), e)
  {
    FewHanded([]);
    FinishFails(w, Failed);
    SteeredIn(w.run, w.concurrent, e);
  }

  /** Everything else hands nothing over in the run, reports nothing, or fails. */
  lemma QuietAccounts(w: Worker, input: Input, e: EventId)
    requires Enabled(w, input) && !input.Break? && WorkerOk(w) && !input.Respond? && !input.Take?
    requires !input.Read? && !(input.InterjectReply? && input.queued) && !(input.SteerReply? && !input.reply.Unsupported?)
    ensures Accounts(w, Arm(w, input), ArmSteers(w, input), e)
  {
    QuietShape(w, input);
    FewHanded(Arm(w, input).acts);
  }

  /** It fails the run, or leaves the follow-ups alone. */
  lemma QuietShape(w: Worker, input: Input)
    requires Enabled(w, input) && !input.Break? && !input.Respond? && !input.Take?
    requires !input.Read? && !(input.InterjectReply? && input.queued) && !(input.SteerReply? && !input.reply.Unsupported?)
    ensures var out := Arm(w, input);
      && |out.acts| <= 1
      && ( || (|out.sends| == 1 && out.sends[0].Finished? && (out.sends[0].status.Failed? || out.sends[0].status.Interrupted?))
           || (&& (input.Begin? || out.acts == [] || out.acts[0].Reply?)
               && out.worker.concurrent == w.concurrent && out.worker.interjections == w.interjections && out.worker.sessions == w.sessions
               && !out.worker.phase.Over? && |out.sends| <= 1 && (out.sends != [] ==> !out.sends[0].Steered?)) )
  {}

  lemma TopAccounts(w: Worker, e: EventId)
    requires WorkerOk(w) && w.phase.Turning?
    ensures Accounts(w, Top(w), HandedIn(Top(w).acts), e)
  {
    FewHanded(Top(w).acts);
    SteeredIn(w.run, Notes(w.steering), e);
  }

  // ---------------------------------------------------------------- a whole pass

  /** The follow-ups a pass hands over inside the run. */
  function SteersBy(w: Worker, input: Input): seq<EventId>
    requires Enabled(w, input)
  {
    if input.Break? then [] else ArmSteers(w, input) + HandedIn(Top(Arm(w, input).worker).acts)
  }

  lemma ThenSends(w: Worker, a: Out, b: Out)
    requires SendsOk(w, a) && SendsOk(a.worker, b) && (a.worker.phase.Over? ==> b == Out(a.worker, [], []))
    ensures SendsOk(w, Then(a, b))
  {
    assert forall i :: 0 <= i < |a.sends| ==> (a.sends + b.sends)[i] == a.sends[i];
    assert forall i :: 0 <= i < |b.sends| ==> (a.sends + b.sends)[|a.sends| + i] == b.sends[i];
  }

  lemma SteeredJoin(x: seq<AgentEvent>, y: seq<AgentEvent>, run: RunId, e: EventId)
    ensures IsSteered(x + y, run, e) <==> IsSteered(x, run, e) || IsSteered(y, run, e)
    ensures Fails(x + y) <==> Fails(x) || Fails(y)
  {
    assert forall i :: 0 <= i < |x| ==> (x + y)[i] == x[i];
    assert forall i :: 0 <= i < |y| ==> (x + y)[|x| + i] == y[i];
  }

  lemma ThenAccounts(w: Worker, a: Out, g: seq<EventId>, b: Out, h: seq<EventId>, e: EventId)
    requires Accounts(w, a, g, e) && Accounts(a.worker, b, h, e) && a.worker.run == w.run && !a.worker.phase.Over?
    ensures Accounts(w, Then(a, b), g + h, e)
  {
    SteeredJoin(a.sends, b.sends, w.run, e);
  }

  lemma BrokenOk(w: Worker, during: Input, n: nat)
    requires WorkerOk(w) && !during.Break?
    ensures forall i :: 0 <= i < |Broken(w, during, n)| ==> Broken(w, during, n)[i].run == w.run && !Broken(w, during, n)[i].Finished?
  {
    if Enabled(w, during) {
      PassSends(w, during);
      FrontOnly(w, Pass(w, during), n);
    }
  }

  lemma FrontOnly(w: Worker, out: Out, n: nat)
    requires SendsOk(w, out)
    ensures var s := Sent(BeforeEnd(out.sends), n); forall i :: 0 <= i < |s| ==> s[i].run == w.run && !s[i].Finished?
  {}

  lemma PassSends(w: Worker, input: Input)
    requires Enabled(w, input) && WorkerOk(w) && !input.Break?
    ensures SendsOk(w, Pass(w, input))
  {
    var a := Arm(w, input);
    ArmSends(w, input);
    if !a.worker.phase.Over? { TopSends(a.worker); }
    ThenSends(w, a, Top(a.worker));
  }

  lemma StepSends(w: Worker, input: Input)
    requires Enabled(w, input) && WorkerOk(w)
    ensures SendsOk(w, Step(w, input))
  {
    if input.Break? {
      BrokenOk(w, input.during, input.sent);
      BrokenSends(w, Broken(w, input.during, input.sent), Step(w, input));
    } else {
      PassSends(w, input);
    }
  }

  lemma BrokenSends(w: Worker, sends: seq<AgentEvent>, out: Out)
    requires WorkerOk(w) && forall i :: 0 <= i < |sends| ==> sends[i].run == w.run && !sends[i].Finished?
    requires out.sends == sends + [Finished(w.run, Failed)] && out.worker == w.(phase := Over, asked := map[])
    ensures SendsOk(w, out)
  {
    assert forall i :: 0 <= i < |sends| ==> out.sends[i] == sends[i];
  }

  /** A pass that hands something over in its arm goes on. */
  lemma HandsGoOn(w: Worker, input: Input)
    requires Enabled(w, input) && !input.Break? && WorkerOk(w) && ArmHands(w, input) != []
    ensures Top(Arm(w, input).worker) == Out(Arm(w, input).worker, [], [])
  {
    var v := Arm(w, input).worker;
    if input.Read? {
      if ReadsSteer(w, input) {
        SteerGoesOn(w, input.command.value.event, input.command.value.prompt);
      } else {
        ReadFacts(w, input);
      }
    } else {
      FewHanded(Arm(w, input).acts);
    }
  }

  lemma SteerGoesOn(w: Worker, event: EventId, prompt: string)
    requires w.phase.Turning? && HandedIn(SteerNow(w, event, prompt).acts) != []
    ensures var v := SteerNow(w, event, prompt).worker; Top(v) == Out(v, [], [])
  {
    FewHanded(SteerNow(w, event, prompt).acts);
  }

  lemma StepConserves(w: Worker, queue: seq<Command>, input: Input, e: EventId)
    requires Enabled(w, input) && WorkerOk(w) && Reads(queue, input)
    ensures Conserves(w, QueueCount(queue, e), Step(w, input), QueueCount(Rest(queue, input), e), HandedBy(w, input), e)
  {
    if !input.Break? {
      var a := Arm(w, input);
      ArmConserves(w, queue, input, e);
      if !a.worker.phase.Over? {
        TopConserves(a.worker, QueueCount(Rest(queue, input), e), e);
        CountJoin(ArmHands(w, input), HandedIn(Top(a.worker).acts), e);
        if ArmHands(w, input) != [] { HandsGoOn(w, input); }
      }
    }
  }

  lemma StepAccounts(w: Worker, input: Input, e: EventId)
    requires Enabled(w, input) && WorkerOk(w)
    ensures Accounts(w, Step(w, input), SteersBy(w, input), e)
  {
    if input.Break? {
      assert Fails(Step(w, input).sends) by {
        var sends := Step(w, input).sends;
        assert sends[|sends| - 1] == Finished(w.run, Failed);
      }
    } else {
      var a := Arm(w, input);
      ArmSends(w, input);
      ArmAccounts(w, input, e);
      if !a.worker.phase.Over? {
        TopAccounts(a.worker, e);
        ThenAccounts(w, a, ArmSteers(w, input), Top(a.worker), HandedIn(Top(a.worker).acts), e);
      } else {
        FewHanded([]);
        assert a.sends + [] == a.sends && ArmSteers(w, input) + [] == ArmSteers(w, input);
      }
    }
  }
}
