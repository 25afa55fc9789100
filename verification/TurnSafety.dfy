/** What holds of every run of the turn loop, whatever the agent and the controller do. */
module TurnSafety {
  import opened Model
  import opened Text
  import opened TurnLoop

  /** What one pass received, sent to the controller, and asked of the agent. */
  datatype Record = Record(input: Input, sends: seq<AgentEvent>, acts: seq<Act>)

  datatype Trace = Trace(worker: Worker, log: seq<Record>)

  /** Request ids are fresh; otherwise any enabled input may come next. */
  ghost predicate Possible(t: Trace, input: Input) {
    && Enabled(t.worker, input)
    && (input.Ask? ==> !WasAsked(t.log, input.request))
  }

  function Advance(t: Trace, input: Input): Trace
    requires Enabled(t.worker, input)
  {
    var out := Step(t.worker, input);
    Trace(out.worker, t.log + [Record(input, out.sends, out.acts)])
  }

  /** Inputs that can follow one another from a given worker. */
  ghost predicate Valid(start: Worker, inputs: seq<Input>)
    decreases |inputs|, 0
  {
    inputs == [] ||
    (Valid(start, inputs[..|inputs| - 1]) && Possible(TraceOf(start, inputs[..|inputs| - 1]), inputs[|inputs| - 1]))
  }

  ghost function TraceOf(start: Worker, inputs: seq<Input>): Trace
    requires Valid(start, inputs)
    decreases |inputs|, 1
  {
    if inputs == [] then Trace(start, []) else Advance(TraceOf(start, inputs[..|inputs| - 1]), inputs[|inputs| - 1])
  }

  ghost predicate Fresh(w: Worker) {
    w == NewWorker(w.run, w.strategy, w.carried, w.prompt)
  }

  // ---------------------------------------------------------------- what a log says

  /** The last prompt submitted by a pass. */
  function Submitted(acts: seq<Act>): Option<(nat, nat)> {
    if acts == [] then None
    else
      var last := acts[|acts| - 1];
      if last.Submit? then Some((last.turn, last.generation)) else Submitted(acts[..|acts| - 1])
  }

  /** The newest prompt of the run. */
  function NewestPrompt(log: seq<Record>): Option<(nat, nat)> {
    if log == [] then None
    else
      var sent := Submitted(log[|log| - 1].acts);
      if sent.Some? then sent else NewestPrompt(log[..|log| - 1])
  }

  /** The agent's answer to the newest prompt, if it has come. */
  function NewestAnswer(log: seq<Record>): Option<Status> {
    if log == [] then None
    else
      var front, last := log[..|log| - 1], log[|log| - 1];
      if Submitted(last.acts).Some? then None
      else if last.input.Respond? && NewestPrompt(front) == Some((last.input.turn, last.input.generation)) then last.input.outcome
      else NewestAnswer(front)
  }

  predicate Acknowledges(input: Input) {
    input.InterjectReply? && input.queued
  }

  predicate BeginsDrain(acts: seq<Act>) {
    exists i :: 0 <= i < |acts| && acts[i].BeginDrain?
  }

  /** Since this pass a drain has begun, and finished. */
  predicate DrainedSince(log: seq<Record>, a: int) {
    exists b, c {:trigger log[b], log[c]} :: a <= b < c < |log| && 0 <= b && BeginsDrain(log[b].acts) && log[c].input == DrainReply(true)
  }

  predicate DrainingSince(log: seq<Record>, a: int) {
    exists b :: a <= b < |log| && 0 <= b && BeginsDrain(log[b].acts)
  }

  /** Every acknowledged interjection has been followed by a drain that began after it and finished. */
  ghost predicate AllDrained(log: seq<Record>) {
    forall a :: 0 <= a < |log| && Acknowledges(log[a].input) ==> DrainedSince(log, a)
  }

  ghost predicate AllDraining(log: seq<Record>) {
    forall a :: 0 <= a < |log| && Acknowledges(log[a].input) ==> DrainingSince(log, a)
  }

  predicate AsksTurn(acts: seq<Act>) {
    exists i :: 0 <= i < |acts| && (acts[i].RequestSteer? || acts[i].Interject?)
  }

  /** Requests to a running turn that have not been answered. */
  function Outstanding(log: seq<Record>): int {
    if log == [] then 0
    else
      var last := log[|log| - 1];
      Outstanding(log[..|log| - 1])
      + (if AsksTurn(last.acts) then 1 else 0) - (if last.input.SteerReply? || last.input.InterjectReply? then 1 else 0)
  }

  predicate Stops(input: Input) {
    input == Read(None) || input == Read(Some(CancelRun))
  }

  predicate Stopped(log: seq<Record>) {
    exists k :: 0 <= k < |log| && Stops(log[k].input)
  }

  predicate Cancels(acts: seq<Act>) {
    exists i :: 0 <= i < |acts| && acts[i].CancelTurn?
  }

  function CancelCount(log: seq<Record>): nat {
    if log == [] then 0 else CancelCount(log[..|log| - 1]) + (if Cancels(log[|log| - 1].acts) then 1 else 0)
  }

  predicate Reports(log: seq<Record>, status: Status) {
    exists k, i {:trigger log[k].sends[i]} ::
      0 <= k < |log| && 0 <= i < |log[k].sends| && log[k].sends[i].Finished? && log[k].sends[i].status == status
  }

  predicate WasAsked(log: seq<Record>, q: RequestId) {
    exists k :: 0 <= k < |log| && log[k].input.Ask? && log[k].input.request == q
  }

  predicate Answers(act: Act, q: RequestId) {
    || (act.Reply? && act.request == q)
    || (act.Withdraw? && q in act.requests)
  }

  predicate AnsweredIn(acts: seq<Act>, q: RequestId) {
    exists i :: 0 <= i < |acts| && Answers(acts[i], q)
  }

  function AnswerCount(log: seq<Record>, q: RequestId): nat {
    if log == [] then 0 else AnswerCount(log[..|log| - 1], q) + (if AnsweredIn(log[|log| - 1].acts, q) then 1 else 0)
  }

  // ---------------------------------------------------------------- the invariant

  ghost predicate OutcomeOk(t: Trace) {
    && (t.worker.phase.Setup? ==> t.log == [] && Fresh(t.worker))
    && (t.worker.phase.Turning? ==>
          && NewestPrompt(t.log) == Some((t.worker.turn, t.worker.generation))
          && t.worker.primary == NewestAnswer(t.log)
          && (t.worker.primary.Some? ==> !t.worker.primary.value.Active() && !t.worker.primary.value.Interrupted?)
          && (forall status :: !Reports(t.log, status)))
  }

  ghost predicate DrainOk(t: Trace) {
    && (!t.worker.phase.Over? ==> Outstanding(t.log) == |t.worker.sessions| + |t.worker.interjections|)
    && (t.worker.phase.Turning? && !t.worker.needsDrain ==> AllDrained(t.log))
    && (t.worker.phase.Turning? && t.worker.draining ==> AllDraining(t.log))
  }

  ghost predicate StopOk(t: Trace) {
    && (t.worker.stopping <==> Stopped(t.log))
    && CancelCount(t.log) == if Stopped(t.log) then 1 else 0
  }

  /** What has been reported is the answer to the newest prompt, and Completed only after everything was settled. */
  ghost predicate ReportOk(t: Trace) {
    forall status :: Reports(t.log, status) ==>
      && t.worker.phase.Over?
      && (status.Completed? ==>
            && NewestAnswer(t.log) == Some(Completed) && !Stopped(t.log) && Outstanding(t.log) == 0
            && AllDrained(t.log))
      && (status.Cancelled? ==>
            NewestAnswer(t.log) == Some(Cancelled) || (NewestAnswer(t.log) == Some(Completed) && Stopped(t.log)))
  }

  ghost predicate AskOk(t: Trace) {
    && (forall q :: q in t.worker.asked ==> WasAsked(t.log, q))
    && (t.worker.stopping || t.worker.phase.Over? ==> t.worker.asked == map[])
    && (forall q :: WasAsked(t.log, q) && q !in t.worker.asked ==> AnswerCount(t.log, q) == 1)
    && (forall q :: !WasAsked(t.log, q) || q in t.worker.asked ==> AnswerCount(t.log, q) == 0)
  }

  // ---------------------------------------------------------------- one pass

  /** The newest record of a longer log. */
  lemma Longer(t: Trace, u: Trace, record: Record)
    requires u.log == t.log + [record]
    ensures u.log[..|u.log| - 1] == t.log && u.log[|u.log| - 1] == record
    ensures forall k :: 0 <= k < |t.log| ==> u.log[k] == t.log[k]
  {}

  lemma JoinedActs(a: seq<Act>, b: seq<Act>)
    ensures BeginsDrain(a + b) <==> BeginsDrain(a) || BeginsDrain(b)
    ensures AsksTurn(a + b) <==> AsksTurn(a) || AsksTurn(b)
    ensures Cancels(a + b) <==> Cancels(a) || Cancels(b)
    ensures forall q :: AnsweredIn(a + b, q) <==> AnsweredIn(a, q) || AnsweredIn(b, q)
  {
    assert forall i :: 0 <= i < |a| ==> (a + b)[i] == a[i];
    assert forall i :: 0 <= i < |b| ==> (a + b)[|a| + i] == b[i];
  }

  lemma {:induction false} JoinedSubmits(a: seq<Act>, b: seq<Act>)
    ensures Submitted(a + b) == if Submitted(b).Some? then Submitted(b) else Submitted(a)
    decreases |b|
  {
    if b == [] {
      assert a + b == a;
    } else {
      JoinedSubmits(a, b[..|b| - 1]);
      assert (a + b)[..|a + b| - 1] == a + b[..|b| - 1];
    }
  }

  lemma FewSubmits(acts: seq<Act>)
    requires |acts| <= 2
    ensures Submitted(acts) == if |acts| == 0 then None
                               else if acts[|acts| - 1].Submit? then Some((acts[|acts| - 1].turn, acts[|acts| - 1].generation))
                               else if |acts| == 2 && acts[0].Submit? then Some((acts[0].turn, acts[0].generation))
                               else None
  {
    if |acts| == 2 { assert acts[..1] == [acts[0]]; }
  }

  predicate HasFinished(sends: seq<AgentEvent>, status: Status) {
    exists i :: 0 <= i < |sends| && sends[i].Finished? && sends[i].status == status
  }

  lemma JoinedSends(a: seq<AgentEvent>, b: seq<AgentEvent>)
    ensures forall st :: HasFinished(a + b, st) <==> HasFinished(a, st) || HasFinished(b, st)
  {
    assert forall i :: 0 <= i < |a| ==> (a + b)[i] == a[i];
    assert forall i :: 0 <= i < |b| ==> (a + b)[|a| + i] == b[i];
  }

  lemma ReportsLonger(t: Trace, u: Trace, record: Record)
    requires u.log == t.log + [record]
    ensures forall st :: Reports(u.log, st) <==> Reports(t.log, st) || HasFinished(record.sends, st)
  {
    forall st
      ensures Reports(u.log, st) <==> Reports(t.log, st) || HasFinished(record.sends, st)
    {
      if HasFinished(record.sends, st) {
        var i :| 0 <= i < |record.sends| && record.sends[i].Finished? && record.sends[i].status == st;
        assert u.log[|t.log|].sends[i].status == st;
      }
      if Reports(t.log, st) {
        var k, i :| 0 <= k < |t.log| && 0 <= i < |t.log[k].sends| && t.log[k].sends[i].Finished? && t.log[k].sends[i].status == st;
        assert u.log[k].sends[i].status == st;
      }
      if Reports(u.log, st) {
        var k, i :| 0 <= k < |u.log| && 0 <= i < |u.log[k].sends| && u.log[k].sends[i].Finished? && u.log[k].sends[i].status == st;
        assert k < |t.log| ==> t.log[k].sends[i].status == st;
      }
    }
  }

  /** What the check at the top does. */
  lemma TopFacts(w: Worker)
    ensures var b := Top(w);
      && !Cancels(b.acts) && !AsksTurn(b.acts)
      && b.worker.stopping == w.stopping
      && (Submitted(b.acts).Some? ==>
            b.worker.phase.Turning? && Submitted(b.acts) == Some((b.worker.turn, b.worker.generation)) && b.worker.primary.None?)
      && (Submitted(b.acts).None? ==> b.worker.primary == w.primary && b.worker.turn == w.turn && b.worker.generation == w.generation)
  {
    FewSubmits(Top(w).acts);
  }

  lemma TopReports(w: Worker)
    ensures var b := Top(w);
      && (forall st :: HasFinished(b.sends, st) ==>
            (&& b.worker.phase.Over? && w.phase.Turning? && w.primary.Some? && Settled(w) && !w.needsDrain && Submitted(b.acts).None?
             && st == if w.stopping && w.primary == Some(Completed) then Cancelled else w.primary.value))
      && (w.phase.Turning? && b.worker.phase.Over? ==> exists st :: HasFinished(b.sends, st))
  {
    var b := Top(w);
    FewSubmits(b.acts);
    if w.phase.Turning? && b.worker.phase.Over? {
      assert b.sends[0].Finished?;
      assert HasFinished(b.sends, b.sends[0].status);
    }
  }

  /** A half of a pass that starts out with one prompt and ends up with the same or a newer one. */
  ghost predicate Prompts(w: Worker, out: Out, primary: Option<Status>) {
    && (Submitted(out.acts).Some? ==>
          Submitted(out.acts) == Some((out.worker.turn, out.worker.generation)) && out.worker.primary.None? && out.worker.phase.Turning?)
    && (Submitted(out.acts).None? ==> out.worker.turn == w.turn && out.worker.generation == w.generation)
    && (Submitted(out.acts).None? && !out.worker.phase.Over? ==> out.worker.primary == primary)
    && (!out.worker.phase.Over? ==> out.worker.phase.Turning?)
  }

  lemma SteerPrompts(w: Worker, event: EventId, prompt: string)
    requires w.phase.Turning?
    ensures Prompts(w, SteerNow(w, event, prompt), w.primary)
  {
    FewSubmits(SteerNow(w, event, prompt).acts);
  }

  lemma ReadPrompts(w: Worker, command: Option<Command>)
    requires w.phase.Turning? && w.open
    ensures Prompts(w, Arm(w, Read(command)), w.primary)
  {
    FewSubmits([]);
    if command.Some? && command.value.SteerRun? && !w.stopping {
      SteerPrompts(w, command.value.event, command.value.prompt);
    } else {
      FewSubmits(Arm(w, Read(command)).acts);
    }
  }

  /** What an arm submits, and what becomes of the outcome. */
  lemma ArmPrompts(w: Worker, input: Input)
    requires Enabled(w, input) && !input.Break? && (w.phase.Setup? ==> Fresh(w))
    ensures var a := Arm(w, input);
      && Prompts(w, a, if input.Respond? && input.generation == w.generation then input.outcome else w.primary)
      && (input.Begin? ==> Submitted(a.acts).Some?)
  {
    if input.Read? {
      ReadPrompts(w, input.command);
    } else {
      ArmActsFew(w, input);
      FewSubmits(Arm(w, input).acts);
    }
  }

  lemma ArmActsFew(w: Worker, input: Input)
    requires Enabled(w, input) && !input.Break?
    ensures |Arm(w, input).acts| <= 2
  {}

  lemma ArmReports(w: Worker, input: Input)
    requires Enabled(w, input) && !input.Break?
    ensures var a := Arm(w, input);
            forall st :: HasFinished(a.sends, st) ==> a.worker.phase.Over? && (st.Failed? || st.Interrupted?)
  {}

  lemma PromptsLonger(t: Trace, u: Trace, record: Record)
    requires u.log == t.log + [record]
    ensures NewestPrompt(u.log) == if Submitted(record.acts).Some? then Submitted(record.acts) else NewestPrompt(t.log)
    ensures NewestAnswer(u.log) == if Submitted(record.acts).Some? then None
                                   else if record.input.Respond? && NewestPrompt(t.log) == Some((record.input.turn, record.input.generation))
                                     then record.input.outcome
                                   else NewestAnswer(t.log)
  {
    Longer(t, u, record);
  }

  /** The outcome is the last thing a pass sends. */
  predicate EndsLast(sends: seq<AgentEvent>) {
    forall i :: 0 <= i < |sends| - 1 ==> !sends[i].Finished?
  }

  predicate EndsNothing(sends: seq<AgentEvent>) {
    forall i :: 0 <= i < |sends| ==> !sends[i].Finished?
  }

  /** An arm that ends the run sends nothing else. */
  lemma ArmEnds(w: Worker, input: Input)
    requires Enabled(w, input) && !input.Break?
    ensures var a := Arm(w, input); EndsLast(a.sends) && (a.worker.phase.Turning? ==> EndsNothing(a.sends))
  {
    if input.Read? { ReadEnds(w, input.command); }
  }

  lemma ReadEnds(w: Worker, command: Option<Command>)
    requires w.phase.Turning? && w.open
    ensures Arm(w, Read(command)).sends == []
  {}

  lemma TopEnds(w: Worker)
    ensures EndsLast(Top(w).sends) && (Top(w).sends != [] ==> w.phase.Turning?)
  {}

  lemma EndsJoined(a: seq<AgentEvent>, b: seq<AgentEvent>)
    requires EndsLast(a) && EndsLast(b) && (b == [] || EndsNothing(a))
    ensures EndsLast(a + b)
  {}

  lemma PassEndsLast(w: Worker, input: Input)
    requires Enabled(w, input) && !input.Break?
    ensures EndsLast(Pass(w, input).sends)
  {
    var a := Arm(w, input);
    ArmEnds(w, input);
    TopEnds(a.worker);
    EndsJoined(a.sends, Top(a.worker).sends);
  }

  lemma BreakFacts(w: Worker, input: Input)
    requires Enabled(w, input) && input.Break?
    ensures var out := Step(w, input);
      && out.worker == w.(phase := Over, asked := map[])
      && out.acts == [Withdraw(w.asked.Keys)]
      && (forall st :: HasFinished(out.sends, st) ==> st.Failed?)
  {
    var sends := Broken(w, input.during, input.sent);
    BrokenEndsNothing(w, input.during, input.sent);
    JoinedSends(sends, [Finished(w.run, Failed)]);
  }

  lemma BrokenEndsNothing(w: Worker, during: Input, n: nat)
    requires !during.Break?
    ensures forall st :: !HasFinished(Broken(w, during, n), st)
  {
    if Enabled(w, during) {
      PassEndsLast(w, during);
      FrontEndsNothing(Pass(w, during).sends, n);
    }
  }

  lemma FrontEndsNothing(sends: seq<AgentEvent>, n: nat)
    requires EndsLast(sends)
    ensures forall st :: !HasFinished(Sent(BeforeEnd(sends), n), st)
  {}

  /** What an arm makes of the newest prompt and its answer. */
  ghost predicate ArmOutcome(w: Worker, input: Input, a: Out) {
    && Prompts(w, a, if input.Respond? && input.generation == w.generation then input.outcome else w.primary)
    && (input.Begin? ==> Submitted(a.acts).Some?)
    && (forall st :: HasFinished(a.sends, st) ==> a.worker.phase.Over?)
    && (a.worker.primary.Some? && !a.worker.phase.Over? ==> a.worker.primary == w.primary || (input.Respond? && a.worker.primary == input.outcome))
  }

  /** What the check at the top makes of them. */
  ghost predicate TopOutcome(v: Worker, b: Out) {
    && (Submitted(b.acts).Some? ==>
          b.worker.phase.Turning? && Submitted(b.acts) == Some((b.worker.turn, b.worker.generation)) && b.worker.primary.None?)
    && (Submitted(b.acts).None? ==> b.worker.primary == v.primary && b.worker.turn == v.turn && b.worker.generation == v.generation)
    && (forall st :: HasFinished(b.sends, st) ==> b.worker.phase.Over?)
    && (b.worker.phase == v.phase || b.worker.phase.Over?)
  }

  lemma TopPhase(w: Worker)
    ensures Top(w).worker.phase == w.phase || Top(w).worker.phase.Over?
  {}

  /** A pass that is not broken off, in its two halves. */
  lemma OutcomePass(t: Trace, input: Input)
    requires OutcomeOk(t) && Possible(t, input) && !input.Break?
    ensures OutcomeOk(Advance(t, input))
  {
    var w := t.worker;
    var a := Arm(w, input);
    var b := Top(a.worker);
    ArmPrompts(w, input);
    ArmReports(w, input);
    TopFacts(a.worker);
    TopReports(a.worker);
    TopPhase(a.worker);
    OutcomeJoined(t, Advance(t, input), input, a, b);
  }

  lemma OutcomeJoined(t: Trace, u: Trace, input: Input, a: Out, b: Out)
    requires OutcomeOk(t) && Possible(t, input) && !input.Break? && ArmOutcome(t.worker, input, a) && TopOutcome(a.worker, b)
    requires u == Trace(b.worker, t.log + [Record(input, a.sends + b.sends, a.acts + b.acts)])
    ensures OutcomeOk(u)
  {
    var record := Record(input, a.sends + b.sends, a.acts + b.acts);
    JoinedSubmits(a.acts, b.acts);
    JoinedSends(a.sends, b.sends);
    PromptsLonger(t, u, record);
    ReportsLonger(t, u, record);
  }

  lemma OutcomeStep(t: Trace, input: Input)
    requires OutcomeOk(t) && Possible(t, input)
    ensures OutcomeOk(Advance(t, input))
  {
    if input.Break? {
      BreakFacts(t.worker, input);
    } else {
      OutcomePass(t, input);
    }
  }

  // ---------------------------------------------------------------- stopping

  lemma StopsLonger(t: Trace, u: Trace, record: Record)
    requires u.log == t.log + [record]
    ensures Stopped(u.log) <==> Stopped(t.log) || Stops(record.input)
    ensures CancelCount(u.log) == CancelCount(t.log) + (if Cancels(record.acts) then 1 else 0)
  {
    Longer(t, u, record);
    assert u.log[|t.log|] == record;
    if Stopped(t.log) {
      var k :| 0 <= k < |t.log| && Stops(t.log[k].input);
      assert Stops(u.log[k].input);
    }
  }

  /** The arm that reads a cancellation, and only it, stops the run; it asks the agent to stop the first time. */
  lemma ArmStops(w: Worker, input: Input)
    requires Enabled(w, input) && !input.Break?
    ensures var a := Arm(w, input);
      && (a.worker.stopping <==> w.stopping || Stops(input))
      && (Cancels(a.acts) <==> Stops(input) && !w.stopping)
  {
    if input.Read? { ReadStops(w, input.command); }
  }

  lemma ReadStops(w: Worker, command: Option<Command>)
    requires w.phase.Turning? && w.open
    ensures var a := Arm(w, Read(command));
      && (a.worker.stopping <==> w.stopping || Stops(Read(command)))
      && (Cancels(a.acts) <==> Stops(Read(command)) && !w.stopping)
  {
    var a := Arm(w, Read(command));
    if Stops(Read(command)) && !w.stopping { assert a.acts[1].CancelTurn?; }
  }

  lemma StopStep(t: Trace, input: Input)
    requires StopOk(t) && Possible(t, input)
    ensures StopOk(Advance(t, input))
  {
    var u := Advance(t, input);
    var out := Step(t.worker, input);
    StopsLonger(t, u, Record(input, out.sends, out.acts));
    if input.Break? {
      BreakFacts(t.worker, input);
    } else {
      var a := Arm(t.worker, input);
      ArmStops(t.worker, input);
      TopFacts(a.worker);
      JoinedActs(a.acts, Top(a.worker).acts);
    }
  }

  // ---------------------------------------------------------------- what the agent still owes

  lemma OutstandingLonger(t: Trace, u: Trace, record: Record)
    requires u.log == t.log + [record]
    ensures Outstanding(u.log) == Outstanding(t.log) + (if AsksTurn(record.acts) then 1 else 0)
                                  - (if record.input.SteerReply? || record.input.InterjectReply? then 1 else 0)
  {
    Longer(t, u, record);
  }

  lemma DrainedLonger(log: seq<Record>, longer: seq<Record>, a: int)
    requires log <= longer
    ensures DrainedSince(log, a) ==> DrainedSince(longer, a)
    ensures DrainingSince(log, a) ==> DrainingSince(longer, a)
  {
    if DrainedSince(log, a) {
      var b, c :| a <= b < c < |log| && 0 <= b && BeginsDrain(log[b].acts) && log[c].input == DrainReply(true);
      assert BeginsDrain(longer[b].acts) && longer[c].input == DrainReply(true);
    }
    if DrainingSince(log, a) {
      var b :| a <= b < |log| && 0 <= b && BeginsDrain(log[b].acts);
      assert BeginsDrain(longer[b].acts);
    }
  }

  lemma DrainFinishes(log: seq<Record>, record: Record, a: int)
    requires record.input == DrainReply(true) && DrainingSince(log, a)
    ensures DrainedSince(log + [record], a)
  {
    var b :| a <= b < |log| && 0 <= b && BeginsDrain(log[b].acts);
    assert BeginsDrain((log + [record])[b].acts) && (log + [record])[|log|].input == DrainReply(true);
  }

  /** What an arm asks of the running turn, and what answers it takes. */
  lemma ArmOutstanding(w: Worker, input: Input)
    requires Enabled(w, input) && !input.Break? && (w.phase.Setup? ==> Fresh(w))
    ensures var a := Arm(w, input);
      a.worker.phase.Turning? ==>
        |a.worker.sessions| + |a.worker.interjections|
        == |w.sessions| + |w.interjections|
           + (if AsksTurn(a.acts) then 1 else 0) - (if input.SteerReply? || input.InterjectReply? then 1 else 0)
  {
    if input.Read? {
      ReadOutstanding(w, input.command);
    }
  }

  lemma ReadOutstanding(w: Worker, command: Option<Command>)
    requires w.phase.Turning? && w.open
    ensures var a := Arm(w, Read(command));
      |a.worker.sessions| + |a.worker.interjections| == |w.sessions| + |w.interjections| + (if AsksTurn(a.acts) then 1 else 0)
  {
    if command.Some? && command.value.SteerRun? && !w.stopping {
      SteerOutstanding(w, command.value.event, command.value.prompt);
    }
  }

  lemma SteerOutstanding(w: Worker, event: EventId, prompt: string)
    ensures var a := SteerNow(w, event, prompt);
      |a.worker.sessions| + |a.worker.interjections| == |w.sessions| + |w.interjections| + (if AsksTurn(a.acts) then 1 else 0)
  {
    var a := SteerNow(w, event, prompt);
    assert a.acts != [] ==> (a.acts[0].RequestSteer? || a.acts[0].Interject? ==> AsksTurn(a.acts));
  }

  lemma SteerDrains(w: Worker, event: EventId, prompt: string)
    ensures var a := SteerNow(w, event, prompt); !BeginsDrain(a.acts) && a.worker.needsDrain == w.needsDrain && !a.worker.draining
  {}

  lemma ArmDrains(w: Worker, input: Input)
    requires Enabled(w, input) && !input.Break?
    ensures var a := Arm(w, input);
      && !BeginsDrain(a.acts)
      && (a.worker.phase.Turning? ==>
            && (a.worker.needsDrain <==> (Acknowledges(input) || (w.needsDrain && !input.DrainReply?)))
            && (a.worker.draining ==> w.draining && !Acknowledges(input) && !input.DrainReply?)
            && (input.DrainReply? ==> input.idle && w.draining))
  {
    if input.Read? && input.command.Some? && input.command.value.SteerRun? {
      SteerDrains(w, input.command.value.event, input.command.value.prompt);
    }
  }

  lemma TopDrains(w: Worker)
    ensures var b := Top(w);
      && (b.worker.phase.Turning? ==> |b.worker.sessions| + |b.worker.interjections| == |w.sessions| + |w.interjections|)
      && (b.worker.phase.Turning? ==>
            && (b.worker.draining ==> w.draining || BeginsDrain(b.acts))
            && (!b.worker.needsDrain ==> !w.needsDrain))
      && (b.worker.phase.Turning? ==> w.phase.Turning?)
  {
    var b := Top(w);
    assert b.acts != [] ==> (b.acts[0].BeginDrain? ==> BeginsDrain(b.acts));
  }

  /** An arm's effect on what the agent owes. */
  ghost predicate ArmOwes(w: Worker, input: Input, a: Out) {
    && !BeginsDrain(a.acts)
    && (a.worker.phase.Turning? ==>
          && (a.worker.needsDrain <==> (Acknowledges(input) || (w.needsDrain && !input.DrainReply?)))
          && (a.worker.draining ==> w.draining && !Acknowledges(input) && !input.DrainReply?)
          && (input.DrainReply? ==> input.idle && w.draining)
          && |a.worker.sessions| + |a.worker.interjections|
             == |w.sessions| + |w.interjections|
                + (if AsksTurn(a.acts) then 1 else 0) - (if input.SteerReply? || input.InterjectReply? then 1 else 0))
  }

  lemma ArmOwesSo(w: Worker, input: Input)
    requires Enabled(w, input) && !input.Break? && (w.phase.Setup? ==> Fresh(w))
    ensures ArmOwes(w, input, Arm(w, input))
  {
    ArmDrains(w, input);
    ArmOutstanding(w, input);
  }

  /** After the arm of a pass: with no drain needed, every acknowledgement so far has been drained. */
  lemma ArmDrained(t: Trace, input: Input, a: Out, record: Record)
    requires DrainOk(t) && ArmOwes(t.worker, input, a) && record.input == input && !t.worker.phase.Over?
    requires t.worker.phase.Setup? ==> t.log == []
    requires a.worker.phase.Turning?
    ensures !a.worker.needsDrain ==> AllDrained(t.log + [record])
    ensures a.worker.draining || BeginsDrain(record.acts) ==> AllDraining(t.log + [record])
  {
    var log := t.log + [record];
    forall k | 0 <= k < |log| && Acknowledges(log[k].input)
      ensures !a.worker.needsDrain ==> DrainedSince(log, k)
      ensures a.worker.draining || BeginsDrain(record.acts) ==> DrainingSince(log, k)
    {
      assert log[|t.log|] == record;
      DrainedLonger(t.log, log, k);
      if k < |t.log| {
        assert Acknowledges(t.log[k].input);
        if input.DrainReply? { DrainFinishes(t.log, record, k); }
      }
    }
  }

  lemma OwedPass(t: Trace, u: Trace, input: Input, a: Out, record: Record)
    requires DrainOk(t) && ArmOwes(t.worker, input, a) && !t.worker.phase.Over?
    requires u.log == t.log + [record] && record.input == input
    requires a.worker.phase.Turning? && record.acts == a.acts + Top(a.worker).acts
    ensures Outstanding(u.log) == |a.worker.sessions| + |a.worker.interjections|
  {
    TopFacts(a.worker);
    JoinedActs(a.acts, Top(a.worker).acts);
    OutstandingLonger(t, u, record);
  }

  lemma AdvanceParts(t: Trace, input: Input)
    requires Enabled(t.worker, input) && !input.Break? && (t.worker.phase.Setup? ==> Fresh(t.worker))
    ensures var a := Arm(t.worker, input); var b := Top(a.worker); var u := Advance(t, input);
      && u == Trace(b.worker, t.log + [Record(input, a.sends + b.sends, a.acts + b.acts)])
      && !u.worker.phase.Setup? && (u.worker.phase.Turning? ==> a.worker.phase.Turning?)
  {
    ArmPrompts(t.worker, input);
    TopDrains(Arm(t.worker, input).worker);
  }

  lemma DrainStep(t: Trace, input: Input)
    requires OutcomeOk(t) && DrainOk(t) && Possible(t, input)
    ensures DrainOk(Advance(t, input))
  {
    if input.Break? {
      BreakFacts(t.worker, input);
    } else {
      ArmOwesSo(t.worker, input);
      AdvanceParts(t, input);
      DrainPass(t, Advance(t, input), input, Arm(t.worker, input));
    }
  }

  lemma DrainPass(t: Trace, u: Trace, input: Input, a: Out)
    requires DrainOk(t) && ArmOwes(t.worker, input, a) && !t.worker.phase.Over? && (t.worker.phase.Setup? ==> t.log == [])
    requires var b := Top(a.worker); u == Trace(b.worker, t.log + [Record(input, a.sends + b.sends, a.acts + b.acts)])
    requires u.worker.phase.Turning? ==> a.worker.phase.Turning?
    requires !u.worker.phase.Setup?
    ensures DrainOk(u)
  {
    var b := Top(a.worker);
    var record := Record(input, a.sends + b.sends, a.acts + b.acts);
    if b.worker.phase.Turning? {
      OwedPass(t, u, input, a, record);
      ArmDrained(t, input, a, record);
      DrainTop(u, a.worker, a.acts);
    }
  }

  lemma DrainTop(u: Trace, v: Worker, acts: seq<Act>)
    requires u.worker == Top(v).worker && u.worker.phase.Turning?
    requires Outstanding(u.log) == |v.sessions| + |v.interjections|
    requires !v.needsDrain ==> AllDrained(u.log)
    requires v.draining || BeginsDrain(acts + Top(v).acts) ==> AllDraining(u.log)
    ensures DrainOk(u)
  {
    TopDrains(v);
    JoinedActs(acts, Top(v).acts);
  }

  // ---------------------------------------------------------------- the report

  /** An outcome found at the top of the loop is the answer to the newest prompt. */
  lemma TopAnswer(t: Trace, u: Trace, input: Input, record: Record)
    requires OutcomeOk(t) && Enabled(t.worker, input) && !input.Break?
    requires u.log == t.log + [record] && record.input == input
    requires var a := Arm(t.worker, input); record.acts == a.acts + Top(a.worker).acts && Submitted(Top(a.worker).acts).None?
    requires Arm(t.worker, input).worker.phase.Turning? && Arm(t.worker, input).worker.primary.Some?
    ensures NewestAnswer(u.log) == Arm(t.worker, input).worker.primary
  {
    var a := Arm(t.worker, input);
    ArmPrompts(t.worker, input);
    JoinedSubmits(a.acts, Top(a.worker).acts);
    PromptsLonger(t, u, record);
  }

  lemma ReportStep(t: Trace, input: Input)
    requires OutcomeOk(t) && DrainOk(t) && StopOk(t) && Possible(t, input)
    ensures ReportOk(Advance(t, input))
  {
    var u := Advance(t, input);
    var out := Step(t.worker, input);
    ReportsLonger(t, u, Record(input, out.sends, out.acts));
    forall st ensures !Reports(t.log, st) {}
    if input.Break? {
      BreakFacts(t.worker, input);
    } else {
      StopStep(t, input);
      ReportPass(t, u, input, Arm(t.worker, input));
    }
  }

  lemma ReportPass(t: Trace, u: Trace, input: Input, a: Out)
    requires OutcomeOk(t) && DrainOk(t) && Possible(t, input) && !input.Break? && a == Arm(t.worker, input)
    requires var b := Top(a.worker); u == Trace(b.worker, t.log + [Record(input, a.sends + b.sends, a.acts + b.acts)])
    requires StopOk(u)
    requires forall st :: Reports(u.log, st) ==> HasFinished(a.sends + Top(a.worker).sends, st)
    ensures ReportOk(u)
  {
    var b := Top(a.worker);
    var record := Record(input, a.sends + b.sends, a.acts + b.acts);
    JoinedSends(a.sends, b.sends);
    ArmReports(t.worker, input);
    TopReports(a.worker);
    TopFacts(a.worker);
    if exists st :: HasFinished(b.sends, st) {
      TopAnswer(t, u, input, record);
      ArmOwesSo(t.worker, input);
      OwedPass(t, u, input, a, record);
      ArmDrained(t, input, a, record);
      TopReportOk(u, a.worker, b);
    } else {
      ArmReportOk(u, a);
    }
  }

  lemma ArmReportOk(u: Trace, a: Out)
    requires forall st :: Reports(u.log, st) ==> u.worker.phase.Over? && (st.Failed? || st.Interrupted?)
    ensures ReportOk(u)
  {}

  lemma TopReportOk(u: Trace, v: Worker, b: Out)
    requires b == Top(v) && u.worker == b.worker && v.phase.Turning? && v.primary.Some?
    requires NewestAnswer(u.log) == v.primary && Outstanding(u.log) == |v.sessions| + |v.interjections|
    requires !v.needsDrain ==> AllDrained(u.log)
    requires v.stopping <==> Stopped(u.log)
    requires forall st :: Reports(u.log, st) ==> HasFinished(b.sends, st) || st.Failed? || st.Interrupted?
    requires u.worker.phase.Over?
    ensures ReportOk(u)
  {
    TopReports(v);
  }

  // ---------------------------------------------------------------- permissions

  lemma AsksLonger(t: Trace, u: Trace, record: Record)
    requires u.log == t.log + [record]
    ensures forall q :: WasAsked(u.log, q) <==> WasAsked(t.log, q) || (record.input.Ask? && record.input.request == q)
    ensures forall q :: AnswerCount(u.log, q) == AnswerCount(t.log, q) + (if AnsweredIn(record.acts, q) then 1 else 0)
  {
    Longer(t, u, record);
    assert u.log[|t.log|] == record;
    forall q | WasAsked(t.log, q) ensures WasAsked(u.log, q) {
      var k :| 0 <= k < |t.log| && t.log[k].input.Ask? && t.log[k].input.request == q;
      assert u.log[k].input.request == q;
    }
  }

  predicate AsksNow(input: Input, q: RequestId) {
    input.Ask? && input.request == q
  }

  /** An arm answers exactly the requests that stop being open, or that it refuses outright. */
  lemma ArmAnswers(w: Worker, input: Input, q: RequestId)
    requires Enabled(w, input) && !input.Break? && (w.stopping ==> w.asked == map[])
    ensures var a := Arm(w, input);
      && (AnsweredIn(a.acts, q) <==> (q in w.asked || AsksNow(input, q)) && q !in a.worker.asked)
      && (q in a.worker.asked ==> q in w.asked || AsksNow(input, q))
      && (a.worker.stopping || a.worker.phase.Over? ==> a.worker.asked == map[])
  {
    if input.Read? {
      ReadAnswers(w, input.command, q);
    } else {
      var a := Arm(w, input);
      ArmActsFew(w, input);
      assert a.acts != [] ==> (Answers(a.acts[0], q) ==> AnsweredIn(a.acts, q));
    }
  }

  lemma ReadAnswers(w: Worker, command: Option<Command>, q: RequestId)
    requires w.phase.Turning? && w.open && (w.stopping ==> w.asked == map[])
    ensures var a := Arm(w, Read(command));
      && (AnsweredIn(a.acts, q) <==> q in w.asked && q !in a.worker.asked)
      && (q in a.worker.asked ==> q in w.asked)
      && (a.worker.stopping || a.worker.phase.Over? ==> a.worker.asked == map[])
  {
    var a := Arm(w, Read(command));
    assert a.acts != [] ==> (Answers(a.acts[0], q) ==> AnsweredIn(a.acts, q));
    if command.Some? && command.value.SteerRun? && !w.stopping {
      SteerAnswers(w, command.value.event, command.value.prompt, q);
    }
  }

  lemma SteerAnswers(w: Worker, event: EventId, prompt: string, q: RequestId)
    ensures var a := SteerNow(w, event, prompt); !AnsweredIn(a.acts, q) && a.worker.asked == w.asked
  {}

  lemma TopAnswers(w: Worker, q: RequestId)
    requires w.stopping || w.phase.Over? ==> w.asked == map[]
    ensures var b := Top(w);
      && (AnsweredIn(b.acts, q) <==> q in w.asked && q !in b.worker.asked)
      && (q in b.worker.asked ==> q in w.asked)
      && (b.worker.stopping || b.worker.phase.Over? ==> b.worker.asked == map[])
  {
    var b := Top(w);
    assert b.acts != [] ==> (Answers(b.acts[0], q) ==> AnsweredIn(b.acts, q));
  }

  lemma PassAnswers(w: Worker, input: Input, q: RequestId)
    requires Enabled(w, input) && (w.stopping ==> w.asked == map[])
    ensures var out := Step(w, input);
      && (AnsweredIn(out.acts, q) <==> (q in w.asked || AsksNow(input, q)) && q !in out.worker.asked)
      && (q in out.worker.asked ==> q in w.asked || AsksNow(input, q))
      && (out.worker.stopping || out.worker.phase.Over? ==> out.worker.asked == map[])
  {
    if input.Break? {
      BreakFacts(w, input);
      assert Answers(Step(w, input).acts[0], q) <==> q in w.asked;
    } else {
      var a := Arm(w, input);
      ArmAnswers(w, input, q);
      TopAnswers(a.worker, q);
      JoinedActs(a.acts, Top(a.worker).acts);
    }
  }

  lemma AskStep(t: Trace, input: Input)
    requires AskOk(t) && Possible(t, input)
    ensures AskOk(Advance(t, input))
  {
    var u := Advance(t, input);
    var out := Step(t.worker, input);
    AsksLonger(t, u, Record(input, out.sends, out.acts));
    forall q
      ensures q in u.worker.asked ==> WasAsked(u.log, q)
      ensures AnswerCount(u.log, q) == if WasAsked(u.log, q) && q !in u.worker.asked then 1 else 0
    {
      PassAnswers(t.worker, input, q);
    }
    PassAnswers(t.worker, input, RequestId(""));
  }

  // ---------------------------------------------------------------- every run of the loop

  ghost predicate TurnInv(t: Trace) {
    OutcomeOk(t) && DrainOk(t) && StopOk(t) && ReportOk(t) && AskOk(t)
  }

  lemma {:induction false} EveryTrace(start: Worker, inputs: seq<Input>)
    requires Fresh(start) && Valid(start, inputs)
    ensures TurnInv(TraceOf(start, inputs))
    decreases |inputs|
  {
    if inputs != [] {
      var front, input := inputs[..|inputs| - 1], inputs[|inputs| - 1];
      EveryTrace(start, front);
      var t := TraceOf(start, front);
      OutcomeStep(t, input);
      DrainStep(t, input);
      StopStep(t, input);
      ReportStep(t, input);
      AskStep(t, input);
    }
  }

  /**
   The outcome a run reports is the agent's answer to its newest prompt. Completed is reported only when no steering
   request is outstanding, when a drain that began after the last acknowledged interjection has finished, and when
   the run was not asked to stop; a stopped run that completes reports Cancelled.
   */
  lemma ReportIsNewestAnswer(start: Worker, inputs: seq<Input>, status: Status)
    requires Fresh(start) && Valid(start, inputs) && Reports(TraceOf(start, inputs).log, status)
    ensures var log := TraceOf(start, inputs).log;
      && (status.Completed? ==> NewestAnswer(log) == Some(Completed) && !Stopped(log) && Outstanding(log) == 0 && AllDrained(log))
      && (status.Cancelled? ==> NewestAnswer(log) == Some(Cancelled) || (NewestAnswer(log) == Some(Completed) && Stopped(log)))
  {
    EveryTrace(start, inputs);
  }

  /** A cancellation that is read asks the agent to stop exactly once, and the run then never reports Completed. */
  lemma CancelOnce(start: Worker, inputs: seq<Input>)
    requires Fresh(start) && Valid(start, inputs)
    ensures var log := TraceOf(start, inputs).log;
      && CancelCount(log) == (if Stopped(log) then 1 else 0)
      && (Stopped(log) ==> !Reports(log, Completed))
  {
    EveryTrace(start, inputs);
  }

  /** Every permission request of the agent is answered at most once, and exactly once by the end of the run. */
  lemma PermissionsAnsweredOnce(start: Worker, inputs: seq<Input>, q: RequestId)
    requires Fresh(start) && Valid(start, inputs)
    ensures var t := TraceOf(start, inputs);
      && AnswerCount(t.log, q) <= 1
      && (WasAsked(t.log, q) && (t.worker.phase.Over? || t.worker.stopping) ==> AnswerCount(t.log, q) == 1)
      && (!WasAsked(t.log, q) ==> AnswerCount(t.log, q) == 0)
  {
    EveryTrace(start, inputs);
  }
}
