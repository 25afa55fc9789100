/** What is put before an agent says what its messages said, and can be taken apart into them again. */
module Wording {
  import opened Model
  import opened Text
  import opened Context
  import opened Journal
  import opened Rules
  import opened Invariants
  import opened Lifecycle
  import opened Steps
  import opened History
  import opened PromptBlocks
  import opened TurnLoop
  import opened Handing
  import opened Protocol
  import opened Delivery
  import opened DeliverySteps
  import opened Moves
  import opened System
  import EventSteps
  import Capacity
  import Frames

  // ---------------------------------------------------------------- follow-ups and their prompts

  /** A follow-up was journaled for this message, with this prompt. */
  ghost predicate Says(j: Journal, e: EventId, prompt: string) {
    exists i :: 0 <= i < |j.steers| && j.steers[i].event == e && j.steers[i].prompt == prompt
  }

  ghost predicate SpeaksAs(j: Journal, events: seq<EventId>, prompts: seq<string>, text: string) {
    && |prompts| == |events| && text == JoinLines(prompts)
    && forall k :: 0 <= k < |events| ==> Says(j, events[k], prompts[k])
  }

  /** The text is the prompts of these follow-ups, joined in their order. */
  ghost predicate Speaks(j: Journal, events: seq<EventId>, text: string) {
    exists prompts :: SpeaksAs(j, events, prompts, text)
  }

  lemma SaysStays(cfg: Config, j: Journal, k: Journal, e: EventId, prompt: string)
    requires LifeOk(cfg, j) && Grows(j, k) && Says(j, e, prompt)
    ensures Says(k, e, prompt)
  {
    var i :| 0 <= i < |j.steers| && j.steers[i].event == e && j.steers[i].prompt == prompt;
    assert SteerGrows(j, k, i);
    assert k.steers[i].event == e && k.steers[i].prompt == prompt;
  }

  lemma SpeaksStays(cfg: Config, j: Journal, k: Journal, events: seq<EventId>, text: string)
    requires LifeOk(cfg, j) && Grows(j, k) && Speaks(j, events, text)
    ensures Speaks(k, events, text)
  {
    var prompts :| SpeaksAs(j, events, prompts, text);
    forall n | 0 <= n < |events| ensures Says(k, events[n], prompts[n]) { SaysStays(cfg, j, k, events[n], prompts[n]); }
    assert SpeaksAs(k, events, prompts, text);
  }

  // ---------------------------------------------------------------- taking joined prompts apart

  predicate PromptsFlush(j: Journal) {
    forall i :: 0 <= i < |j.steers| ==> Unindented(j.steers[i].prompt)
  }

  predicate PlainOp(op: Op) {
    op.Message? ==> Plain(op.event) && AllPlain(op.history)
  }

  predicate PlainOps(ops: seq<Op>) {
    forall i :: 0 <= i < |ops| ==> PlainOp(ops[i])
  }

  /** A message adds at most one follow-up, with the prompt prepared for it. */
  ghost predicate AddsRow(cfg: Config, j: Journal, event: Incoming, history: seq<Incoming>, k: Journal) {
    || |k.steers| == |j.steers|
    || exists run, prompt :: k.steers == j.steers + [SteerRow(event.event, run, prompt, Pending)] && Prepares(cfg, j, event, history, prompt)
  }

  lemma FollowUpRow(cfg: Config, j: Journal, event: Incoming, conv: ConvKey, run: RunId, prompt: string, p: Option<Prepared>)
    requires IsRun(j.runs, run)
    ensures var r := FollowUp(cfg, j, event, conv, run, prompt, p);
            r.Success? ==> r.value.journal.steers == j.steers + [SteerRow(event.event, run, prompt, Pending)]
  {
    Frames.StageFrame(j.(steers := j.steers + [SteerRow(event.event, run, prompt, Pending)]), conv, run, event.event, p, true);
  }

  lemma OpenRunRow(cfg: Config, j: Journal, event: Incoming, conv: ConvKey, prompt: string, p: Option<Prepared>)
    ensures var r := OpenRun(cfg, j, event, conv, prompt, p); r.Success? ==> r.value.journal.steers == j.steers
  {
    Frames.SayFrame(j, conv, cfg.text(AtCapacity));
    Frames.StageFrame(j.(runs := j.runs + [RunRow(conv, prompt, Queued)], inputs := j.inputs[|j.runs| := event.event]),
                      conv, |j.runs|, event.event, p, false);
  }

  lemma MessageRow(cfg: Config, j: Journal, event: Incoming, room: RoomSnapshot, history: seq<Incoming>, now: int)
    ensures AddsRow(cfg, j, event, history, Heard(j, Handle(cfg, j, event, room, Some(history), now)).journal)
  {
    if Handle(cfg, j, event, room, Some(history), now).Success? {
      if Frames.New(cfg, j, event, room) {
        NewRow(cfg, j, event, room, history, now, Admit(cfg, j, event, room).conv);
      } else {
        Frames.TurnedAway(cfg, j, event, room, Some(history), now);
      }
    }
  }

  lemma NewRow(cfg: Config, j: Journal, event: Incoming, room: RoomSnapshot, history: seq<Incoming>, now: int, conv: ConvKey)
    requires Handle(cfg, j, event, room, Some(history), now).Success?
    requires Admit(cfg, j, event, room) == Admitted(conv) && (event.room, event.event) !in j.inbox
    ensures AddsRow(cfg, j, event, history, Handle(cfg, j, event, room, Some(history), now).value.journal)
  {
    var j1 := Register(cfg, j, event, room, conv);
    if IsCommand(event.body) {
      Frames.CommandFrame(cfg, j1, conv, ParseCommand(event.body), now);
    } else {
      var p := PrepareContext(cfg, j, event, history).value;
      var active := FindActive(j1.runs, conv);
      OpenRunRow(cfg, j1, event, conv, p.prompt, Some(p));
      if active.Some? { FollowUpRow(cfg, j1, event, conv, active.value, p.prompt, Some(p)); }
      assert Prepares(cfg, j, event, history, p.prompt);
    }
  }

  lemma RowFlush(cfg: Config, j: Journal, op: Op, k: Journal)
    requires PlainNotices(cfg) && PlainOp(op) && LifeOk(cfg, j) && Grows(j, k) && PromptsFlush(j)
    requires if op.Message? then AddsRow(cfg, j, op.event, op.history, k) else |k.steers| == |j.steers|
    ensures PromptsFlush(k)
  {
    forall i | 0 <= i < |k.steers| ensures Unindented(k.steers[i].prompt) {
      if i < |j.steers| {
        assert SteerGrows(j, k, i);
      } else {
        var run, prompt :| k.steers == j.steers + [SteerRow(op.event.event, run, prompt, Pending)] && Prepares(cfg, j, op.event, op.history, prompt);
        ContextSplits(cfg, j, op.event, op.history, prompt);
      }
    }
  }

  lemma NextFlush(cfg: Config, j: Journal, op: Op)
    requires PlainNotices(cfg) && PlainOp(op) && Genuine(cfg, op) && Inv(cfg, j) && PromptsFlush(j)
    ensures PromptsFlush(Next(cfg, j, op).journal)
  {
    NextGood(cfg, j, op);
    if op.Message? { MessageRow(cfg, j, op.event, op.room, op.history, op.now); } else { NextFrame(cfg, j, op); }
    RowFlush(cfg, j, op, Next(cfg, j, op).journal);
  }

  /** Every follow-up ever journaled starts a block of its own. */
  lemma {:induction false} PromptsStayFlush(cfg: Config, ops: seq<Op>, j: Journal)
    requires Lives(cfg, ops, j) && PlainOps(ops) && PlainNotices(cfg)
    ensures PromptsFlush(j)
    decreases |ops|
  {
    if ops != [] {
      var front := ops[..|ops| - 1];
      PromptsStayFlush(cfg, front, After(cfg, front));
      Reachable(cfg, front, After(cfg, front));
      NextFlush(cfg, After(cfg, front), ops[|ops| - 1]);
    }
  }

  lemma SpokenSplits(j: Journal, events: seq<EventId>, prompts: seq<string>, text: string)
    requires PromptsFlush(j) && SpeaksAs(j, events, prompts, text) && events != []
    ensures Split(text) == SplitEach(prompts)
  {
    forall n | 0 <= n < |prompts| ensures Unindented(prompts[n]) { assert Says(j, events[n], prompts[n]); }
    JoinedPromptsSplit(prompts);
  }

  /** The prompt of the conversation's next run, if there are leftovers to make one of. */
  ghost predicate Continued(cfg: Config, j: Journal, conv: ConvKey, prompt: string) {
    && ResumeOne(cfg, j, conv).value != []
    && var k := ResumeOne(cfg, j, conv).journal; |k.runs| == |j.runs| + 1 && k.runs[|j.runs|].prompt == prompt
  }

  lemma LeftoversSay(j: Journal, conv: ConvKey, rows: seq<SteerRow>)
    requires rows == Leftovers(j, conv, |j.steers|)
    ensures SpeaksAs(j, Events(rows), Prompts(rows), JoinLines(Prompts(rows)))
  {
    forall k | 0 <= k < |Events(rows)| ensures Says(j, Events(rows)[k], Prompts(rows)[k]) {
      assert rows[k] in rows;
    }
  }

  /** A continuation's prompt splits into the blocks of the leftovers it continues, one after the other. */
  lemma ContinuationSplits(cfg: Config, ops: seq<Op>, j: Journal, conv: ConvKey, prompt: string)
    requires Lives(cfg, ops, j) && PlainOps(ops) && PlainNotices(cfg) && Continued(cfg, j, conv, prompt)
    ensures Split(prompt) == SplitEach(Prompts(Leftovers(j, conv, |j.steers|)))
  {
    PromptsStayFlush(cfg, ops, j);
    ContinuedSplits(cfg, j, conv, prompt);
  }

  lemma ContinuedPrompt(cfg: Config, j: Journal, conv: ConvKey, prompt: string)
    requires Continued(cfg, j, conv, prompt)
    ensures var rows := Leftovers(j, conv, |j.steers|); rows != [] && prompt == JoinLines(Prompts(rows))
  {}

  lemma ContinuedSplits(cfg: Config, j: Journal, conv: ConvKey, prompt: string)
    requires PromptsFlush(j) && Continued(cfg, j, conv, prompt)
    ensures Split(prompt) == SplitEach(Prompts(Leftovers(j, conv, |j.steers|)))
  {
    var rows := Leftovers(j, conv, |j.steers|);
    LeftoversSay(j, conv, rows);
    ContinuedPrompt(cfg, j, conv, prompt);
    SpokenSplits(j, Events(rows), Prompts(rows), prompt);
  }

  // ---------------------------------------------------------------- one worker

  /** What a worker asks its agent to read is what the follow-ups it names said. */
  ghost predicate Faithful(j: Journal, act: Act) {
    match act
    case Submit(_, _, text, events) => events != [] && Speaks(j, events, text)
    case RequestSteer(e, text) => Says(j, e, text)
    case Interject(e, text) => Says(j, e, text)
    case _ => true
  }

  ghost predicate AllFaithful(j: Journal, acts: seq<Act>) {
    forall n :: 0 <= n < |acts| ==> Faithful(j, acts[n])
  }

  ghost predicate WorkerSays(j: Journal, w: Worker) {
    && (forall n :: 0 <= n < |w.steering| ==> Says(j, w.steering[n].event, w.steering[n].prompt))
    && (forall n :: 0 <= n < |w.sessions| ==> Says(j, w.sessions[n].event, w.sessions[n].prompt))
  }

  ghost predicate QueueSays(j: Journal, queue: seq<Command>) {
    forall n :: 0 <= n < |queue| && queue[n].SteerRun? ==> Says(j, queue[n].event, queue[n].prompt)
  }

  lemma OneSpeaks(j: Journal, e: EventId, prompt: string)
    requires Says(j, e, prompt)
    ensures Speaks(j, [e], prompt)
  {
    assert SpeaksAs(j, [e], [prompt], prompt);
  }

  lemma NotesSpeak(j: Journal, notes: seq<Note>)
    requires forall n :: 0 <= n < |notes| ==> Says(j, notes[n].event, notes[n].prompt)
    ensures Speaks(j, Notes(notes), JoinLines(NotePrompts(notes)))
  {
    assert SpeaksAs(j, Notes(notes), NotePrompts(notes), JoinLines(NotePrompts(notes)));
  }

  lemma SteerSays(j: Journal, w: Worker, event: EventId, prompt: string)
    requires WorkerSays(j, w) && Says(j, event, prompt)
    ensures var a := SteerNow(w, event, prompt); WorkerSays(j, a.worker) && AllFaithful(j, a.acts)
  {
    OneSpeaks(j, event, prompt);
    SteerKeeps(j, w, event, prompt);
    SteerActs(w, event, prompt);
  }

  lemma SteerKeeps(j: Journal, w: Worker, event: EventId, prompt: string)
    requires WorkerSays(j, w) && Says(j, event, prompt)
    ensures WorkerSays(j, SteerNow(w, event, prompt).worker)
  {
    var v := SteerNow(w, event, prompt).worker;
    forall n | 0 <= n < |v.steering| ensures Says(j, v.steering[n].event, v.steering[n].prompt) {
      assert n < |w.steering| ==> v.steering[n] == w.steering[n];
    }
    forall n | 0 <= n < |v.sessions| ensures Says(j, v.sessions[n].event, v.sessions[n].prompt) {
      assert n < |w.sessions| ==> v.sessions[n] == w.sessions[n];
    }
  }

  lemma SteerActs(w: Worker, event: EventId, prompt: string)
    ensures var acts := SteerNow(w, event, prompt).acts;
            || acts == [] || acts == [RequestSteer(event, prompt)] || acts == [Interject(event, prompt)]
            || acts == [Submit(w.turn, w.generation + 1, prompt, [event])]
  {}

  lemma ReadSays(j: Journal, w: Worker, queue: seq<Command>, input: Input)
    requires Enabled(w, input) && input.Read? && Reads(queue, input) && WorkerSays(j, w) && QueueSays(j, queue)
    ensures var a := Arm(w, input); WorkerSays(j, a.worker) && AllFaithful(j, a.acts)
  {
    if input.command.Some? && input.command.value.SteerRun? && !w.stopping {
      SteerSays(j, w, input.command.value.event, input.command.value.prompt);
    }
  }

  lemma AnswerSays(j: Journal, w: Worker, i: nat, reply: SteerOutcome)
    requires Enabled(w, SteerReply(i, reply)) && WorkerSays(j, w)
    ensures var a := Arm(w, SteerReply(i, reply)); WorkerSays(j, a.worker) && AllFaithful(j, a.acts)
  {}

  lemma ArmSays(j: Journal, w: Worker, queue: seq<Command>, input: Input)
    requires Enabled(w, input) && !input.Break? && !input.Begin? && Reads(queue, input) && WorkerSays(j, w) && QueueSays(j, queue)
    ensures var a := Arm(w, input); WorkerSays(j, a.worker) && AllFaithful(j, a.acts)
  {
    match input
    case Read(_) => ReadSays(j, w, queue, input);
    case SteerReply(i, reply) => AnswerSays(j, w, i, reply);
    case _ =>
  }

  lemma TopSays(j: Journal, w: Worker)
    requires WorkerSays(j, w)
    ensures var b := Top(w); WorkerSays(j, b.worker) && AllFaithful(j, b.acts)
  {
    NotesSpeak(j, w.steering);
  }

  lemma JoinedFaithful(j: Journal, a: seq<Act>, b: seq<Act>)
    requires AllFaithful(j, a) && AllFaithful(j, b)
    ensures AllFaithful(j, a + b)
  {}

  /** What one pass asks the agent to read. */
  ghost predicate PassFaithful(j: Journal, w: Worker, input: Input, acts: seq<Act>) {
    if input.Begin? then acts == [Submit(0, 0, w.prompt, w.carried)] else AllFaithful(j, acts)
  }

  lemma StepSays(j: Journal, w: Worker, queue: seq<Command>, input: Input)
    requires Enabled(w, input) && Reads(queue, input) && WorkerSays(j, w) && QueueSays(j, queue)
    requires input.Begin? ==> w.primary.None?
    ensures var out := TurnLoop.Step(w, input); WorkerSays(j, out.worker) && PassFaithful(j, w, input, out.acts)
  {
    if !input.Break? {
      var a := Arm(w, input);
      if !input.Begin? { ArmSays(j, w, queue, input); }
      TopSays(j, a.worker);
      if !input.Begin? { JoinedFaithful(j, a.acts, Top(a.worker).acts); }
    }
  }

  /** What a run was opened with stays; once its first prompt is out it is not set up again. */
  predicate Settled(w: Worker, v: Worker) {
    v.prompt == w.prompt && v.carried == w.carried && v.run == w.run
  }

  lemma ReadSettled(w: Worker, command: Option<Command>)
    requires w.phase.Turning? && w.open
    ensures var v := Arm(w, Read(command)).worker; Settled(w, v) && !v.phase.Setup?
  {
    if command.Some? && command.value.SteerRun? && !w.stopping { SteerSettled(w, command.value.event, command.value.prompt); }
  }

  lemma SteerSettled(w: Worker, event: EventId, prompt: string)
    ensures var v := SteerNow(w, event, prompt).worker; Settled(w, v) && v.phase == w.phase
  {}

  lemma ArmSettled(w: Worker, input: Input)
    requires Enabled(w, input) && !input.Break?
    ensures var v := Arm(w, input).worker; Settled(w, v) && !v.phase.Setup?
  {
    if input.Read? { ReadSettled(w, input.command); }
  }

  lemma TopSettled(w: Worker)
    ensures var v := Top(w).worker; Settled(w, v) && (v.phase.Setup? ==> w.phase.Setup?)
  {}

  lemma StepSettled(w: Worker, input: Input)
    requires Enabled(w, input)
    ensures var v := TurnLoop.Step(w, input).worker; Settled(w, v) && !v.phase.Setup?
  {
    if !input.Break? {
      ArmSettled(w, input);
      TopSettled(Arm(w, input).worker);
    }
  }

  lemma RestSays(j: Journal, queue: seq<Command>, input: Input)
    requires Reads(queue, input) && QueueSays(j, queue)
    ensures QueueSays(j, Rest(queue, input))
  {}

  // ---------------------------------------------------------------- the system

  /** If the run continues leftovers, the prompt that opens it is theirs, in the order it names them. */
  ghost predicate OpensWith(j: Journal, r: RunId, events: seq<EventId>, prompt: string) {
    r in j.inputs && (HasSteer(j.steers, j.inputs[r]) ==> Speaks(j, events, prompt))
  }

  ghost predicate LinkSays(j: Journal, r: RunId, link: Link) {
    && IsRun(j.runs, r) && link.worker.run == r && link.worker.prompt == j.runs[r].prompt
    && (link.worker.phase.Setup? ==> link.worker.primary.None? && OpensWith(j, r, link.worker.carried, link.worker.prompt))
    && WorkerSays(j, link.worker) && QueueSays(j, link.queue)
  }

  ghost predicate QueuedSay(j: Journal) {
    forall r :: IsRun(j.runs, r) && j.runs[r].status.Queued? ==> OpensWith(j, r, Carried(j, r), j.runs[r].prompt)
  }

  ghost predicate LinksSay(j: Journal, links: map<RunId, Link>) {
    forall r :: r in links ==> LinkSays(j, r, links[r])
  }

  ghost predicate TodoSays(j: Journal, todo: seq<Effect>) {
    forall n :: 0 <= n < |todo| && todo[n].Steer? ==> Says(j, todo[n].event, todo[n].prompt)
  }

  ghost predicate WordsOk(s: Sys) {
    QueuedSay(s.j) && LinksSay(s.j, s.links) && TodoSays(s.j, s.todo)
  }

  /** `k` comes after `j`, and no follow-up has been journaled for what had opened a run. */
  ghost predicate Later(cfg: Config, j: Journal, k: Journal) {
    && LifeOk(cfg, j) && Grows(j, k)
    && forall r: RunId :: r in j.inputs && HasSteer(k.steers, j.inputs[r]) ==> HasSteer(j.steers, j.inputs[r])
  }

  lemma SameRowsLater(cfg: Config, j: Journal, k: Journal)
    requires LifeOk(cfg, j) && Grows(j, k) && |k.steers| == |j.steers|
    ensures Later(cfg, j, k)
  {
    forall r: RunId | r in j.inputs && HasSteer(k.steers, j.inputs[r]) ensures HasSteer(j.steers, j.inputs[r]) {
      var i :| 0 <= i < |k.steers| && k.steers[i].event == j.inputs[r];
      assert SteerGrows(j, k, i);
    }
  }

  lemma OpensStays(cfg: Config, j: Journal, k: Journal, r: RunId, events: seq<EventId>, prompt: string)
    requires Later(cfg, j, k) && OpensWith(j, r, events, prompt)
    ensures OpensWith(k, r, events, prompt)
  {
    if HasSteer(k.steers, k.inputs[r]) { SpeaksStays(cfg, j, k, events, prompt); }
  }

  lemma LinkStays(cfg: Config, j: Journal, k: Journal, r: RunId, link: Link)
    requires Later(cfg, j, k) && LinkSays(j, r, link)
    ensures LinkSays(k, r, link)
  {
    if link.worker.phase.Setup? { OpensStays(cfg, j, k, r, link.worker.carried, link.worker.prompt); }
    forall e, p | Says(j, e, p) ensures Says(k, e, p) { SaysStays(cfg, j, k, e, p); }
  }

  lemma LinksStay(cfg: Config, j: Journal, k: Journal, links: map<RunId, Link>)
    requires Later(cfg, j, k) && LinksSay(j, links)
    ensures LinksSay(k, links)
  {
    forall r | r in links ensures LinkSays(k, r, links[r]) { LinkStays(cfg, j, k, r, links[r]); }
  }

  lemma TodoStays(cfg: Config, j: Journal, k: Journal, todo: seq<Effect>, after: seq<Effect>)
    requires Later(cfg, j, k) && TodoSays(j, todo) && (forall e :: e in after && e.Steer? ==> e in todo)
    ensures TodoSays(k, after)
  {
    forall n | 0 <= n < |after| && after[n].Steer? ensures Says(k, after[n].event, after[n].prompt) {
      assert after[n] in todo;
      var m :| 0 <= m < |todo| && todo[m] == after[n];
      SaysStays(cfg, j, k, todo[m].event, todo[m].prompt);
    }
  }

  /** Every run still queued was queued before, with the same messages to open it. */
  ghost predicate QueuedStay(j: Journal, k: Journal) {
    forall r :: IsRun(k.runs, r) && k.runs[r].status.Queued? ==>
      IsRun(j.runs, r) && j.runs[r].status.Queued? && Carried(k, r) == Carried(j, r)
  }

  lemma QueuedStaySo(cfg: Config, j: Journal, k: Journal)
    requires Later(cfg, j, k) && QueuedSay(j) && QueuedStay(j, k)
    ensures QueuedSay(k)
  {
    forall r | IsRun(k.runs, r) && k.runs[r].status.Queued? ensures OpensWith(k, r, Carried(k, r), k.runs[r].prompt) {
      OpensStays(cfg, j, k, r, Carried(j, r), j.runs[r].prompt);
    }
  }

  lemma SoftQueued(j: Journal, k: Journal)
    requires Soft(j, k)
    ensures QueuedStay(j, k)
  {
    forall r | IsRun(k.runs, r) && k.runs[r].status.Queued? ensures Carried(k, r) == Carried(j, r) { SoftCarried(j, k, r); }
  }

  /** Nothing new is queued, linked or to be done. */
  lemma StillSays(cfg: Config, s: Sys, t: Sys)
    requires WordsOk(s) && Later(cfg, s.j, t.j) && QueuedStay(s.j, t.j) && (forall r :: r in t.links ==> r in s.links && t.links[r] == s.links[r])
    requires forall e :: e in t.todo && e.Steer? ==> e in s.todo
    ensures WordsOk(t)
  {
    QueuedStaySo(cfg, s.j, t.j);
    LinksStay(cfg, s.j, t.j, s.links);
    TodoStays(cfg, s.j, t.j, s.todo, t.todo);
  }

  lemma NoneOfThem(todo: seq<Effect>)
    requires NoSteers(todo)
    ensures forall e :: e in todo ==> !e.Steer?
  {}

  lemma SettlesSay(cfg: Config, s: Sys, t: Sys)
    requires WordsOk(s) && LifeOk(cfg, s.j) && Grows(s.j, t.j) && Settles(s, t)
    ensures WordsOk(t)
  {
    SameRowsLater(cfg, s.j, t.j);
    SoftQueued(s.j, t.j);
    if t.todo != s.todo { NoneOfThem(t.todo); }
    StillSays(cfg, s, t);
  }

  lemma FollowSays(cfg: Config, s: Sys, t: Sys, r: RunId, e: EventId, prompt: string)
    requires WordsOk(s) && LifeOk(cfg, s.j) && Grows(s.j, t.j) && SameQueues(s, t)
    requires FollowsUp(s.j, t.j, r, e, prompt, t.todo) && forall o :: !Mine(s.j, o, e)
    ensures WordsOk(t)
  {
    FollowLater(cfg, s.j, t.j, r, e, prompt, t.todo);
    QueuedStaySo(cfg, s.j, t.j);
    LinksStay(cfg, s.j, t.j, s.links);
    assert t.j.steers[|s.j.steers|].event == e;
  }

  lemma FollowLater(cfg: Config, j: Journal, k: Journal, r: RunId, e: EventId, prompt: string, effects: seq<Effect>)
    requires LifeOk(cfg, j) && Grows(j, k) && FollowsUp(j, k, r, e, prompt, effects) && forall o :: !Mine(j, o, e)
    ensures Later(cfg, j, k) && QueuedStay(j, k)
  {
    forall o: RunId | o in j.inputs && HasSteer(k.steers, j.inputs[o]) ensures HasSteer(j.steers, j.inputs[o]) {
      assert Mine(j, o, j.inputs[o]);
      var i :| 0 <= i < |k.steers| && k.steers[i].event == j.inputs[o];
      assert i < |j.steers| && j.steers[i] == k.steers[i];
    }
    forall o | IsRun(k.runs, o) && k.runs[o].status.Queued? ensures Carried(k, o) == Carried(j, o) {
      AppendTaken(j.steers, SteerRow(e, r, prompt, Pending), o);
      assert TakenEvents(j.steers, o) + [] == TakenEvents(j.steers, o);
    }
  }

  lemma OpenSays(cfg: Config, s: Sys, t: Sys, e: EventId, conv: ConvKey, prompt: string)
    requires WordsOk(s) && LifeOk(cfg, s.j) && Grows(s.j, t.j) && SameQueues(s, t)
    requires Opens(cfg, s.j, t.j, e, conv, prompt, t.todo) && forall o :: !Mine(s.j, o, e)
    ensures WordsOk(t)
  {
    var id := |s.j.runs|;
    SameRowsLater(cfg, s.j, t.j);
    LinksStay(cfg, s.j, t.j, s.links);
    forall r | IsRun(t.j.runs, r) && t.j.runs[r].status.Queued? ensures OpensWith(t.j, r, Carried(t.j, r), t.j.runs[r].prompt) {
      if r == id {
        forall i | 0 <= i < |s.j.steers| ensures s.j.steers[i].event != e { assert !Mine(s.j, s.j.steers[i].run, e); }
      } else {
        OpensStays(cfg, s.j, t.j, r, Carried(s.j, r), s.j.runs[r].prompt);
      }
    }
  }

  lemma TakesInSays(cfg: Config, s: Sys, t: Sys)
    requires WordsOk(s) && LifeOk(cfg, s.j) && Grows(s.j, t.j) && TakesIn(cfg, s, t)
    ensures WordsOk(t)
  {
    var e :| MessageEffect(cfg, s.j, t.j, e, t.todo);
    if Soft(s.j, t.j) && Harmless(t.todo) {
      SameRowsLater(cfg, s.j, t.j);
      SoftQueued(s.j, t.j);
      NoneOfThem(t.todo);
      StillSays(cfg, s, t);
    } else {
      Unheard(cfg, s.j, e);
      if r, prompt :| FollowsUp(s.j, t.j, r, e, prompt, t.todo) {
        FollowSays(cfg, s, t, r, e, prompt);
      } else {
        var conv, prompt :| Opens(cfg, s.j, t.j, e, conv, prompt, t.todo);
        OpenSays(cfg, s, t, e, conv, prompt);
      }
    }
  }

  // ---------------------------------------------------------------- continuations

  lemma {:induction false} MovedEvents(j: Journal, conv: ConvKey, after: seq<SteerRow>, n: nat)
    requires Moved(j, conv, after) && n <= |j.steers| && forall i :: 0 <= i < |j.steers| ==> IsRun(j.runs, j.steers[i].run)
    ensures TakenEvents(after[..n], |j.runs|) == Events(Leftovers(j, conv, n))
  {
    if n > 0 {
      MovedEvents(j, conv, after, n - 1);
      assert after[..n][..n - 1] == after[..n - 1] && after[..n][n - 1] == after[n - 1];
      var rows := Leftovers(j, conv, n - 1);
      if LeftoverOf(j, conv, n - 1) {
        assert Events(rows + [j.steers[n - 1]]) == Events(rows) + [j.steers[n - 1].event];
      } else {
        assert TakenEvents(after[..n - 1], |j.runs|) + [] == TakenEvents(after[..n - 1], |j.runs|);
      }
    }
  }

  /** A continuation names its leftovers, and its prompt is theirs. */
  lemma ContinuesSay(cfg: Config, j: Journal, conv: ConvKey, l: nat, k: Journal)
    requires LifeOk(cfg, j) && Grows(j, k) && Continues(cfg, j, conv, l, k)
    ensures OpensWith(k, |j.runs|, Carried(k, |j.runs|), k.runs[|j.runs|].prompt)
  {
    var rows := Leftovers(j, conv, |j.steers|);
    ContinuationCarries(cfg, j, conv, l, k);
    LeftoversSay(j, conv, rows);
    SpeaksStays(cfg, j, k, Events(rows), JoinLines(Prompts(rows)));
  }

  lemma ContinuationCarries(cfg: Config, j: Journal, conv: ConvKey, l: nat, k: Journal)
    requires LifeOk(cfg, j) && Continues(cfg, j, conv, l, k)
    ensures Carried(k, |j.runs|) == Events(Leftovers(j, conv, |j.steers|))
  {
    var rows := Leftovers(j, conv, |j.steers|);
    assert k.steers[..|k.steers|] == k.steers;
    MovedEvents(j, conv, k.steers, |j.steers|);
    assert j.steers[l] in rows;
    var n :| 0 <= n < |rows| && rows[n] == j.steers[l];
    assert Events(rows)[n] == k.inputs[|j.runs|];
    assert Carried(k, |j.runs|) == Events(rows) + [] == Events(rows);
  }

  lemma ContinueQueued(cfg: Config, j: Journal, conv: ConvKey, l: nat, k: Journal, r: RunId)
    requires LifeOk(cfg, j) && Continues(cfg, j, conv, l, k) && IsRun(j.runs, r) && k.runs[r].status.Queued?
    ensures j.runs[r].status.Queued? && Carried(k, r) == Carried(j, r)
  {
    assert k.runs[r] == j.runs[r];
    MovedElsewhere(j, conv, k.steers, r);
    SameTaken(j.steers, k.steers, r);
  }

  lemma MovedElsewhere(j: Journal, conv: ConvKey, after: seq<SteerRow>, r: RunId)
    requires Moved(j, conv, after) && IsRun(j.runs, r) && j.runs[r].status.Queued?
    ensures forall i :: 0 <= i < |j.steers| ==>
      after[i].event == j.steers[i].event && (after[i].run == r && after[i].status.Taken? <==> j.steers[i].run == r && j.steers[i].status.Taken?)
  {}

  lemma ResumeOneSays(cfg: Config, m: Sys, t: Sys, conv: ConvKey)
    requires WordsOk(m) && Inv(cfg, m.j) && SameQueues(m, t)
    requires t.j == ResumeOne(cfg, m.j, conv).journal && t.todo == m.todo + ResumeOne(cfg, m.j, conv).value
    ensures WordsOk(t)
  {
    EventSteps.ResumeOneGood(cfg, m.j, conv);
    Capacity.OneStart(cfg, m.j, conv);
    if ResumeOne(cfg, m.j, conv).value == [] {
      ResumeOneShape(cfg, m.j, conv);
      assert t.todo == m.todo;
    } else {
      var l := ResumeShape(cfg, m.j, conv);
      ContinuedSays(cfg, m, t, conv, l);
    }
  }

  lemma ContinuedSays(cfg: Config, m: Sys, t: Sys, conv: ConvKey, l: nat)
    requires WordsOk(m) && LifeOk(cfg, m.j) && Grows(m.j, t.j) && SameQueues(m, t) && Continues(cfg, m.j, conv, l, t.j)
    requires t.todo == m.todo + [Start(|m.j.runs|)]
    ensures WordsOk(t)
  {
    SameRowsLater(cfg, m.j, t.j);
    LinksStay(cfg, m.j, t.j, m.links);
    TodoStays(cfg, m.j, t.j, m.todo, t.todo);
    ContinuedQueue(cfg, m.j, conv, l, t.j);
  }

  lemma ContinuedQueue(cfg: Config, j: Journal, conv: ConvKey, l: nat, k: Journal)
    requires QueuedSay(j) && Later(cfg, j, k) && Continues(cfg, j, conv, l, k)
    ensures QueuedSay(k)
  {
    forall r | IsRun(k.runs, r) && k.runs[r].status.Queued? ensures OpensWith(k, r, Carried(k, r), k.runs[r].prompt) {
      if r < |j.runs| { QueuedOpens(cfg, j, conv, l, k, r); } else { ContinuesSay(cfg, j, conv, l, k); }
    }
  }

  lemma QueuedOpens(cfg: Config, j: Journal, conv: ConvKey, l: nat, k: Journal, r: RunId)
    requires QueuedSay(j) && Later(cfg, j, k) && Continues(cfg, j, conv, l, k) && IsRun(j.runs, r) && k.runs[r].status.Queued?
    ensures OpensWith(k, r, Carried(k, r), k.runs[r].prompt)
  {
    ContinueQueued(cfg, j, conv, l, k, r);
    OpensStays(cfg, j, k, r, Carried(j, r), j.runs[r].prompt);
  }

  lemma {:induction false} ResumeSays(cfg: Config, s: Sys, t: Sys, convs: seq<ConvKey>)
    requires WordsOk(s) && Inv(cfg, s.j) && SameQueues(s, t) && s.todo == []
    requires t.j == ResumeAll(cfg, s.j, convs).journal && t.todo == ResumeAll(cfg, s.j, convs).value
    ensures WordsOk(t)
    decreases |convs|
  {
    if convs != [] {
      var front, conv := convs[..|convs| - 1], convs[|convs| - 1];
      var m := s.(j := ResumeAll(cfg, s.j, front).journal, todo := ResumeAll(cfg, s.j, front).value);
      ResumeSays(cfg, s, m, front);
      EventSteps.ResumeAllGood(cfg, s.j, front);
      ResumeOneSays(cfg, m, t, conv);
    }
  }

  // ---------------------------------------------------------------- the runner and its workers

  lemma SendSays(s: Sys, t: Sys, r: RunId, c: Command)
    requires WordsOk(s) && Sends(s, t, r, c)
    ensures WordsOk(t)
  {
    assert s.todo[0].Steer? ==> Says(s.j, s.todo[0].event, s.todo[0].prompt);
    forall o | o in t.links ensures LinkSays(t.j, o, t.links[o]) { assert LinkSays(s.j, o, s.links[o]); }
    forall n | 0 <= n < |t.todo| && t.todo[n].Steer? ensures Says(t.j, t.todo[n].event, t.todo[n].prompt) { assert s.todo[n + 1] == t.todo[n]; }
  }

  lemma StartSays(cfg: Config, s: Sys, t: Sys, r: RunId, spawned: bool)
    requires WordsOk(s) && LifeOk(cfg, s.j) && Grows(s.j, t.j) && StartsRun(cfg, s, t, r, spawned)
    ensures WordsOk(t)
  {
    SameRowsLater(cfg, s.j, t.j);
    StartedStay(cfg, s, t, r, spawned);
    QueuedStaySo(cfg, s.j, t.j);
    LinksStay(cfg, s.j, t.j, s.links);
    OpensStays(cfg, s.j, t.j, r, Carried(s.j, r), s.j.runs[r].prompt);
    NewLinkSays(s, t, r, cfg.steering, spawned);
  }

  lemma StartedStay(cfg: Config, s: Sys, t: Sys, r: RunId, spawned: bool)
    requires Dispatches(cfg, s, t, r, spawned)
    ensures QueuedStay(s.j, t.j)
  {}

  lemma NewLinkSays(s: Sys, t: Sys, r: RunId, strategy: Steering, spawned: bool)
    requires IsRun(t.j.runs, r) && LinksSay(t.j, s.links) && OpensWith(t.j, r, Carried(s.j, r), t.j.runs[r].prompt)
    requires t.links == if spawned then s.links[r := Link(NewWorker(r, strategy, Carried(s.j, r), t.j.runs[r].prompt), [])] else s.links
    ensures LinksSay(t.j, t.links)
  {}

  lemma EndSays(cfg: Config, s: Sys, t: Sys, r: RunId, status: Status)
    requires WordsOk(s) && LifeOk(cfg, s.j) && Grows(s.j, t.j) && Concludes(s, t, r, status)
    ensures WordsOk(t)
  {
    SameRowsLater(cfg, s.j, t.j);
    NoneOfThem(t.todo);
    StillSays(cfg, s, t);
  }

  lemma NoteSays(cfg: Config, s: Sys, t: Sys)
    requires WordsOk(s) && LifeOk(cfg, s.j) && LinksOk(cfg, s.j, s.links) && Grows(s.j, t.j) && Notes1(s, t)
    ensures WordsOk(t)
  {
    SameRowsLater(cfg, s.j, t.j);
    if Soft(s.j, t.j) { SoftQueued(s.j, t.j); } else { AbsorbQueued(cfg, s, t, s.updates[0].run, s.updates[0].event); }
    StillSays(cfg, s, t);
  }

  lemma AbsorbQueued(cfg: Config, s: Sys, t: Sys, r: RunId, e: EventId)
    requires LinksOk(cfg, s.j, s.links) && r in s.links && Absorbs(s.j, t.j, r, e)
    ensures QueuedStay(s.j, t.j)
  {
    forall o | IsRun(t.j.runs, o) && t.j.runs[o].status.Queued? ensures Carried(t.j, o) == Carried(s.j, o) { SameTaken(s.j.steers, t.j.steers, o); }
  }

  lemma WorkSays(s: Sys, t: Sys, r: RunId, input: Input, out: Out)
    requires WordsOk(s) && Passes(s, t, r, input, out)
    ensures WordsOk(t)
  {
    var w, queue := s.links[r].worker, s.links[r].queue;
    assert LinkSays(s.j, r, s.links[r]);
    StepSays(s.j, w, queue, input);
    StepSettled(w, input);
    RestSays(s.j, queue, input);
    forall o | o in t.links ensures LinkSays(t.j, o, t.links[o]) {
      assert o != r ==> LinkSays(s.j, o, s.links[o]);
    }
  }

  lemma CloseSays(s: Sys, t: Sys)
    requires WordsOk(s) && Closes(s, t)
    ensures WordsOk(t)
  {
    forall o | o in t.links ensures LinkSays(t.j, o, t.links[o]) { assert LinkSays(s.j, o, s.links[o]); }
  }

  lemma CrashSays(cfg: Config, s: Sys, t: Sys)
    requires Crashes(cfg, s, t)
    ensures WordsOk(t)
  {
    var mid :| CrashesAt(cfg, s, mid) && Restarts(mid, t.j);
    forall r | IsRun(t.j.runs, r) ensures !t.j.runs[r].status.Queued? { assert IsRun(mid.runs, r); }
  }

  lemma DropSays(cfg: Config, s: Sys, t: Sys)
    requires WordsOk(s) && t.j == s.j && SameQueues(s, t) && NoSteers(t.todo)
    ensures WordsOk(t)
  {}

  lemma RunnerSays(cfg: Config, s: Sys, t: Sys)
    requires WordsOk(s) && SysOk(cfg, s) && Grows(s.j, t.j)
    requires SendsOn(s, t) || GivesUp(s, t) || Starts(cfg, s, t) || Cancels(s, t) || Records(s, t) || Works(s, t) || Closes(s, t)
    ensures WordsOk(t)
  {
    if r, c :| SendsOn(s, t) && SendsTo(s, t, r, c) { SendSays(s, t, r, c); }
    else if r, spawned :| StartsRun(cfg, s, t, r, spawned) { StartSays(cfg, s, t, r, spawned); }
    else if r, input, out :| Works(s, t) && WorksOn(s, t, r, input, out) { WorkSays(s, t, r, input, out); }
    else if Closes(s, t) { CloseSays(s, t); }
    else if GivesUp(s, t) { DropSays(cfg, s, t); }
    else { NewsSays(cfg, s, t); }
  }

  lemma NewsSays(cfg: Config, s: Sys, t: Sys)
    requires WordsOk(s) && SysOk(cfg, s) && Grows(s.j, t.j) && (Cancels(s, t) || Records(s, t))
    ensures WordsOk(t)
  {
    if r, status :| Concludes(s, t, r, status) { EndSays(cfg, s, t, r, status); }
    else if Cancels(s, t) { DropSays(cfg, s, t); }
    else { NoteSays(cfg, s, t); }
  }

  lemma ShapeSays(cfg: Config, s: Sys, t: Sys)
    requires WordsOk(s) && SysInv(cfg, s) && Grows(s.j, t.j) && Shape(cfg, s, t)
    ensures WordsOk(t)
  {
    if Settles(s, t) { SettlesSay(cfg, s, t); }
    else if TakesIn(cfg, s, t) { TakesInSays(cfg, s, t); }
    else if Resumes(cfg, s, t) { ResumeSays(cfg, s, t, LeftoverConvs(s.j, |s.j.steers|)); }
    else if Crashes(cfg, s, t) { CrashSays(cfg, s, t); }
    else { RunnerSays(cfg, s, t); }
  }

  lemma {:induction false} EveryStateSays(cfg: Config, moves: seq<Move>, s: Sys)
    requires Reaches(cfg, moves, s)
    ensures SysInv(cfg, s) && WordsOk(s)
    decreases |moves|
  {
    EveryState(cfg, moves, s);
    if moves != [] {
      var front := StateOf(cfg, moves[..|moves| - 1]);
      EveryStateSays(cfg, moves[..|moves| - 1], front);
      EveryState(cfg, moves[..|moves| - 1], front);
      EveryMove(cfg, front, moves[|moves| - 1], s);
      ShapeSays(cfg, front, s);
    }
  }

  // ---------------------------------------------------------------- what reaches the agent

  /** The worker of run `r` may make this pass, and asks this of its agent in it. */
  ghost predicate Asks(s: Sys, r: RunId, input: Input, act: Act) {
    && Alive(s.links, r) && Enabled(s.links[r].worker, input) && Reads(s.links[r].queue, input)
    && act in TurnLoop.Step(s.links[r].worker, input).acts
  }

  /** A run opens with its own prompt, which for a continuation is its leftovers'; everything after that is follow-ups'. */
  ghost predicate AsksRightly(s: Sys, r: RunId, input: Input, act: Act) {
    if input.Begin? then
      exists events ::
        && r in s.links && events == s.links[r].worker.carried && IsRun(s.j.runs, r)
        && act == Submit(0, 0, s.j.runs[r].prompt, events) && OpensWith(s.j, r, events, s.j.runs[r].prompt)
    else Faithful(s.j, act)
  }

  /** In every interleaving, each text put before an agent is the prompts of exactly the messages it is accounted to. */
  lemma HandedAsWritten(cfg: Config, moves: seq<Move>, s: Sys, r: RunId, input: Input, act: Act)
    requires Reaches(cfg, moves, s) && Asks(s, r, input, act)
    ensures AsksRightly(s, r, input, act)
  {
    EveryStateSays(cfg, moves, s);
    AskedRightly(s, r, input, act);
  }

  lemma AskedRightly(s: Sys, r: RunId, input: Input, act: Act)
    requires WordsOk(s) && Asks(s, r, input, act)
    ensures AsksRightly(s, r, input, act)
  {
    var w, queue := s.links[r].worker, s.links[r].queue;
    assert LinkSays(s.j, r, s.links[r]);
    StepSays(s.j, w, queue, input);
    var n :| 0 <= n < |TurnLoop.Step(w, input).acts| && TurnLoop.Step(w, input).acts[n] == act;
  }

  // ---------------------------------------------------------------- what reaches the agent can be taken apart

  predicate PlainMoves(moves: seq<Move>) {
    forall i :: 0 <= i < |moves| && moves[i].Arrive? ==> Plain(moves[i].event) && AllPlain(moves[i].history)
  }

  predicate PlainStage(s: Sys) {
    !s.stage.Free? ==> Plain(s.stage.event) && AllPlain(s.stage.history)
  }

  predicate PlainMove(m: Move) {
    m.Arrive? ==> Plain(m.event) && AllPlain(m.history)
  }

  lemma MoveIsPlain(cfg: Config, s: Sys, m: Move, t: Sys)
    requires Makes(cfg, s, m, t) && PlainMove(m) && PlainStage(s)
    ensures PlainStage(t) && (OpOf(s, m).Some? ==> PlainOp(OpOf(s, m).value))
  {
    if m.Apply? {
      ApplyMade(cfg, s, m, t);
      ApplyCommits(cfg, s, t, m.spawned);
      ApplyStage(cfg, s, t, m.spawned);
    }
  }

  lemma ApplyStage(cfg: Config, s: Sys, t: Sys, spawned: bool)
    requires Applies(cfg, s, t, spawned)
    ensures t.stage == s.stage || t.stage.Free?
  {}

  lemma {:induction false} OpsArePlain(cfg: Config, moves: seq<Move>, s: Sys)
    requires Reaches(cfg, moves, s) && PlainMoves(moves)
    ensures PlainStage(s) && PlainOps(Ops(cfg, moves))
    decreases |moves|
  {
    if moves != [] {
      var front := StateOf(cfg, moves[..|moves| - 1]);
      OpsArePlain(cfg, moves[..|moves| - 1], front);
      MoveIsPlain(cfg, front, moves[|moves| - 1], s);
    }
  }

  /** A text taken apart gives the blocks of its messages' prompts, one after the other. */
  ghost predicate SplitsAsWritten(j: Journal, events: seq<EventId>, text: string) {
    exists prompts :: SpeaksAs(j, events, prompts, text) && Split(text) == SplitEach(prompts)
  }

  /** In every interleaving, joined follow-ups put before an agent come apart into each one's own blocks. */
  lemma HandedTextSplits(cfg: Config, moves: seq<Move>, s: Sys, r: RunId, input: Input, act: Act)
    requires Reaches(cfg, moves, s) && PlainMoves(moves) && PlainNotices(cfg)
    requires Asks(s, r, input, act) && !input.Begin? && act.Submit?
    ensures SplitsAsWritten(s.j, act.events, act.text)
  {
    HandedAsWritten(cfg, moves, s, r, input, act);
    HasHistory(cfg, moves, s);
    OpsArePlain(cfg, moves, s);
    PromptsStayFlush(cfg, Ops(cfg, moves), s.j);
    var prompts :| SpeaksAs(s.j, act.events, prompts, act.text);
    SpokenSplits(s.j, act.events, prompts, act.text);
  }
}
