/**
 Every move of the system keeps the delivery invariant. A follow-up is at any time in exactly one place: still to be
 carried out, in a worker's queue, with the worker, put before the agent, or left over; and what the journal says of it
 agrees with where it is. Each lemma takes one kind of effect, queue entry or update and says where the messages it is
 about are afterwards, and that nothing else has moved; `System` puts them together.
 */
module DeliverySteps {
  import opened Model
  import opened Text
  import opened Context
  import opened Journal
  import opened Rules
  import opened Invariants
  import opened Lifecycle
  import opened Steps
  import opened EventSteps
  import opened Frames
  import opened History
  import opened TurnLoop
  import opened Handing
  import opened Protocol
  import opened Delivery
  import opened SoftSteps

  // ---------------------------------------------------------------- what a message can do

  predicate FollowsUp(j: Journal, k: Journal, r: RunId, e: EventId, prompt: string, effects: seq<Effect>) {
    && IsRun(j.runs, r) && j.runs[r].status.Active()
    && k.runs == j.runs && k.inputs == j.inputs
    && k.steers == j.steers + [SteerRow(e, r, prompt, Pending)]
    && effects == if j.runs[r].status.Cancelling? then [] else [Steer(r, e, prompt)]
  }

  predicate Opens(cfg: Config, j: Journal, k: Journal, e: EventId, conv: ConvKey, prompt: string, effects: seq<Effect>) {
    && FindActive(j.runs, conv).None? && (cfg.maxRuns == 0 || CountActive(j.runs) < cfg.maxRuns)
    && k.runs == j.runs + [RunRow(conv, prompt, Queued)] && k.inputs == j.inputs[|j.runs| := e]
    && k.steers == j.steers && effects == [Start(|j.runs|)]
  }

  predicate NoSteers(effects: seq<Effect>) {
    forall i :: 0 <= i < |effects| ==> !effects[i].Steer?
  }

  /** Only runs already marked as being cancelled are told to stop. */
  predicate CancelsStopped(k: Journal, effects: seq<Effect>) {
    forall i :: 0 <= i < |effects| && effects[i].Cancel? ==> IsRun(k.runs, effects[i].run) && k.runs[effects[i].run].status.Cancelling?
  }

  /** Nothing in it starts a run or steers one. */
  predicate Harmless(effects: seq<Effect>) {
    forall i :: 0 <= i < |effects| ==> !effects[i].Steer? && !effects[i].Start?
  }

  /** A message leaves the runs' follow-ups alone or drops them, or adds one follow-up, or opens one run. */
  ghost predicate MessageEffect(cfg: Config, j: Journal, k: Journal, event: EventId, effects: seq<Effect>) {
    || (Soft(j, k) && Harmless(effects) && CancelsStopped(k, effects))
    || ((cfg.home(event), event) !in j.inbox && exists r, prompt :: FollowsUp(j, k, r, event, prompt, effects))
    || ((cfg.home(event), event) !in j.inbox && exists conv, prompt :: Opens(cfg, j, k, event, conv, prompt, effects))
  }

  lemma FollowUpEffect(cfg: Config, j: Journal, event: Incoming, conv: ConvKey, run: RunId, prompt: string, p: Option<Prepared>)
    requires IsRun(j.runs, run) && j.runs[run].status.Active()
    ensures var r := FollowUp(cfg, j, event, conv, run, prompt, p);
            r.Success? ==> FollowsUp(j, r.value.journal, run, event.event, prompt, r.value.value)
  {}

  lemma OpenRunEffect(cfg: Config, j: Journal, event: Incoming, conv: ConvKey, prompt: string, p: Option<Prepared>)
    ensures var r := OpenRun(cfg, j, event, conv, prompt, p);
            r.Success? ==>
              || (r.value.value == [] && r.value.journal == j.(outbox := r.value.journal.outbox))
              || Opens(cfg, j, r.value.journal, event.event, conv, prompt, r.value.value)
  {}

  lemma CommandHarmless(cfg: Config, j: Journal, conv: ConvKey, command: BridgeCommand, now: int)
    ensures var s := RunCommand(cfg, j, conv, command, now); Harmless(s.value) && CancelsStopped(s.journal, s.value)
  {
    CommandFrame(cfg, j, conv, command, now);
    if command.CmdStop? { StopStops(cfg, j, conv); }
    if command.CmdApprove? { ApproveFrame(cfg, j, conv, command.request, command.option, now); ApproveDecides(cfg, j, conv, command.request, command.option, now); }
  }

  lemma StopStops(cfg: Config, j: Journal, conv: ConvKey)
    ensures var s := StopConversation(cfg, j, conv); CancelsStopped(s.journal, s.value)
  {
    var active := FindActive(j.runs, conv);
    if active.Some? {
      assert StopConversation(cfg, j, conv).value == [Effect.Cancel(active.value)];
      assert StopConversation(cfg, j, conv).journal.runs == SetStatus(j.runs, active.value, Status.Cancelling);
    }
  }

  lemma ApproveDecides(cfg: Config, j: Journal, conv: ConvKey, request: RequestId, option: string, now: int)
    ensures OnlyDecides(ApproveCommand(cfg, j, conv, request, option, now).value)
  {}

  lemma RegisterTables(cfg: Config, j: Journal, event: Incoming, room: RoomSnapshot, conv: ConvKey)
    requires event.room in cfg.rooms
    ensures var k := Register(cfg, j, event, room, conv);
            k.runs == j.runs && k.inputs == j.inputs && k.steers == j.steers && k.approvals == j.approvals && k.decisions == j.decisions
  {}

  lemma AdmittedEffect(cfg: Config, j: Journal, event: Incoming, room: RoomSnapshot, history: seq<Incoming>, now: int, conv: ConvKey)
    requires Inv(cfg, j) && event.room == cfg.home(event.event)
    requires Admit(cfg, j, event, room) == Admitted(conv) && (event.room, event.event) !in j.inbox
    requires Handle(cfg, j, event, room, Some(history), now).Success?
    ensures var s := Handle(cfg, j, event, room, Some(history), now).value;
            MessageDone(cfg, j, event, Step(s.journal, s.value.effects))
  {
    var j1 := Register(cfg, j, event, room, conv);
    RegisterTables(cfg, j, event, room, conv);
    SameRuns(j, j1);
    if IsCommand(event.body) {
      RegisterGood(cfg, j, event, room, conv);
      CommandSoft(cfg, j1, conv, ParseCommand(event.body), now);
      CommandHarmless(cfg, j1, conv, ParseCommand(event.body), now);
      SoftTransitive(j, j1, RunCommand(cfg, j1, conv, ParseCommand(event.body), now).journal);
    } else {
      WorkEffect(cfg, j, j1, event, room, history, now, conv);
    }
  }

  lemma WorkEffect(cfg: Config, j: Journal, j1: Journal, event: Incoming, room: RoomSnapshot, history: seq<Incoming>, now: int, conv: ConvKey)
    requires event.room == cfg.home(event.event) && !IsCommand(event.body)
    requires Admit(cfg, j, event, room) == Admitted(conv) && (event.room, event.event) !in j.inbox
    requires j1 == Register(cfg, j, event, room, conv) && j1.runs == j.runs && j1.inputs == j.inputs && j1.steers == j.steers
    requires Handle(cfg, j, event, room, Some(history), now).Success?
    ensures var s := Handle(cfg, j, event, room, Some(history), now).value;
            MessageEffect(cfg, j, s.journal, event.event, s.value.effects)
  {
    var s := Handle(cfg, j, event, room, Some(history), now).value;
    var p := PrepareContext(cfg, j, event, history).value;
    var active := FindActive(j.runs, conv);
    if Blank(event.body) {
      SameRuns(j, s.journal);
    } else if active.Some? {
      FollowUpEffect(cfg, j1, event, conv, active.value, p.prompt, Some(p));
      assert FollowsUp(j, s.journal, active.value, event.event, p.prompt, s.value.effects);
    } else {
      OpenedEffect(cfg, j, j1, event, conv, p.prompt, Some(p));
    }
  }

  lemma OpenedEffect(cfg: Config, j: Journal, j1: Journal, event: Incoming, conv: ConvKey, prompt: string, p: Option<Prepared>)
    requires event.room == cfg.home(event.event) && (event.room, event.event) !in j.inbox
    requires j1.runs == j.runs && j1.inputs == j.inputs && j1.steers == j.steers
    ensures var r := OpenRun(cfg, j1, event, conv, prompt, p);
            r.Success? ==> MessageEffect(cfg, j, r.value.journal, event.event, r.value.value)
  {
    var r := OpenRun(cfg, j1, event, conv, prompt, p);
    OpenRunEffect(cfg, j1, event, conv, prompt, p);
    if r.Success? {
      if r.value.value == [] {
        SameRuns(j, r.value.journal);
      } else {
        assert Opens(cfg, j, r.value.journal, event.event, conv, prompt, r.value.value);
      }
    }
  }

  /** A command never opens a run or adds a follow-up. */
  ghost predicate MessageDone(cfg: Config, j: Journal, event: Incoming, done: Step<seq<Effect>>) {
    && MessageEffect(cfg, j, done.journal, event.event, done.value)
    && (IsCommand(event.body) ==> Soft(j, done.journal) && Harmless(done.value) && CancelsStopped(done.journal, done.value))
  }

  lemma MessageDoes(cfg: Config, j: Journal, event: Incoming, room: RoomSnapshot, history: seq<Incoming>, now: int)
    requires Inv(cfg, j) && event.room == cfg.home(event.event)
    ensures MessageDone(cfg, j, event, Heard(j, Handle(cfg, j, event, room, Some(history), now)))
  {
    SoftReflexive(j);
    var r := Handle(cfg, j, event, room, Some(history), now);
    if r.Success? {
      if New(cfg, j, event, room) {
        AdmittedEffect(cfg, j, event, room, history, now, Admit(cfg, j, event, room).conv);
      } else {
        TurnedAway(cfg, j, event, room, Some(history), now);
      }
    }
  }

  lemma Unheard(cfg: Config, j: Journal, e: EventId)
    requires LifeOk(cfg, j) && (cfg.home(e), e) !in j.inbox
    ensures forall r :: !Mine(j, r, e)
  {}

  lemma NeverHanded(j: Journal, handed: seq<EventId>, e: EventId)
    requires HandedOk(j, handed) && forall r :: !Mine(j, r, e)
    ensures Count(handed, e) == 0
  {}

  // ---------------------------------------------------------------- a new follow-up

  /** `t` is `s` with one more follow-up, and a command for its worker to come unless the run is being cancelled. */
  ghost predicate Follows(s: Sys, t: Sys, r: RunId, e: EventId, prompt: string) {
    && s.todo == [] && FollowsUp(s.j, t.j, r, e, prompt, t.todo)
    && t.links == s.links && t.updates == s.updates && t.handed == s.handed
  }

  lemma AppendTaken(steers: seq<SteerRow>, row: SteerRow, r: RunId)
    ensures TakenEvents(steers + [row], r) == TakenEvents(steers, r) + (if row.run == r && row.status.Taken? then [row.event] else [])
  {
    assert (steers + [row])[..|steers|] == steers;
  }

  lemma FollowTodo(todo: seq<Effect>, r: RunId, e: EventId, o: RunId, x: EventId)
    requires todo == [] || (|todo| == 1 && todo[0].Steer? && todo[0].run == r && todo[0].event == e)
    ensures TodoCount(todo, o, x) == if todo != [] && o == r && x == e then 1 else 0
  {
    if todo != [] { assert todo[1..] == []; }
  }

  lemma FollowOnItsWay(s: Sys, t: Sys, r: RunId, e: EventId, prompt: string, o: RunId, x: EventId)
    requires Follows(s, t, r, e, prompt)
    ensures x != e || o != r ==> OnItsWay(t, o, x) == OnItsWay(s, o, x)
    ensures OnItsWay(t, o, x) <= OnItsWay(s, o, x) + 1
    ensures t.j.runs[r].status.Cancelling? ==> OnItsWay(t, o, x) == OnItsWay(s, o, x)
  {
    AppendTaken(s.j.steers, SteerRow(e, r, prompt, Pending), o);
    assert TakenEvents(s.j.steers, o) + [] == TakenEvents(s.j.steers, o);
    assert TakenEvents(t.j.steers, o) == TakenEvents(s.j.steers, o);
    FollowTodo(t.todo, r, e, o, x);
  }

  lemma FollowMine(s: Sys, t: Sys, r: RunId, e: EventId, prompt: string)
    requires Follows(s, t, r, e, prompt)
    ensures forall o, x :: Mine(s.j, o, x) ==> Mine(t.j, o, x)
    ensures Mine(t.j, r, e)
  {
    assert t.j.steers[|s.j.steers|].event == e;
    forall o, x | Mine(s.j, o, x) ensures Mine(t.j, o, x) {
      if i :| 0 <= i < |s.j.steers| && s.j.steers[i].event == x && s.j.steers[i].run == o {
        assert t.j.steers[i] == s.j.steers[i];
      }
    }
  }

  lemma FollowHanded(s: Sys, t: Sys, r: RunId, e: EventId, prompt: string)
    requires Follows(s, t, r, e, prompt) && HandedOk(s.j, s.handed) && OnItsWayOk(s) && forall o :: !Mine(s.j, o, e)
    ensures HandedOk(t.j, t.handed) && OnItsWayOk(t)
  {
    FollowMine(s, t, r, e, prompt);
    NeverHanded(s.j, s.handed, e);
    forall x | Count(t.handed, x) > 0 ensures exists o :: Mine(t.j, o, x) {
      var o :| Mine(s.j, o, x);
      assert Mine(t.j, o, x);
    }
    forall o, x | OnItsWay(t, o, x) > 0
      ensures OnItsWay(t, o, x) == 1 && Count(t.handed, x) == 0 && Mine(t.j, o, x)
    {
      FollowOnItsWay(s, t, r, e, prompt, o, x);
      assert OnItsWay(s, o, x) > 0 ==> Mine(s.j, o, x);
    }
  }

  lemma FollowSettling(s: Sys, t: Sys, r: RunId, e: EventId, prompt: string)
    requires Follows(s, t, r, e, prompt) && SettlingOk(s) && GivenOk(s) && Count(s.handed, e) == 0
    ensures SettlingOk(t) && GivenOk(t)
  {
    forall i | PendingRow(t.j, i) && Count(t.handed, t.j.steers[i].event) > 0
      ensures Settling(t, t.j.steers[i].run, t.j.steers[i].event)
    {
      assert PendingRow(s.j, i) && t.j.steers[i] == s.j.steers[i];
      assert Settling(s, s.j.steers[i].run, s.j.steers[i].event);
    }
    forall o, x | Given(s, o, x) ensures Given(t, o, x) {}
    forall i | TakenRow(t.j, i) ensures Given(t, t.j.steers[i].run, t.j.steers[i].event) {
      assert TakenRow(s.j, i) && t.j.steers[i] == s.j.steers[i];
    }
  }

  lemma FollowQuiet(s: Sys, t: Sys, r: RunId, e: EventId, prompt: string)
    requires Follows(s, t, r, e, prompt) && QuietOk(s) && OnItsWayOk(s) && forall o :: !Mine(s.j, o, e)
    requires forall o :: o in s.links ==> IsRun(s.j.runs, o) && !s.j.runs[o].status.Queued? && WorkerOk(s.links[o].worker)
    ensures QuietOk(t)
  {
    forall i | PendingRow(t.j, i)
      ensures forall o: RunId :: o in t.links && t.links[o].worker.phase.Setup? ==> Count(t.links[o].worker.carried, t.j.steers[i].event) == 0
      ensures IsRun(t.j.runs, t.j.steers[i].run) && t.j.runs[t.j.steers[i].run].status.Cancelling? ==> OnItsWay(t, t.j.steers[i].run, t.j.steers[i].event) == 0
    {
      var o, x := t.j.steers[i].run, t.j.steers[i].event;
      FollowOnItsWay(s, t, r, e, prompt, o, x);
      if i < |s.j.steers| {
        assert PendingRow(s.j, i) && t.j.steers[i] == s.j.steers[i];
      } else {
        forall o: RunId | o in t.links && t.links[o].worker.phase.Setup? ensures Count(t.links[o].worker.carried, e) == 0 {
          assert OnItsWay(s, o, e) >= Count(t.links[o].worker.carried, e);
        }
      }
    }
  }

  lemma FollowKeeps(cfg: Config, s: Sys, t: Sys, r: RunId, e: EventId, prompt: string)
    requires SysOk(cfg, s) && Follows(s, t, r, e, prompt) && LifeOk(cfg, t.j) && forall o :: !Mine(s.j, o, e)
    ensures SysOk(cfg, t)
  {
    NeverHanded(s.j, s.handed, e);
    FollowHanded(s, t, r, e, prompt);
    FollowSettling(s, t, r, e, prompt);
    FollowQuiet(s, t, r, e, prompt);
  }

  // ---------------------------------------------------------------- a new run

  /** `t` is `s` with one more run, for a message nobody has seen, or for leftovers. */
  ghost predicate Begins(s: Sys, t: Sys, row: RunRow, input: EventId) {
    && row.status.Queued?
    && t.j.runs == s.j.runs + [row] && t.j.inputs == s.j.inputs[|s.j.runs| := input]
    && |t.j.steers| == |s.j.steers|
    && (forall i :: 0 <= i < |s.j.steers| ==>
          || t.j.steers[i] == s.j.steers[i]
          || (Leftover(s.j, i) && t.j.steers[i] == s.j.steers[i].(run := |s.j.runs|, status := Taken)))
    && (forall o :: Mine(s.j, o, input) ==> exists i :: Leftover(s.j, i) && s.j.steers[i].event == input)
    && ((exists i :: 0 <= i < |s.j.steers| && s.j.steers[i].event == input) ==>
          exists i :: Leftover(s.j, i) && s.j.steers[i].event == input && t.j.steers[i].run == |s.j.runs|)
    && t.links == s.links && t.updates == s.updates && t.handed == s.handed && NoSteers(t.todo) && NoSteers(s.todo)
  }

  lemma BeginCarried(cfg: Config, s: Sys, t: Sys, row: RunRow, input: EventId, o: RunId)
    requires Begins(s, t, row, input) && LifeOk(cfg, s.j) && IsRun(s.j.runs, o) && s.j.runs[o].status.Active()
    ensures Carried(t.j, o) == Carried(s.j, o)
  {
    SameTaken(s.j.steers, t.j.steers, o);
  }

  lemma BeginMine(cfg: Config, s: Sys, t: Sys, row: RunRow, input: EventId, o: RunId, x: EventId)
    requires Begins(s, t, row, input) && LifeOk(cfg, s.j) && Mine(s.j, o, x)
    ensures Mine(t.j, o, x) || Mine(t.j, |s.j.runs|, x)
    ensures IsRun(s.j.runs, o) && s.j.runs[o].status.Active() ==> Mine(t.j, o, x)
  {
    if i :| 0 <= i < |s.j.steers| && s.j.steers[i].event == x && s.j.steers[i].run == o {
      assert t.j.steers[i].event == x;
    }
  }

  lemma NoNews(links: map<RunId, Link>, updates: seq<AgentEvent>, r: RunId, e: EventId)
    requires UpdatesOk(links, updates) && r !in links
    ensures !WillFail(updates, r) && !IsSteered(updates, r, e)
  {
    assert forall a :: 0 <= a < |updates| ==> updates[a].run != r;
  }

  /** A leftover has not been handed over. */
  lemma LeftoverUnhanded(cfg: Config, s: Sys, i: int)
    requires SysOk(cfg, s) && Leftover(s.j, i)
    ensures Count(s.handed, s.j.steers[i].event) == 0
  {
    var r, e := s.j.steers[i].run, s.j.steers[i].event;
    assert PendingRow(s.j, i);
    assert r !in s.links;
    NoNews(s.links, s.updates, r, e);
    assert !Settling(s, r, e);
  }

  predicate HasTaken(steers: seq<SteerRow>, r: RunId, e: EventId) {
    exists i :: 0 <= i < |steers| && steers[i].event == e && steers[i].run == r && steers[i].status.Taken?
  }

  lemma LastTaken(front: seq<SteerRow>, last: SteerRow, r: RunId, e: EventId)
    ensures HasTaken(front + [last], r, e) <==> HasTaken(front, r, e) || (last.event == e && last.run == r && last.status.Taken?)
  {
    var steers := front + [last];
    assert forall i :: 0 <= i < |front| ==> steers[i] == front[i];
    assert steers[|front|] == last;
  }

  lemma {:induction false} TakenCount(steers: seq<SteerRow>, r: RunId, e: EventId)
    requires forall i, k :: 0 <= i < |steers| && 0 <= k < |steers| && steers[i].event == steers[k].event ==> i == k
    ensures Count(TakenEvents(steers, r), e) == if HasTaken(steers, r, e) then 1 else 0
  {
    if steers != [] {
      var front, last := steers[..|steers| - 1], steers[|steers| - 1];
      TakenCount(front, r, e);
      CountJoin(TakenEvents(front, r), [last.event], e);
      CountOne(last.event, e);
      assert steers == front + [last];
      LastTaken(front, last, r, e);
      if HasTaken(front, r, e) {
        var i :| 0 <= i < |front| && front[i].event == e;
        assert steers[i].event == e;
        assert last.event != e;
      }
      assert TakenEvents(front, r) + [] == TakenEvents(front, r);
    }
  }

  /** What a fresh run carries is each of its messages, once. */
  lemma CarriedCount(cfg: Config, j: Journal, r: RunId, e: EventId)
    requires LifeOk(cfg, j)
    ensures Count(Carried(j, r), e) == if (r in j.inputs && j.inputs[r] == e) || HasTaken(j.steers, r, e) then 1 else 0
  {
    var rows := TakenEvents(j.steers, r);
    TakenCount(j.steers, r, e);
    CountIn(rows, e);
    if r in j.inputs {
      CountJoin(rows, [j.inputs[r]], e);
      CountOne(j.inputs[r], e);
      CountIn(rows, j.inputs[r]);
    }
    assert rows + [] == rows;
  }

  lemma BeginOnItsWay(cfg: Config, s: Sys, t: Sys, row: RunRow, input: EventId, o: RunId, x: EventId)
    requires SysOk(cfg, s) && Begins(s, t, row, input) && LifeOk(cfg, t.j)
    ensures o != |s.j.runs| ==> OnItsWay(t, o, x) == OnItsWay(s, o, x)
    ensures o == |s.j.runs| ==> OnItsWay(t, o, x) == Count(Carried(t.j, o), x)
  {
    NoTodo(s.todo, o, x);
    NoTodo(t.todo, o, x);
    if o != |s.j.runs| && IsRun(s.j.runs, o) && s.j.runs[o].status.Queued? { BeginCarried(cfg, s, t, row, input, o); }
  }

  lemma BeginFresh(cfg: Config, s: Sys, t: Sys, row: RunRow, input: EventId, x: EventId)
    requires SysOk(cfg, s) && Begins(s, t, row, input) && LifeOk(cfg, t.j) && Count(Carried(t.j, |s.j.runs|), x) > 0
    requires Count(s.handed, input) == 0
    ensures Count(s.handed, x) == 0 && Mine(t.j, |s.j.runs|, x)
  {
    CarriedCount(cfg, t.j, |s.j.runs|, x);
    if x != input {
      var i :| 0 <= i < |t.j.steers| && t.j.steers[i].event == x && t.j.steers[i].run == |s.j.runs| && t.j.steers[i].status.Taken?;
      assert IsRun(s.j.runs, s.j.steers[i].run);
      LeftoverUnhanded(cfg, s, i);
    }
  }

  lemma BeginHanded(cfg: Config, s: Sys, t: Sys, row: RunRow, input: EventId)
    requires SysOk(cfg, s) && Begins(s, t, row, input) && LifeOk(cfg, t.j) && Count(s.handed, input) == 0
    ensures HandedOk(t.j, t.handed) && OnItsWayOk(t)
  {
    forall x | Count(t.handed, x) > 0 ensures exists o :: Mine(t.j, o, x) {
      var o :| Mine(s.j, o, x);
      BeginMine(cfg, s, t, row, input, o, x);
    }
    forall o: RunId, x | OnItsWay(t, o, x) > 0
      ensures OnItsWay(t, o, x) == 1 && Count(t.handed, x) == 0 && Mine(t.j, o, x)
    {
      BeginOnItsWay(cfg, s, t, row, input, o, x);
      if o == |s.j.runs| {
        CarriedCount(cfg, t.j, o, x);
        BeginFresh(cfg, s, t, row, input, x);
      } else {
        BeginMine(cfg, s, t, row, input, o, x);
        assert IsRun(s.j.runs, o) && s.j.runs[o].status.Active();
      }
    }
  }

  lemma BeginSettling(cfg: Config, s: Sys, t: Sys, row: RunRow, input: EventId)
    requires SysOk(cfg, s) && Begins(s, t, row, input)
    ensures SettlingOk(t) && GivenOk(t)
  {
    forall i | PendingRow(t.j, i) && Count(t.handed, t.j.steers[i].event) > 0
      ensures Settling(t, t.j.steers[i].run, t.j.steers[i].event)
    {
      assert PendingRow(s.j, i) && t.j.steers[i] == s.j.steers[i];
      assert Settling(s, s.j.steers[i].run, s.j.steers[i].event);
    }
    BeginGiven(cfg, s, t, row, input);
  }

  lemma BeginGiven(cfg: Config, s: Sys, t: Sys, row: RunRow, input: EventId)
    requires LinksOk(cfg, s.j, s.links) && GivenOk(s) && Begins(s, t, row, input)
    ensures GivenOk(t)
  {
    forall o, x | Given(s, o, x) ensures Given(t, o, x) {}
    forall i | TakenRow(t.j, i) ensures Given(t, t.j.steers[i].run, t.j.steers[i].event) {
      if t.j.steers[i] == s.j.steers[i] {
        assert TakenRow(s.j, i);
      } else {
        assert Unstarted(t, |s.j.runs|, t.j.steers[i].event);
      }
    }
    assert Unstarted(t, |s.j.runs|, input);
  }

  lemma BeginQuiet(cfg: Config, s: Sys, t: Sys, row: RunRow, input: EventId)
    requires SysOk(cfg, s) && Begins(s, t, row, input) && LifeOk(cfg, t.j)
    ensures QuietOk(t)
  {
    forall i | PendingRow(t.j, i)
      ensures PendingRow(s.j, i) && t.j.steers[i] == s.j.steers[i]
      ensures OnItsWay(t, t.j.steers[i].run, t.j.steers[i].event) == OnItsWay(s, s.j.steers[i].run, s.j.steers[i].event)
    {
      assert IsRun(s.j.runs, s.j.steers[i].run);
      BeginOnItsWay(cfg, s, t, row, input, t.j.steers[i].run, t.j.steers[i].event);
    }
  }

  lemma BeginKeeps(cfg: Config, s: Sys, t: Sys, row: RunRow, input: EventId)
    requires SysOk(cfg, s) && Begins(s, t, row, input) && LifeOk(cfg, t.j) && Count(s.handed, input) == 0
    ensures SysOk(cfg, t)
  {
    BeginHanded(cfg, s, t, row, input);
    BeginSettling(cfg, s, t, row, input);
    BeginQuiet(cfg, s, t, row, input);
  }

  // ---------------------------------------------------------------- messages and resumption as moves

  lemma OpenBegins(cfg: Config, s: Sys, t: Sys, e: EventId, conv: ConvKey, prompt: string)
    requires SysOk(cfg, s) && LifeOk(cfg, t.j) && s.todo == [] && t.links == s.links && t.updates == s.updates && t.handed == s.handed
    requires Opens(cfg, s.j, t.j, e, conv, prompt, t.todo) && forall o :: !Mine(s.j, o, e)
    ensures SysOk(cfg, t)
  {
    NeverHanded(s.j, s.handed, e);
    forall i | 0 <= i < |s.j.steers| ensures s.j.steers[i].event != e {
      assert Mine(s.j, s.j.steers[i].run, s.j.steers[i].event);
    }
    BeginKeeps(cfg, s, t, RunRow(conv, prompt, Queued), e);
  }

  lemma MessageMoved(cfg: Config, s: Sys, t: Sys, e: EventId)
    requires SysOk(cfg, s) && LifeOk(cfg, t.j) && MessageEffect(cfg, s.j, t.j, e, t.todo)
    requires s.todo == [] && t.links == s.links && t.updates == s.updates && t.handed == s.handed
    ensures SysOk(cfg, t)
  {
    if Soft(s.j, t.j) && Harmless(t.todo) {
      SoftKeeps(cfg, s, t);
    } else {
      Unheard(cfg, s.j, e);
      if r, prompt :| FollowsUp(s.j, t.j, r, e, prompt, t.todo) {
        FollowKeeps(cfg, s, t, r, e, prompt);
      } else {
        var conv, prompt :| Opens(cfg, s.j, t.j, e, conv, prompt, t.todo);
        OpenBegins(cfg, s, t, e, conv, prompt);
      }
    }
  }

  lemma ContinueBegins(cfg: Config, s: Sys, t: Sys, conv: ConvKey, l: nat)
    requires SysOk(cfg, s) && Continues(cfg, s.j, conv, l, t.j) && LifeOk(cfg, t.j)
    requires t.links == s.links && t.updates == s.updates && t.handed == s.handed && NoSteers(t.todo) && NoSteers(s.todo)
    ensures SysOk(cfg, t)
  {
    var input := s.j.steers[l].event;
    LeftoverUnhanded(cfg, s, l);
    assert Leftover(s.j, l) && t.j.steers[l].run == |s.j.runs|;
    BeginKeeps(cfg, s, t, t.j.runs[|s.j.runs|], input);
  }

  lemma {:induction false} ResumeMove(cfg: Config, s: Sys, t: Sys, convs: seq<ConvKey>)
    requires Inv(cfg, s.j) && SysOk(cfg, s) && s.todo == []
    requires t.j == ResumeAll(cfg, s.j, convs).journal && t.todo == ResumeAll(cfg, s.j, convs).value
    requires t.links == s.links && t.updates == s.updates && t.handed == s.handed
    ensures SysOk(cfg, t) && NoSteers(t.todo)
    decreases |convs|
  {
    if convs == [] {
      SoftReflexive(s.j);
      SoftKeeps(cfg, s, t);
    } else {
      var front, conv := convs[..|convs| - 1], convs[|convs| - 1];
      var before := ResumeAll(cfg, s.j, front);
      var m := s.(j := before.journal, todo := before.value);
      ResumeMove(cfg, s, m, front);
      ResumeAllGood(cfg, s.j, front);
      ResumeStep(cfg, m, t, conv);
    }
  }

  lemma ResumeStep(cfg: Config, m: Sys, t: Sys, conv: ConvKey)
    requires Inv(cfg, m.j) && SysOk(cfg, m) && NoSteers(m.todo)
    requires t.j == ResumeOne(cfg, m.j, conv).journal && t.todo == m.todo + ResumeOne(cfg, m.j, conv).value
    requires t.links == m.links && t.updates == m.updates && t.handed == m.handed
    ensures SysOk(cfg, t) && NoSteers(t.todo)
  {
    ResumeOneGood(cfg, m.j, conv);
    ResumeStepped(cfg, m, t, conv);
  }

  lemma ResumeStepped(cfg: Config, m: Sys, t: Sys, conv: ConvKey)
    requires SysOk(cfg, m) && NoSteers(m.todo) && LifeOk(cfg, t.j)
    requires t.j == ResumeOne(cfg, m.j, conv).journal && t.todo == m.todo + ResumeOne(cfg, m.j, conv).value
    requires t.links == m.links && t.updates == m.updates && t.handed == m.handed
    ensures SysOk(cfg, t) && NoSteers(t.todo)
  {
    ResumeOneShape(cfg, m.j, conv);
    if ResumeOne(cfg, m.j, conv).value == [] {
      SoftReflexive(m.j);
      SoftKeeps(cfg, m, t);
    } else {
      var l := ResumeShape(cfg, m.j, conv);
      ContinueBegins(cfg, m, t, conv, l);
    }
  }

  lemma ResumeOneShape(cfg: Config, j: Journal, conv: ConvKey)
    ensures var s := ResumeOne(cfg, j, conv); NoSteers(s.value) && (s.value == [] ==> s.journal == j)
  {}

  predicate OnlyDecides(effects: seq<Effect>) {
    forall i :: 0 <= i < |effects| ==> effects[i].Decide?
  }

  lemma {:induction false} AutoHarmless(cfg: Config, j: Journal, rows: seq<ApprovalRow>)
    ensures OnlyDecides(AutoAll(cfg, j, rows).value)
    decreases |rows|
  {
    if rows != [] { AutoHarmless(cfg, j, rows[..|rows| - 1]); }
  }

  lemma {:induction false} ExpireHarmless(cfg: Config, j: Journal, rows: seq<ApprovalRow>)
    ensures OnlyDecides(ExpireAll(cfg, j, rows).value)
    decreases |rows|
  {
    if rows != [] { ExpireHarmless(cfg, j, rows[..|rows| - 1]); }
  }

  lemma {:induction false} ReconcileHarmless(cfg: Config, j: Journal, runs: seq<RunId>, room: RoomSnapshot)
    ensures var s := ReconcileAll(cfg, j, runs, room); Harmless(s.value) && CancelsStopped(s.journal, s.value)
    decreases |runs|
  {
    if runs != [] {
      var front, last := runs[..|runs| - 1], runs[|runs| - 1];
      ReconcileHarmless(cfg, j, front, room);
      ReconcileCancels(cfg, ReconcileAll(cfg, j, front, room), last, room);
    }
  }

  lemma ReconcileCancels(cfg: Config, before: Step<seq<Effect>>, run: RunId, room: RoomSnapshot)
    requires Harmless(before.value) && CancelsStopped(before.journal, before.value)
    ensures var one := ReconcileOne(cfg, before.journal, run, room);
            Harmless(before.value + one.value) && CancelsStopped(one.journal, before.value + one.value)
  {}

  // ---------------------------------------------------------------- carrying out effects

  /** One more command for a live worker, taken off the list of things to do. */
  ghost predicate Sends(s: Sys, t: Sys, r: RunId, c: Command) {
    && t.j == s.j && t.updates == s.updates && t.handed == s.handed
    && t.links == Send(s.links, r, c) && s.todo != [] && t.todo == s.todo[1..]
    && (c.SteerRun? <==> s.todo[0].Steer?)
    && (c.SteerRun? ==> s.todo[0].run == r && s.todo[0].event == c.event && s.todo[0].prompt == c.prompt)
  }

  lemma SendOnItsWay(s: Sys, t: Sys, r: RunId, c: Command, o: RunId, x: EventId)
    requires Sends(s, t, r, c)
    ensures OnItsWay(t, o, x) == OnItsWay(s, o, x)
  {
    if Alive(s.links, r) { QueueAppend(s.links[r].queue, c, x); }
  }

  lemma SendKeeps(cfg: Config, s: Sys, t: Sys, r: RunId, c: Command)
    requires SysOk(cfg, s) && Sends(s, t, r, c)
    ensures SysOk(cfg, t)
  {
    SendSame(s.links, r, c);
    SameWorkers(cfg, s, t);
    SendLines(s, t, r, c);
  }

  lemma SendSame(links: map<RunId, Link>, r: RunId, c: Command)
    ensures var after := Send(links, r, c); after.Keys == links.Keys && forall o :: o in after ==> after[o].worker == links[o].worker
  {}

  lemma SendLines(s: Sys, t: Sys, r: RunId, c: Command)
    requires OnItsWayOk(s) && QuietOk(s) && Sends(s, t, r, c)
    ensures OnItsWayOk(t) && QuietOk(t)
  {
    forall o: RunId, x ensures OnItsWay(t, o, x) == OnItsWay(s, o, x) { SendOnItsWay(s, t, r, c, o, x); }
    assert forall o :: o in t.links ==> o in s.links && t.links[o].worker == s.links[o].worker;
  }

  /** Everything but what is on its way depends on the workers, not on their queues. */
  lemma SameWorkers(cfg: Config, s: Sys, t: Sys)
    requires LinksOk(cfg, s.j, s.links) && UpdatesOk(s.links, s.updates) && SettlingOk(s) && GivenOk(s) && ReportedOk(s)
    requires t.j == s.j && t.updates == s.updates && t.handed == s.handed
    requires t.links.Keys == s.links.Keys && forall o :: o in t.links ==> t.links[o].worker == s.links[o].worker
    ensures LinksOk(cfg, t.j, t.links) && UpdatesOk(t.links, t.updates) && SettlingOk(t) && GivenOk(t) && ReportedOk(t)
  {
    assert forall o :: Alive(t.links, o) <==> Alive(s.links, o);
    forall r, e | Given(s, r, e) ensures Given(t, r, e) {}
    forall i | PendingRow(t.j, i) && Count(t.handed, t.j.steers[i].event) > 0
      ensures Settling(t, t.j.steers[i].run, t.j.steers[i].event)
    {
      assert Settling(s, s.j.steers[i].run, s.j.steers[i].event);
    }
    forall r | r in t.links && !Alive(t.links, r) ensures exists a :: Ends(t.updates, a, r) {
      assert !Alive(s.links, r);
      var a :| Ends(s.updates, a, r);
    }
  }

  // ---------------------------------------------------------------- a run is dispatched

  /** `t` is `s` with queued run `r` running, under a new worker or, if spawning it failed, under none. */
  ghost predicate Dispatches(cfg: Config, s: Sys, t: Sys, r: RunId, spawned: bool) {
    && IsRun(s.j.runs, r) && s.j.runs[r].status.Queued? && r !in s.links
    && t.j == s.j.(runs := SetStatus(s.j.runs, r, Running))
    && t.updates == s.updates && t.handed == s.handed && NoSteers(s.todo) && NoSteers(t.todo)
    && t.links == if spawned then s.links[r := Link(NewWorker(r, cfg.steering, Carried(s.j, r), t.j.runs[r].prompt), [])] else s.links
  }

  lemma DispatchOnItsWay(cfg: Config, s: Sys, t: Sys, r: RunId, spawned: bool, o: RunId, x: EventId)
    requires Dispatches(cfg, s, t, r, spawned)
    ensures OnItsWay(t, o, x) <= OnItsWay(s, o, x)
  {
    NoTodo(s.todo, o, x);
    NoTodo(t.todo, o, x);
  }

  lemma DispatchGiven(cfg: Config, s: Sys, t: Sys, r: RunId, spawned: bool, o: RunId, e: EventId)
    requires LifeOk(cfg, s.j) && Dispatches(cfg, s, t, r, spawned) && Given(s, o, e)
    requires (o in s.j.inputs && s.j.inputs[o] == e) || HasTaken(s.j.steers, o, e)
    ensures Given(t, o, e)
  {
    CarriedCount(cfg, s.j, o, e);
  }

  lemma DispatchQuiet(cfg: Config, s: Sys, t: Sys, r: RunId, spawned: bool)
    requires LifeOk(cfg, s.j) && QuietOk(s) && Dispatches(cfg, s, t, r, spawned)
    ensures QuietOk(t)
  {
    forall i | PendingRow(t.j, i)
      ensures forall o: RunId :: o in t.links && t.links[o].worker.phase.Setup? ==> Count(t.links[o].worker.carried, t.j.steers[i].event) == 0
      ensures IsRun(t.j.runs, t.j.steers[i].run) && t.j.runs[t.j.steers[i].run].status.Cancelling? ==> OnItsWay(t, t.j.steers[i].run, t.j.steers[i].event) == 0
    {
      assert PendingRow(s.j, i);
      DispatchOnItsWay(cfg, s, t, r, spawned, t.j.steers[i].run, t.j.steers[i].event);
      CarriedCount(cfg, s.j, r, t.j.steers[i].event);
      assert !HasTaken(s.j.steers, r, s.j.steers[i].event);
    }
  }

  lemma DispatchReported(cfg: Config, s: Sys, t: Sys, r: RunId, spawned: bool)
    requires LinksOk(cfg, s.j, s.links) && UpdatesOk(s.links, s.updates) && SettlingOk(s) && ReportedOk(s) && Dispatches(cfg, s, t, r, spawned)
    ensures LinksOk(cfg, t.j, t.links) && UpdatesOk(t.links, t.updates) && SettlingOk(t) && ReportedOk(t)
  {
    DispatchSettling(cfg, s, t, r, spawned);
    DispatchUpdates(cfg, s, t, r, spawned);
  }

  lemma DispatchSettling(cfg: Config, s: Sys, t: Sys, r: RunId, spawned: bool)
    requires SettlingOk(s) && ReportedOk(s) && Dispatches(cfg, s, t, r, spawned)
    ensures SettlingOk(t) && ReportedOk(t)
  {
    forall i | PendingRow(t.j, i) && Count(t.handed, t.j.steers[i].event) > 0
      ensures Settling(t, t.j.steers[i].run, t.j.steers[i].event)
    {
      assert PendingRow(s.j, i);
      assert Settling(s, s.j.steers[i].run, s.j.steers[i].event);
    }
  }

  lemma DispatchUpdates(cfg: Config, s: Sys, t: Sys, r: RunId, spawned: bool)
    requires LinksOk(cfg, s.j, s.links) && UpdatesOk(s.links, s.updates) && Dispatches(cfg, s, t, r, spawned)
    ensures LinksOk(cfg, t.j, t.links) && UpdatesOk(t.links, t.updates)
  {
    DispatchEnds(s.links, t.links, s.updates, r, t.links[r := Link(NewWorker(r, cfg.steering, Carried(s.j, r), t.j.runs[r].prompt), [])]);
  }

  /** A worker that has just been made has reported nothing, and nothing has been reported for its run. */
  lemma DispatchEnds(links: map<RunId, Link>, after: map<RunId, Link>, updates: seq<AgentEvent>, r: RunId, with: map<RunId, Link>)
    requires UpdatesOk(links, updates) && r !in links && (after == links || (after == with && r in after && after - {r} == links && Alive(after, r)))
    ensures UpdatesOk(after, updates)
  {
    forall o | o in after && !Alive(after, o) ensures exists a :: Ends(updates, a, o) {
      assert o in links && !Alive(links, o);
      var a :| Ends(updates, a, o);
    }
  }

  lemma DispatchKeeps(cfg: Config, s: Sys, t: Sys, r: RunId, spawned: bool)
    requires SysOk(cfg, s) && Dispatches(cfg, s, t, r, spawned) && LifeOk(cfg, t.j)
    ensures SysOk(cfg, t)
  {
    forall o: RunId, x | OnItsWay(t, o, x) > 0
      ensures OnItsWay(t, o, x) == 1 && Count(t.handed, x) == 0 && Mine(t.j, o, x)
    {
      DispatchOnItsWay(cfg, s, t, r, spawned, o, x);
      assert Mine(s.j, o, x);
    }
    forall x | Count(t.handed, x) > 0 ensures exists o :: Mine(t.j, o, x) {
      var o :| Mine(s.j, o, x);
      assert Mine(t.j, o, x);
    }
    forall i | TakenRow(t.j, i) ensures Given(t, t.j.steers[i].run, t.j.steers[i].event) {
      assert TakenRow(s.j, i);
      DispatchGiven(cfg, s, t, r, spawned, s.j.steers[i].run, s.j.steers[i].event);
    }
    forall o: RunId | o in t.j.inputs ensures Given(t, o, t.j.inputs[o]) {
      DispatchGiven(cfg, s, t, r, spawned, o, s.j.inputs[o]);
    }
    DispatchQuiet(cfg, s, t, r, spawned);
    DispatchReported(cfg, s, t, r, spawned);
  }

  // ---------------------------------------------------------------- a run ends

  /** `t` is `s` with a run that has no live worker at its end. */
  ghost predicate Concludes(s: Sys, t: Sys, r: RunId, status: Status) {
    && IsRun(s.j.runs, r) && s.j.runs[r].status.Active() && !status.Active() && !Alive(s.links, r)
    && t.j.runs == SetStatus(s.j.runs, r, status) && t.j.inputs == s.j.inputs && t.j.steers == s.j.steers
    && t.handed == s.handed && NoSteers(s.todo) && NoSteers(t.todo)
    && t.links == s.links - {r}
    && ( || (r !in s.links && t.updates == s.updates && status.Interrupted?)
         || (s.updates != [] && s.updates[0] == Finished(r, status) && t.updates == s.updates[1..]) )
  }

  lemma ConcludeUpdates(s: Sys, t: Sys, r: RunId, status: Status)
    requires Concludes(s, t, r, status) && UpdatesOk(s.links, s.updates)
    ensures UpdatesOk(t.links, t.updates)
    ensures forall o: RunId :: o != r ==> (WillFail(s.updates, o) ==> WillFail(t.updates, o))
    ensures forall o: RunId :: WillFail(t.updates, o) ==> WillFail(s.updates, o)
    ensures forall o: RunId, e :: IsSteered(s.updates, o, e) <==> IsSteered(t.updates, o, e)
    ensures !WillFail(t.updates, r) && (WillFail(s.updates, r) ==> status.Failed? || status.Interrupted?)
    ensures forall e :: !IsSteered(s.updates, r, e)
  {
    if t.updates == s.updates {
      assert forall a :: 0 <= a < |s.updates| ==> s.updates[a].run != r;
    } else {
      assert Ends(s.updates, 0, r);
      assert forall a :: 0 <= a < |t.updates| ==> t.updates[a] == s.updates[a + 1];
      PopAll(s.updates);
      forall o | o in t.links && !Alive(t.links, o) ensures exists a :: Ends(t.updates, a, o) {
        assert !Alive(s.links, o);
        var a :| Ends(s.updates, a, o);
        assert Ends(t.updates, a - 1, o);
      }
      forall a, o: RunId | Ends(t.updates, a, o)
        ensures !t.updates[a].status.Active() && !Alive(t.links, o) && forall b :: a < b < |t.updates| ==> t.updates[b].run != o
      {
        assert Ends(s.updates, a + 1, o);
      }
    }
  }

  /** Everything behind the head of the queue. */
  lemma PopAll(updates: seq<AgentEvent>)
    requires updates != []
    ensures forall o: RunId, e :: IsSteered(updates, o, e) <==> updates[0] == Steered(o, e) || IsSteered(updates[1..], o, e)
    ensures forall o: RunId :: WillFail(updates[1..], o) ==> WillFail(updates, o)
    ensures forall o: RunId :: WillFail(updates, o) && !Ends(updates, 0, o) ==> WillFail(updates[1..], o)
  {
    var rest := updates[1..];
    forall o: RunId, e | IsSteered(rest, o, e) ensures IsSteered(updates, o, e) {
      var i :| 0 <= i < |rest| && rest[i] == Steered(o, e);
      assert updates[i + 1] == Steered(o, e);
    }
    forall o: RunId, e | IsSteered(updates, o, e) && updates[0] != Steered(o, e) ensures IsSteered(rest, o, e) {
      var i :| 0 <= i < |updates| && updates[i] == Steered(o, e);
      assert rest[i - 1] == Steered(o, e);
    }
    forall o: RunId | WillFail(rest, o) ensures WillFail(updates, o) {
      var a :| Ends(rest, a, o) && (rest[a].status.Failed? || rest[a].status.Interrupted?);
      assert Ends(updates, a + 1, o) && updates[a + 1] == rest[a];
    }
    forall o: RunId | WillFail(updates, o) && !Ends(updates, 0, o) ensures WillFail(rest, o) {
      var a :| Ends(updates, a, o) && (updates[a].status.Failed? || updates[a].status.Interrupted?);
      assert Ends(rest, a - 1, o) && updates[a] == rest[a - 1];
    }
  }

  lemma ConcludeOnItsWay(s: Sys, t: Sys, r: RunId, status: Status, o: RunId, x: EventId)
    requires Concludes(s, t, r, status)
    ensures OnItsWay(t, o, x) <= OnItsWay(s, o, x)
  {
    NoTodo(s.todo, o, x);
    NoTodo(t.todo, o, x);
    assert o != r ==> (Alive(t.links, o) <==> Alive(s.links, o));
  }

  lemma ConcludeGiven(s: Sys, t: Sys, r: RunId, status: Status, o: RunId, e: EventId)
    requires Concludes(s, t, r, status) && UpdatesOk(s.links, s.updates) && Given(s, o, e)
    ensures Given(t, o, e)
  {
    ConcludeUpdates(s, t, r, status);
  }

  lemma ConcludeSettling(s: Sys, t: Sys, r: RunId, status: Status)
    requires Concludes(s, t, r, status) && UpdatesOk(s.links, s.updates) && SettlingOk(s)
    ensures SettlingOk(t)
  {
    ConcludeUpdates(s, t, r, status);
    forall i | PendingRow(t.j, i) && Count(t.handed, t.j.steers[i].event) > 0
      ensures Settling(t, t.j.steers[i].run, t.j.steers[i].event)
    {
      assert PendingRow(s.j, i);
      assert Settling(s, s.j.steers[i].run, s.j.steers[i].event);
    }
  }

  lemma ConcludeLinks(cfg: Config, s: Sys, t: Sys, r: RunId, status: Status)
    requires Concludes(s, t, r, status) && LinksOk(cfg, s.j, s.links) && ReportedOk(s) && UpdatesOk(s.links, s.updates)
    ensures LinksOk(cfg, t.j, t.links) && ReportedOk(t)
  {
    ConcludeUpdates(s, t, r, status);
  }

  lemma ConcludeQuiet(s: Sys, t: Sys, r: RunId, status: Status)
    requires Concludes(s, t, r, status) && QuietOk(s)
    ensures QuietOk(t)
  {
    forall i | PendingRow(t.j, i)
      ensures PendingRow(s.j, i)
      ensures OnItsWay(t, t.j.steers[i].run, t.j.steers[i].event) <= OnItsWay(s, s.j.steers[i].run, s.j.steers[i].event)
    {
      ConcludeOnItsWay(s, t, r, status, t.j.steers[i].run, t.j.steers[i].event);
    }
  }

  lemma ConcludeKeeps(cfg: Config, s: Sys, t: Sys, r: RunId, status: Status)
    requires SysOk(cfg, s) && Concludes(s, t, r, status) && LifeOk(cfg, t.j)
    ensures SysOk(cfg, t)
  {
    forall o: RunId, x | OnItsWay(t, o, x) > 0
      ensures OnItsWay(t, o, x) == 1 && Count(t.handed, x) == 0 && Mine(t.j, o, x)
    {
      ConcludeOnItsWay(s, t, r, status, o, x);
      assert Mine(s.j, o, x);
    }
    forall x | Count(t.handed, x) > 0 ensures exists o :: Mine(t.j, o, x) {
      var o :| Mine(s.j, o, x);
      assert Mine(t.j, o, x);
    }
    forall o, e | Given(s, o, e) ensures Given(t, o, e) { ConcludeGiven(s, t, r, status, o, e); }
    ConcludeUpdates(s, t, r, status);
    ConcludeSettling(s, t, r, status);
    ConcludeLinks(cfg, s, t, r, status);
    ConcludeQuiet(s, t, r, status);
  }

  // ---------------------------------------------------------------- other worker news

  /** The follow-up `e` of run `r` is marked as taken in. */
  predicate Absorbs(j: Journal, k: Journal, r: RunId, e: EventId) {
    k.runs == j.runs && k.inputs == j.inputs && k.steers == DeliverSteer(j.steers, e, r)
  }

  /** The head of the updates is journaled, and is not an outcome. */
  ghost predicate Notes1(s: Sys, t: Sys) {
    && s.updates != [] && !s.updates[0].Finished? && t.updates == s.updates[1..]
    && t.links == s.links && t.handed == s.handed && s.todo == [] && t.todo == []
    && ( || (Soft(s.j, t.j)
             && forall i :: PendingRow(t.j, i) && s.updates[0] == Steered(t.j.steers[i].run, t.j.steers[i].event) ==> Count(s.handed, t.j.steers[i].event) == 0)
         || (s.updates[0].Steered? && s.updates[0].run in s.links && Absorbs(s.j, t.j, s.updates[0].run, s.updates[0].event)) )
  }

  lemma NoteUpdates(s: Sys, t: Sys)
    requires Notes1(s, t) && UpdatesOk(s.links, s.updates)
    ensures UpdatesOk(t.links, t.updates)
    ensures forall o: RunId :: WillFail(s.updates, o) <==> WillFail(t.updates, o)
    ensures forall o: RunId, e :: IsSteered(s.updates, o, e) <==> s.updates[0] == Steered(o, e) || IsSteered(t.updates, o, e)
  {
    PopAll(s.updates);
    forall a, o: RunId | Ends(t.updates, a, o)
      ensures !t.updates[a].status.Active() && !Alive(t.links, o) && forall b :: a < b < |t.updates| ==> t.updates[b].run != o
    {
      assert Ends(s.updates, a + 1, o);
    }
    forall o | o in t.links && !Alive(t.links, o) ensures exists a :: Ends(t.updates, a, o) {
      var a :| Ends(s.updates, a, o);
      assert Ends(t.updates, a - 1, o);
    }
  }

  lemma AbsorbMine(j: Journal, k: Journal, r: RunId, e: EventId)
    requires Absorbs(j, k, r, e)
    ensures forall o, x :: Mine(j, o, x) ==> Mine(k, o, x)
  {
    forall o, x | Mine(j, o, x) ensures Mine(k, o, x) {
      if i :| 0 <= i < |j.steers| && j.steers[i].event == x && j.steers[i].run == o {
        assert k.steers[i].event == x && k.steers[i].run == o;
      }
    }
  }

  lemma NoteOnItsWay(cfg: Config, s: Sys, t: Sys, o: RunId, x: EventId)
    requires Notes1(s, t) && LinksOk(cfg, s.j, s.links)
    ensures OnItsWay(t, o, x) <= OnItsWay(s, o, x)
  {
    if Soft(s.j, t.j) {
      SoftLess(s, t, o, x);
    } else if IsRun(s.j.runs, o) && s.j.runs[o].status.Queued? {
      SameTaken(s.j.steers, t.j.steers, o);
    }
  }

  lemma NoteSettling(cfg: Config, s: Sys, t: Sys)
    requires Notes1(s, t) && UpdatesOk(s.links, s.updates) && SettlingOk(s) && GivenOk(s) && ReportedOk(s)
    requires LinksOk(cfg, s.j, s.links)
    ensures SettlingOk(t) && GivenOk(t) && ReportedOk(t)
  {
    NoteUpdates(s, t);
    forall i | PendingRow(t.j, i) && Count(t.handed, t.j.steers[i].event) > 0
      ensures Settling(t, t.j.steers[i].run, t.j.steers[i].event)
    {
      assert PendingRow(s.j, i) && t.j.steers[i] == s.j.steers[i];
      assert Settling(s, s.j.steers[i].run, s.j.steers[i].event);
    }
    forall o, x | Given(s, o, x) ensures Given(t, o, x) {}
    forall i | TakenRow(t.j, i) ensures Given(t, t.j.steers[i].run, t.j.steers[i].event) {
      if TakenRow(s.j, i) {
        assert Given(s, s.j.steers[i].run, s.j.steers[i].event);
      } else {
        assert IsSteered(s.updates, t.j.steers[i].run, t.j.steers[i].event);
      }
    }
  }

  lemma NoteKeeps(cfg: Config, s: Sys, t: Sys)
    requires SysOk(cfg, s) && Notes1(s, t) && LifeOk(cfg, t.j)
    ensures SysOk(cfg, t)
  {
    if Soft(s.j, t.j) { SoftMine(s.j, t.j); } else { AbsorbMine(s.j, t.j, s.updates[0].run, s.updates[0].event); }
    forall o: RunId, x | OnItsWay(t, o, x) > 0
      ensures OnItsWay(t, o, x) == 1 && Count(t.handed, x) == 0 && Mine(t.j, o, x)
    {
      NoteOnItsWay(cfg, s, t, o, x);
      assert Mine(s.j, o, x);
    }
    forall x | Count(t.handed, x) > 0 ensures exists o :: Mine(t.j, o, x) {
      var o :| Mine(s.j, o, x);
      assert Mine(t.j, o, x);
    }
    NoteUpdates(s, t);
    NoteSettling(cfg, s, t);
    NoteQuiet(cfg, s, t);
  }

  lemma NoteQuiet(cfg: Config, s: Sys, t: Sys)
    requires Notes1(s, t) && QuietOk(s) && LinksOk(cfg, s.j, s.links)
    ensures QuietOk(t)
  {
    forall i | PendingRow(t.j, i)
      ensures PendingRow(s.j, i) && t.j.steers[i] == s.j.steers[i]
      ensures OnItsWay(t, t.j.steers[i].run, t.j.steers[i].event) <= OnItsWay(s, s.j.steers[i].run, s.j.steers[i].event)
    {
      NoteOnItsWay(cfg, s, t, t.j.steers[i].run, t.j.steers[i].event);
    }
  }

  /** What a worker's news, other than its outcome, does to runs and follow-ups. */
  lemma NewsEffect(cfg: Config, j: Journal, event: AgentEvent, now: int)
    requires !event.Finished? && IsRun(j.runs, event.run) && j.runs[event.run].status.Active() && !j.runs[event.run].status.Queued?
    ensures var r := OnAgentEvent(cfg, j, event, now);
            r.Success? ==>
              || (Soft(j, r.value) && (event.Steered? ==> j.runs[event.run].status.Cancelling?))
              || (event.Steered? && Absorbs(j, r.value, event.run, event.event))
  {
    var r := OnAgentEvent(cfg, j, event, now);
    SoftReflexive(j);
    if r.Success? && !j.runs[event.run].status.Cancelling? {
      match event
      case Permission(_, request, title, options) => AskSoft(cfg, j, event.run, j.runs[event.run].conv, request, title, options, now);
      case Steered(_, e) => TakeTables(cfg, j, event.run, j.runs[event.run].conv, e);
      case Tool(_) => FlushFrame(j, event.run, j.runs[event.run].conv); SameRuns(j, r.value);
      case SessionReady(_, _) => SameRuns(j, r.value);
      case Text(_, _) => SameRuns(j, r.value);
    }
  }

  lemma AskSoft(cfg: Config, j: Journal, run: RunId, conv: ConvKey, request: RequestId, title: string, options: seq<Choice>, now: int)
    requires IsRun(j.runs, run) && j.runs[run].status.Active() && !j.runs[run].status.Queued? && !j.runs[run].status.Cancelling?
    ensures var r := AskPermission(cfg, j, run, conv, request, title, options, now); r.Success? ==> Soft(j, r.value)
  {
    var r := AskPermission(cfg, j, run, conv, request, title, options, now);
    if r.Success? {
      AskFrame(cfg, j, run, conv, request, title, options, now);
      if r.value.runs == j.runs { SameRuns(j, r.value); } else { SoftStatus(j, r.value, run, WaitingApproval); }
    }
  }

  lemma TakeTables(cfg: Config, j: Journal, run: RunId, conv: ConvKey, e: EventId)
    ensures Absorbs(j, TakeSteer(cfg, j, run, conv, e), run, e)
  {
    TakeFrame(cfg, j, run, conv, e);
  }
}
