/** Follow-ups across journal, queues and workers: each is put before an agent at most once, and none is lost. */
module Delivery {
  import opened Model
  import opened Journal
  import opened Rules
  import opened Invariants
  import opened Steps
  import opened History
  import opened TurnLoop
  import opened Handing
  import opened Protocol

  // ---------------------------------------------------------------- the invariant

  function TodoCount(todo: seq<Effect>, r: RunId, e: EventId): nat {
    if todo == [] then 0
    else TodoCount(todo[1..], r, e) + (if todo[0].Steer? && todo[0].run == r && todo[0].event == e then 1 else 0)
  }

  /** How often a message is still on its way to the agent of a run: unstarted, in the worker, queued or to be queued. */
  function OnItsWay(s: Sys, r: RunId, e: EventId): nat {
    if Alive(s.links, r) then
      Handing.Waiting(s.links[r].worker, e) + QueueCount(s.links[r].queue, e) + TodoCount(s.todo, r, e)
    else if IsRun(s.j.runs, r) && s.j.runs[r].status.Queued? then Count(Carried(s.j, r), e)
    else 0
  }

  /** The message belongs to the run: it opened it, or followed up on it. */
  predicate Mine(j: Journal, r: RunId, e: EventId) {
    || (r in j.inputs && j.inputs[r] == e)
    || exists i :: 0 <= i < |j.steers| && j.steers[i].event == e && j.steers[i].run == r
  }

  ghost predicate HandedOk(j: Journal, handed: seq<EventId>) {
    && (forall e :: Count(handed, e) <= 1)
    && (forall e :: Count(handed, e) > 0 ==> exists r :: Mine(j, r, e))
  }

  ghost predicate OnItsWayOk(s: Sys) {
    forall r, e :: OnItsWay(s, r, e) > 0 ==> OnItsWay(s, r, e) == 1 && Count(s.handed, e) == 0 && Mine(s.j, r, e)
  }

  ghost predicate LinksOk(cfg: Config, j: Journal, links: map<RunId, Link>) {
    forall r :: r in links ==>
      && IsRun(j.runs, r) && j.runs[r].status.Active() && !j.runs[r].status.Queued?
      && links[r].worker.run == r && links[r].worker.strategy == cfg.steering && WorkerOk(links[r].worker)
  }

  predicate Ends(updates: seq<AgentEvent>, a: int, r: RunId) {
    0 <= a < |updates| && updates[a].Finished? && updates[a].run == r
  }

  /** A worker reports its outcome last, and only a worker that is over has reported. */
  ghost predicate UpdatesOk(links: map<RunId, Link>, updates: seq<AgentEvent>) {
    && (forall a :: 0 <= a < |updates| ==> updates[a].run in links)
    && (forall a, r: RunId :: Ends(updates, a, r) ==>
          !updates[a].status.Active() && !Alive(links, r) && forall b :: a < b < |updates| ==> updates[b].run != r)
    && (forall r :: r in links && !Alive(links, r) ==> exists a :: Ends(updates, a, r))
  }

  ghost predicate WillFail(updates: seq<AgentEvent>, r: RunId) {
    exists a :: Ends(updates, a, r) && (updates[a].status.Failed? || updates[a].status.Interrupted?)
  }

  /** The run has failed, or its worker has reported so: none of its follow-ups will be tried again. */
  ghost predicate Doomed(s: Sys, r: RunId) {
    || (IsRun(s.j.runs, r) && (s.j.runs[r].status.Failed? || s.j.runs[r].status.Interrupted?))
    || WillFail(s.updates, r)
  }

  /** A follow-up that has been handed over but is still marked pending will be reported, or its run fails. */
  ghost predicate Settling(s: Sys, r: RunId, e: EventId) {
    && IsRun(s.j.runs, r) && !s.j.runs[r].status.Cancelling?
    && ( || IsSteered(s.updates, r, e)
         || (Alive(s.links, r) && Unacked(s.links[r].worker, e))
         || Doomed(s, r) )
  }

  predicate PendingRow(j: Journal, i: int) {
    0 <= i < |j.steers| && j.steers[i].status.Pending?
  }

  predicate TakenRow(j: Journal, i: int) {
    0 <= i < |j.steers| && j.steers[i].status.Taken?
  }

  ghost predicate SettlingOk(s: Sys) {
    forall i :: PendingRow(s.j, i) && Count(s.handed, s.j.steers[i].event) > 0 ==> Settling(s, s.j.steers[i].run, s.j.steers[i].event)
  }

  /** The run has not put its first prompt before the agent yet, and the message is part of it. */
  predicate Unstarted(s: Sys, r: RunId, e: EventId) {
    && IsRun(s.j.runs, r) && s.j.runs[r].status.Active()
    && (r in s.links ==> s.links[r].worker.phase.Setup? && Count(s.links[r].worker.carried, e) > 0)
  }

  ghost predicate Given(s: Sys, r: RunId, e: EventId) {
    Count(s.handed, e) > 0 || Doomed(s, r) || Unstarted(s, r, e)
  }

  ghost predicate GivenOk(s: Sys) {
    && (forall i :: TakenRow(s.j, i) ==> Given(s, s.j.steers[i].run, s.j.steers[i].event))
    && (forall r: RunId :: r in s.j.inputs ==> Given(s, r, s.j.inputs[r]))
  }

  /** What workers remember and report has really been handed over. */
  ghost predicate ReportedOk(s: Sys) {
    && (forall r, e :: Alive(s.links, r) && Unacked(s.links[r].worker, e) ==> Count(s.handed, e) > 0)
    && (forall r, e :: IsSteered(s.updates, r, e) ==> Count(s.handed, e) > 0 || WillFail(s.updates, r))
  }

  /** The follow-ups of a fresh run's prompt are no longer pending; nothing pending is on its way in a cancelled run. */
  ghost predicate QuietOk(s: Sys) {
    && (forall i, r: RunId :: PendingRow(s.j, i) && r in s.links && s.links[r].worker.phase.Setup? ==>
          Count(s.links[r].worker.carried, s.j.steers[i].event) == 0)
    && (forall i :: PendingRow(s.j, i) && IsRun(s.j.runs, s.j.steers[i].run) && s.j.runs[s.j.steers[i].run].status.Cancelling? ==>
          OnItsWay(s, s.j.steers[i].run, s.j.steers[i].event) == 0)
  }

  predicate OneSteer(todo: seq<Effect>) {
    forall i :: 0 <= i < |todo| && todo[i].Steer? ==> |todo| == 1
  }

  ghost predicate SysOk(cfg: Config, s: Sys) {
    && LifeOk(cfg, s.j)
    && HandedOk(s.j, s.handed)
    && OnItsWayOk(s)
    && LinksOk(cfg, s.j, s.links)
    && UpdatesOk(s.links, s.updates)
    && SettlingOk(s)
    && GivenOk(s)
    && ReportedOk(s)
    && QuietOk(s)
    && OneSteer(s.todo)
  }

  lemma StartOk(cfg: Config)
    ensures SysOk(cfg, START)
  {}

  lemma OneOwner(j: Journal, a: RunId, b: RunId, e: EventId)
    requires InputsOk(j.runs, j.inputs) && SteersOk(j.runs, j.inputs, j.steers)
    requires Mine(j, a, e) && Mine(j, b, e)
    ensures a == b
  {}

  // ---------------------------------------------------------------- moves that only settle follow-ups

  /** Statuses move among active ones, and pending follow-ups may be dropped. */
  ghost predicate Soft(j: Journal, k: Journal) {
    && k.inputs == j.inputs && |k.runs| == |j.runs| && |k.steers| == |j.steers|
    && (forall i :: 0 <= i < |j.steers| ==> k.steers[i] == j.steers[i] || (j.steers[i].status.Pending? && k.steers[i] == j.steers[i].(status := Dropped)))
    && (forall r :: IsRun(j.runs, r) ==>
          && k.runs[r].conv == j.runs[r].conv
          && (k.runs[r].status == j.runs[r].status
              || (&& j.runs[r].status.Active() && !j.runs[r].status.Cancelling? && k.runs[r].status.Active() && !k.runs[r].status.Queued?
                  && (j.runs[r].status.Queued? ==> k.runs[r].status.Cancelling?)
                  && (k.runs[r].status.Cancelling? ==> forall i :: PendingRow(k, i) ==> k.steers[i].run != r))))
  }

  lemma SoftTransitive(i: Journal, j: Journal, k: Journal)
    requires Soft(i, j) && Soft(j, k)
    ensures Soft(i, k)
  {
    forall r | IsRun(i.runs, r) && k.runs[r].status.Cancelling? && !i.runs[r].status.Cancelling?
      ensures forall n :: PendingRow(k, n) ==> k.steers[n].run != r
    {
      assert IsRun(j.runs, r);
      if j.runs[r].status.Cancelling? {
        assert forall n :: PendingRow(k, n) ==> PendingRow(j, n) && j.steers[n].run == k.steers[n].run;
      }
    }
  }

  lemma SoftReflexive(j: Journal)
    ensures Soft(j, j)
  {}

  lemma {:induction false} SameTaken(steers: seq<SteerRow>, after: seq<SteerRow>, r: RunId)
    requires |after| == |steers|
    requires forall i :: 0 <= i < |steers| ==>
      after[i].event == steers[i].event && (after[i].run == r && after[i].status.Taken? <==> steers[i].run == r && steers[i].status.Taken?)
    ensures TakenEvents(after, r) == TakenEvents(steers, r)
  {
    if steers != [] {
      SameTaken(steers[..|steers| - 1], after[..|after| - 1], r);
    }
  }

  lemma SoftCarried(j: Journal, k: Journal, r: RunId)
    requires Soft(j, k)
    ensures Carried(k, r) == Carried(j, r)
  {
    SameTaken(j.steers, k.steers, r);
  }

  lemma SoftMine(j: Journal, k: Journal)
    requires Soft(j, k)
    ensures forall r, e :: Mine(j, r, e) ==> Mine(k, r, e)
  {
    forall r, e | Mine(j, r, e) ensures Mine(k, r, e) {
      if i :| 0 <= i < |j.steers| && j.steers[i].event == e && j.steers[i].run == r {
        assert k.steers[i].event == e && k.steers[i].run == r;
      }
    }
  }

  lemma {:induction false} NoTodo(todo: seq<Effect>, r: RunId, e: EventId)
    requires forall i :: 0 <= i < |todo| ==> !todo[i].Steer?
    ensures TodoCount(todo, r, e) == 0
  {
    if todo != [] { NoTodo(todo[1..], r, e); }
  }

  lemma SoftOnItsWay(s: Sys, t: Sys)
    requires OnItsWayOk(s) && Soft(s.j, t.j) && t.links == s.links && t.handed == s.handed
    requires s.todo == t.todo || forall i :: 0 <= i < |t.todo| ==> !t.todo[i].Steer?
    ensures OnItsWayOk(t)
  {
    SoftMine(s.j, t.j);
    forall r, e | OnItsWay(t, r, e) > 0
      ensures OnItsWay(t, r, e) == 1 && Count(t.handed, e) == 0 && Mine(t.j, r, e)
    {
      SoftLess(s, t, r, e);
      assert OnItsWay(s, r, e) > 0;
    }
  }

  lemma SoftSettling(s: Sys, t: Sys)
    requires SettlingOk(s) && SteersOk(s.j.runs, s.j.inputs, s.j.steers) && Soft(s.j, t.j)
    requires t.links == s.links && t.handed == s.handed && t.updates == s.updates
    ensures SettlingOk(t)
  {
    forall i | PendingRow(t.j, i) && Count(t.handed, t.j.steers[i].event) > 0
      ensures Settling(t, t.j.steers[i].run, t.j.steers[i].event)
    {
      assert PendingRow(s.j, i) && t.j.steers[i] == s.j.steers[i];
      assert Settling(s, s.j.steers[i].run, s.j.steers[i].event);
    }
  }

  lemma SoftGiven(s: Sys, t: Sys)
    requires GivenOk(s) && Soft(s.j, t.j)
    requires t.links == s.links && t.handed == s.handed && t.updates == s.updates
    ensures GivenOk(t)
  {
    forall r, e | Given(s, r, e) ensures Given(t, r, e) {}
    forall i | TakenRow(t.j, i) ensures Given(t, t.j.steers[i].run, t.j.steers[i].event) {
      assert TakenRow(s.j, i);
      assert Given(s, s.j.steers[i].run, s.j.steers[i].event);
    }
  }

  lemma SoftLess(s: Sys, t: Sys, r: RunId, e: EventId)
    requires Soft(s.j, t.j) && t.links == s.links
    requires s.todo == t.todo || forall i :: 0 <= i < |t.todo| ==> !t.todo[i].Steer?
    ensures OnItsWay(t, r, e) <= OnItsWay(s, r, e)
  {
    if s.todo != t.todo { NoTodo(t.todo, r, e); }
    SoftCarried(s.j, t.j, r);
  }

  lemma SoftQuiet(s: Sys, t: Sys)
    requires QuietOk(s) && Soft(s.j, t.j) && t.links == s.links
    requires s.todo == t.todo || forall i :: 0 <= i < |t.todo| ==> !t.todo[i].Steer?
    ensures QuietOk(t)
  {
    forall i | PendingRow(t.j, i)
      ensures PendingRow(s.j, i) && t.j.steers[i] == s.j.steers[i]
      ensures OnItsWay(t, t.j.steers[i].run, t.j.steers[i].event) <= OnItsWay(s, s.j.steers[i].run, s.j.steers[i].event)
    {
      SoftLess(s, t, t.j.steers[i].run, t.j.steers[i].event);
    }
  }

  lemma SoftKeeps(cfg: Config, s: Sys, t: Sys)
    requires SysOk(cfg, s) && Soft(s.j, t.j) && LifeOk(cfg, t.j)
    requires t.links == s.links && t.handed == s.handed && t.updates == s.updates
    requires s.todo == t.todo || forall i :: 0 <= i < |t.todo| ==> !t.todo[i].Steer?
    ensures SysOk(cfg, t)
  {
    SoftMine(s.j, t.j);
    SoftOnItsWay(s, t);
    SoftSettling(s, t);
    SoftGiven(s, t);
    SoftQuiet(s, t);
    forall e | Count(t.handed, e) > 0 ensures exists r :: Mine(t.j, r, e) {
      var r :| Mine(s.j, r, e);
      assert Mine(t.j, r, e);
    }
  }

  // ---------------------------------------------------------------- a worker's pass

  /** A pass of one worker, told by its parts. */
  ghost predicate Passes(s: Sys, t: Sys, r: RunId, input: Input, out: Out) {
    && Alive(s.links, r) && Enabled(s.links[r].worker, input) && Reads(s.links[r].queue, input)
    && s.links[r].worker.run == r && WorkerOk(s.links[r].worker)
    && out == TurnLoop.Step(s.links[r].worker, input)
    && t.j == s.j && t.todo == s.todo
    && t.links == s.links[r := Link(out.worker, Rest(s.links[r].queue, input))]
    && t.updates == s.updates + out.sends
    && t.handed == s.handed + HandedBy(s.links[r].worker, input)
  }

  lemma PassOnItsWay(s: Sys, t: Sys, r: RunId, input: Input, out: Out, e: EventId)
    requires Passes(s, t, r, input, out) && IsRun(s.j.runs, r) && !s.j.runs[r].status.Queued?
    ensures OnItsWay(t, r, e) + Count(HandedBy(s.links[r].worker, input), e) <= OnItsWay(s, r, e)
    ensures forall o :: o != r ==> OnItsWay(t, o, e) == OnItsWay(s, o, e)
    ensures Count(t.handed, e) == Count(s.handed, e) + Count(HandedBy(s.links[r].worker, input), e)
  {
    StepConserves(s.links[r].worker, s.links[r].queue, input, e);
    CountJoin(s.handed, HandedBy(s.links[r].worker, input), e);
    forall o | o != r ensures OnItsWay(t, o, e) == OnItsWay(s, o, e) { OthersOnTheirWay(s, t, r, t.links[r], o, e); }
  }

  lemma OthersOnTheirWay(s: Sys, t: Sys, r: RunId, link: Link, o: RunId, e: EventId)
    requires t.j == s.j && t.todo == s.todo && t.links == s.links[r := link] && o != r
    ensures OnItsWay(t, o, e) == OnItsWay(s, o, e)
  {}

  lemma PassHanded(s: Sys, t: Sys, r: RunId, input: Input, out: Out)
    requires Passes(s, t, r, input, out) && IsRun(s.j.runs, r) && !s.j.runs[r].status.Queued?
    requires HandedOk(s.j, s.handed) && OnItsWayOk(s) && InputsOk(s.j.runs, s.j.inputs) && SteersOk(s.j.runs, s.j.inputs, s.j.steers)
    ensures HandedOk(t.j, t.handed) && OnItsWayOk(t)
  {
    forall e
      ensures Count(t.handed, e) <= 1
      ensures Count(t.handed, e) > 0 ==> exists o :: Mine(t.j, o, e)
    {
      PassOnItsWay(s, t, r, input, out, e);
      assert OnItsWay(s, r, e) > 0 ==> Mine(s.j, r, e);
    }
    forall o, e | OnItsWay(t, o, e) > 0
      ensures OnItsWay(t, o, e) == 1 && Count(t.handed, e) == 0 && Mine(t.j, o, e)
    {
      PassOnItsWay(s, t, r, input, out, e);
      assert OnItsWay(s, o, e) > 0;
      if o != r && OnItsWay(s, r, e) > 0 { OneOwner(s.j, o, r, e); }
    }
  }

  lemma SteeredSends(w: Worker, out: Out, r: RunId, e: EventId)
    requires SendsOk(w, out) && IsSteered(out.sends, r, e)
    ensures r == w.run
  {}

  lemma EndsJoin(updates: seq<AgentEvent>, sends: seq<AgentEvent>)
    ensures forall a, r: RunId :: Ends(updates, a, r) ==> Ends(updates + sends, a, r)
    ensures forall r: RunId :: WillFail(updates, r) ==> WillFail(updates + sends, r)
  {
    forall r: RunId | WillFail(updates, r) ensures WillFail(updates + sends, r) {
      var a :| Ends(updates, a, r) && (updates[a].status.Failed? || updates[a].status.Interrupted?);
      assert Ends(updates + sends, a, r) && (updates + sends)[a] == updates[a];
    }
  }

  lemma FailsSo(updates: seq<AgentEvent>, w: Worker, out: Out)
    requires SendsOk(w, out) && Fails(out.sends)
    ensures WillFail(updates + out.sends, w.run) && out.worker.phase.Over?
  {
    var i :| 0 <= i < |out.sends| && out.sends[i].Finished? && (out.sends[i].status.Failed? || out.sends[i].status.Interrupted?);
    assert (updates + out.sends)[|updates| + i] == out.sends[i];
    assert Ends(updates + out.sends, |updates| + i, w.run);
  }

  lemma PassUpdates(s: Sys, t: Sys, r: RunId, input: Input, out: Out)
    requires Passes(s, t, r, input, out) && UpdatesOk(s.links, s.updates)
    ensures UpdatesOk(t.links, t.updates)
  {
    StepSends(s.links[r].worker, input);
    UpdatesGrow(s.links, t.links, s.updates, r, s.links[r].worker, out);
  }

  /** A live worker's updates queue up behind the others. */
  lemma UpdatesGrow(links: map<RunId, Link>, after: map<RunId, Link>, updates: seq<AgentEvent>, r: RunId, w: Worker, out: Out)
    requires UpdatesOk(links, updates) && Alive(links, r) && SendsOk(w, out) && w.run == r && !w.phase.Over?
    requires after.Keys == links.Keys && after[r].worker == out.worker
    requires forall o :: o in links && o != r ==> after[o] == links[o]
    ensures UpdatesOk(after, updates + out.sends)
  {
    var all := updates + out.sends;
    forall a, o: RunId | Ends(all, a, o)
      ensures !all[a].status.Active() && !Alive(after, o) && forall b :: a < b < |all| ==> all[b].run != o
    {
      if a < |updates| {
        assert Ends(updates, a, o);
      } else {
        assert all[a] == out.sends[a - |updates|];
      }
    }
    forall o | o in after && !Alive(after, o)
      ensures exists a :: Ends(all, a, o)
    {
      if o == r {
        assert Ends(all, |all| - 1, o);
      } else {
        var a :| Ends(updates, a, o);
        assert Ends(all, a, o);
      }
    }
  }

  lemma PassSettles(s: Sys, t: Sys, r: RunId, input: Input, out: Out, i: nat)
    requires Passes(s, t, r, input, out) && PendingRow(s.j, i) && Count(t.handed, s.j.steers[i].event) > 0
    requires SettlingOk(s) && QuietOk(s) && OnItsWayOk(s) && IsRun(s.j.runs, r) && !s.j.runs[r].status.Queued?
    requires InputsOk(s.j.runs, s.j.inputs) && SteersOk(s.j.runs, s.j.inputs, s.j.steers)
    ensures Settling(t, s.j.steers[i].run, s.j.steers[i].event)
  {
    var w, o, e := s.links[r].worker, s.j.steers[i].run, s.j.steers[i].event;
    assert Mine(s.j, o, e);
    PassOnItsWay(s, t, r, input, out, e);
    StepAccounts(w, input, e);
    StepSends(w, input);
    SteeredJoin(s.updates, out.sends, o, e);
    EndsJoin(s.updates, out.sends);
    if Fails(out.sends) { FailsSo(s.updates, w, out); }
    if Count(s.handed, e) == 0 {
      OneOwner(s.j, o, r, e);
      CountIn(HandedBy(w, input), e);
      NewlyHanded(w, input, e);
    } else {
      assert Settling(s, o, e);
    }
  }

  /** What is handed over by anything but the first prompt is a follow-up handed over inside the run. */
  lemma NewlyHanded(w: Worker, input: Input, e: EventId)
    requires Enabled(w, input) && WorkerOk(w) && e in HandedBy(w, input)
    requires w.phase.Setup? ==> Count(w.carried, e) == 0
    ensures e in SteersBy(w, input)
  {
    if input.Begin? {
      FewHanded(Arm(w, input).acts);
      FewHanded([]);
      CountIn(w.carried, e);
    }
  }

  lemma PassGiven(s: Sys, t: Sys, r: RunId, input: Input, out: Out, o: RunId, e: EventId)
    requires Passes(s, t, r, input, out) && Given(s, o, e)
    ensures Given(t, o, e)
  {
    var w := s.links[r].worker;
    StepSends(w, input);
    CountJoin(s.handed, HandedBy(w, input), e);
    EndsJoin(s.updates, out.sends);
    if Unstarted(s, o, e) && o == r {
      BeginHands(w, input, e);
      if input.Break? {
        BreakFails(w, input);
        FailsSo(s.updates, w, out);
      }
    }
  }

  lemma BreakFails(w: Worker, input: Input)
    requires Enabled(w, input) && input.Break?
    ensures Fails(TurnLoop.Step(w, input).sends)
  {
    var sends := TurnLoop.Step(w, input).sends;
    assert sends[|sends| - 1] == Finished(w.run, Failed);
  }

  lemma BeginHands(w: Worker, input: Input, e: EventId)
    requires Enabled(w, input) && WorkerOk(w) && w.phase.Setup?
    ensures !input.Break? ==> Count(HandedBy(w, input), e) == Count(w.carried, e)
  {
    if !input.Break? {
      FewHanded(Arm(w, input).acts);
      FewHanded([]);
      assert w.carried + [] == w.carried;
    }
  }

  lemma PassReported(s: Sys, t: Sys, r: RunId, input: Input, out: Out)
    requires Passes(s, t, r, input, out) && ReportedOk(s)
    ensures ReportedOk(t)
  {
    var w := s.links[r].worker;
    StepSends(w, input);
    EndsJoin(s.updates, out.sends);
    if Fails(out.sends) { FailsSo(s.updates, w, out); }
    PassReportedAll(s, t, r, input, out);
  }

  lemma PassReportedAll(s: Sys, t: Sys, r: RunId, input: Input, out: Out)
    requires Passes(s, t, r, input, out) && ReportedOk(s) && SendsOk(s.links[r].worker, out)
    requires Fails(out.sends) ==> WillFail(t.updates, r) && out.worker.phase.Over?
    requires forall o: RunId :: WillFail(s.updates, o) ==> WillFail(t.updates, o)
    ensures ReportedOk(t)
  {
    forall o: RunId, e ensures ReportedFor(t, o, e) { PassReportedOne(s, t, r, input, out, o, e); }
    AllReported(t);
  }

  /** What one worker remembers and reports of one message has really been handed over. */
  ghost predicate ReportedFor(s: Sys, r: RunId, e: EventId) {
    && (Alive(s.links, r) && Unacked(s.links[r].worker, e) ==> Count(s.handed, e) > 0)
    && (IsSteered(s.updates, r, e) ==> Count(s.handed, e) > 0 || WillFail(s.updates, r))
  }

  lemma AllReported(s: Sys)
    requires forall r: RunId, e :: ReportedFor(s, r, e)
    ensures ReportedOk(s)
  {
    forall r, e | Alive(s.links, r) && Unacked(s.links[r].worker, e) ensures Count(s.handed, e) > 0 { assert ReportedFor(s, r, e); }
    forall r: RunId, e | IsSteered(s.updates, r, e) ensures Count(s.handed, e) > 0 || WillFail(s.updates, r) { assert ReportedFor(s, r, e); }
  }

  lemma PassReportedOne(s: Sys, t: Sys, r: RunId, input: Input, out: Out, o: RunId, e: EventId)
    requires Passes(s, t, r, input, out) && SendsOk(s.links[r].worker, out)
    requires Fails(out.sends) ==> WillFail(t.updates, r) && out.worker.phase.Over?
    requires WillFail(s.updates, o) ==> WillFail(t.updates, o)
    requires ReportedOk(s)
    ensures ReportedFor(t, o, e)
  {
    var w := s.links[r].worker;
    StepAccounts(w, input, e);
    CountJoin(s.handed, HandedBy(w, input), e);
    SteeredJoin(s.updates, out.sends, o, e);
    SteersHanded(w, input, e);
    if IsSteered(out.sends, o, e) { SteeredSends(w, out, o, e); }
  }

  lemma SteersHanded(w: Worker, input: Input, e: EventId)
    requires Enabled(w, input)
    ensures e in SteersBy(w, input) ==> Count(HandedBy(w, input), e) > 0
  {
    CountIn(HandedBy(w, input), e);
  }

  lemma PassQuiet(s: Sys, t: Sys, r: RunId, input: Input, out: Out)
    requires Passes(s, t, r, input, out) && QuietOk(s) && IsRun(s.j.runs, r) && !s.j.runs[r].status.Queued?
    ensures QuietOk(t)
  {
    StepSends(s.links[r].worker, input);
    forall i | PendingRow(t.j, i) && IsRun(t.j.runs, t.j.steers[i].run) && t.j.runs[t.j.steers[i].run].status.Cancelling?
      ensures OnItsWay(t, t.j.steers[i].run, t.j.steers[i].event) == 0
    {
      assert OnItsWay(s, s.j.steers[i].run, s.j.steers[i].event) == 0;
      PassOnItsWay(s, t, r, input, out, s.j.steers[i].event);
    }
  }

  lemma PassKeeps(cfg: Config, s: Sys, t: Sys, r: RunId, input: Input, out: Out)
    requires SysOk(cfg, s) && Passes(s, t, r, input, out)
    ensures SysOk(cfg, t)
  {
    PassHanded(s, t, r, input, out);
    PassUpdates(s, t, r, input, out);
    StepSends(s.links[r].worker, input);
    PassSettling(cfg, s, t, r, input, out);
    PassReported(s, t, r, input, out);
    PassQuiet(s, t, r, input, out);
  }

  lemma PassSettling(cfg: Config, s: Sys, t: Sys, r: RunId, input: Input, out: Out)
    requires Passes(s, t, r, input, out) && SettlingOk(s) && GivenOk(s) && QuietOk(s) && OnItsWayOk(s)
    requires InputsOk(s.j.runs, s.j.inputs) && SteersOk(s.j.runs, s.j.inputs, s.j.steers)
    requires IsRun(s.j.runs, r) && !s.j.runs[r].status.Queued?
    ensures SettlingOk(t) && GivenOk(t)
  {
    forall i | PendingRow(t.j, i) && Count(t.handed, t.j.steers[i].event) > 0
      ensures Settling(t, t.j.steers[i].run, t.j.steers[i].event)
    {
      PassSettles(s, t, r, input, out, i);
    }
    forall o, e | Given(s, o, e) ensures Given(t, o, e) { PassGiven(s, t, r, input, out, o, e); }
  }
}
