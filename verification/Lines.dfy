/**
 The order of follow-ups under after-turn steering. A run's line is what is still on its way to its agent: the worker's
 own notes, its queue, and the effects not yet carried out. Lines are kept in the order of arrival, whatever was handed
 over before stands in front of them, and a row that is still pending comes after both. Each move is shown to keep this.
 */
module Lines {
  import opened Model
  import opened Journal
  import opened Rules
  import opened Invariants
  import opened Lifecycle
  import opened Steps
  import EventSteps
  import opened History
  import opened TurnLoop
  import opened Handing
  import opened Protocol
  import opened Delivery
  import opened DeliverySteps
  import opened Moves
  import opened System
  import opened Capacity
  import TurnSafety

  // ---------------------------------------------------------------- lines

  function QueueLine(queue: seq<Command>): seq<EventId> {
    if queue == [] then [] else (if queue[0].SteerRun? then [queue[0].event] else []) + QueueLine(queue[1..])
  }

  function TodoLine(todo: seq<Effect>, r: RunId): seq<EventId> {
    if todo == [] then []
    else (if todo[0].Steer? && todo[0].run == r then [todo[0].event] else []) + TodoLine(todo[1..], r)
  }

  function WorkerLine(w: Worker): seq<EventId> {
    (if w.phase.Setup? then w.carried else []) + Notes(w.steering)
  }

  /** The messages a run has yet to put before its agent, in the order it will. */
  function Line(s: Sys, r: RunId): seq<EventId> {
    if Alive(s.links, r) then WorkerLine(s.links[r].worker) + QueueLine(s.links[r].queue) + TodoLine(s.todo, r)
    else if IsRun(s.j.runs, r) && s.j.runs[r].status.Queued? then Carried(s.j, r)
    else []
  }

  predicate RowAt(j: Journal, i: int, e: EventId) {
    0 <= i < |j.steers| && j.steers[i].event == e
  }

  predicate SameConv(j: Journal, i: int, k: int) {
    && 0 <= i < |j.steers| && 0 <= k < |j.steers|
    && IsRun(j.runs, j.steers[i].run) && IsRun(j.runs, j.steers[k].run)
    && j.runs[j.steers[i].run].conv == j.runs[j.steers[k].run].conv
  }

  /** As follow-ups of one conversation, `a` arrived before `b`; rows are numbered in order of arrival. */
  ghost predicate Precedes(j: Journal, a: EventId, b: EventId) {
    forall i, k :: RowAt(j, i, a) && RowAt(j, k, b) && SameConv(j, i, k) ==> i < k
  }

  ghost predicate Ordered(j: Journal, events: seq<EventId>) {
    forall p, q :: 0 <= p < q < |events| ==> Precedes(j, events[p], events[q])
  }

  // ---------------------------------------------------------------- the invariant

  ghost predicate LinesOk(s: Sys) {
    forall r: RunId :: Ordered(s.j, s.handed + Line(s, r))
  }

  /** A pending follow-up of a run that is going on, or could be continued. */
  predicate Open(j: Journal, i: int) {
    PendingRow(j, i) && IsRun(j.runs, j.steers[i].run)
    && (j.runs[j.steers[i].run].status.Active() || j.runs[j.steers[i].run].status.Resumable())
  }

  /** The follow-up has been handed over or is on its way. */
  predicate UnderWay(s: Sys, i: int) {
    0 <= i < |s.j.steers| && (s.j.steers[i].event in s.handed || s.j.steers[i].event in Line(s, s.j.steers[i].run))
  }

  /** What waits outside every line arrived after whatever of its conversation is under way. */
  ghost predicate LaterOk(s: Sys) {
    !s.closing ==> forall i, k :: Open(s.j, i) && !UnderWay(s, i) && UnderWay(s, k) && SameConv(s.j, i, k) ==> k < i
  }

  /** A run whose follow-ups still get through: its worker is at work, or about to start. */
  ghost predicate GetsThrough(s: Sys, r: RunId) {
    && IsRun(s.j.runs, r)
    && ( || (Alive(s.links, r) && !s.j.runs[r].status.Cancelling?)
         || (s.j.runs[r].status.Queued? && exists n :: 0 <= n < |s.todo| && s.todo[n] == Start(r)) )
  }

  ghost predicate KeptOk(s: Sys) {
    !s.closing ==>
      forall r: RunId, i :: GetsThrough(s, r) && Open(s.j, i) && s.j.runs[s.j.steers[i].run].conv == s.j.runs[r].conv ==> UnderWay(s, i)
  }

  predicate Stopping(status: Status) {
    status.Cancelling? || !status.Active()
  }

  predicate HasCancel(queue: seq<Command>) {
    exists n :: 0 <= n < |queue| && queue[n].CancelRun?
  }

  /** A worker is told to stop only when its run is being cancelled, or at shutdown. */
  ghost predicate StopsOk(s: Sys) {
    !s.closing ==>
      && (forall r :: Alive(s.links, r) && (s.links[r].worker.stopping || HasCancel(s.links[r].queue)) ==>
            IsRun(s.j.runs, r) && s.j.runs[r].status.Cancelling?)
      && (forall n :: 0 <= n < |s.todo| && s.todo[n].Cancel? ==>
            IsRun(s.j.runs, s.todo[n].run) && Stopping(s.j.runs[s.todo[n].run].status))
  }

  ghost predicate OrderOk(s: Sys) {
    LinesOk(s) && LaterOk(s) && KeptOk(s) && StopsOk(s)
  }

  // ---------------------------------------------------------------- lists

  lemma {:induction false} QueueLineAppend(queue: seq<Command>, c: Command)
    ensures QueueLine(queue + [c]) == QueueLine(queue) + (if c.SteerRun? then [c.event] else [])
  {
    if queue == [] {
      assert (queue + [c])[1..] == [];
    } else {
      QueueLineAppend(queue[1..], c);
      assert (queue + [c])[1..] == queue[1..] + [c];
    }
  }

  lemma {:induction false} QueueLineCount(queue: seq<Command>, e: EventId)
    ensures Count(QueueLine(queue), e) == QueueCount(queue, e)
  {
    if queue != [] {
      QueueLineCount(queue[1..], e);
      CountJoin(if queue[0].SteerRun? then [queue[0].event] else [], QueueLine(queue[1..]), e);
      if queue[0].SteerRun? { CountOne(queue[0].event, e); }
    }
  }

  lemma {:induction false} TodoLineCount(todo: seq<Effect>, r: RunId, e: EventId)
    ensures Count(TodoLine(todo, r), e) == TodoCount(todo, r, e)
  {
    if todo != [] {
      TodoLineCount(todo[1..], r, e);
      CountJoin(if todo[0].Steer? && todo[0].run == r then [todo[0].event] else [], TodoLine(todo[1..], r), e);
      if todo[0].Steer? { CountOne(todo[0].event, e); }
    }
  }

  lemma {:induction false} NoTodoLine(todo: seq<Effect>, r: RunId)
    requires NoSteers(todo)
    ensures TodoLine(todo, r) == []
  {
    if todo != [] { NoTodoLine(todo[1..], r); }
  }

  /** A line lists exactly what is on its way. */
  lemma LineOnItsWay(cfg: Config, s: Sys, r: RunId, e: EventId)
    requires LinksOk(cfg, s.j, s.links) && cfg.steering.AfterTurn?
    ensures Count(Line(s, r), e) == OnItsWay(s, r, e)
    ensures e in Line(s, r) <==> OnItsWay(s, r, e) > 0
  {
    CountIn(Line(s, r), e);
    if Alive(s.links, r) {
      var w := s.links[r].worker;
      NotesCounted(w.steering, e);
      CountJoin(if w.phase.Setup? then w.carried else [], Notes(w.steering), e);
      CountJoin(WorkerLine(w), QueueLine(s.links[r].queue), e);
      CountJoin(WorkerLine(w) + QueueLine(s.links[r].queue), TodoLine(s.todo, r), e);
      QueueLineCount(s.links[r].queue, e);
      TodoLineCount(s.todo, r, e);
    }
  }

  // ---------------------------------------------------------------- order under growth

  /** Rows stay where they are, with their events and conversations. */
  ghost predicate RowsStay(j: Journal, k: Journal) {
    && |j.steers| <= |k.steers|
    && (forall i :: 0 <= i < |j.steers| ==> k.steers[i].event == j.steers[i].event)
    && (forall i, n :: 0 <= i < |j.steers| && 0 <= n < |j.steers| ==> (SameConv(k, i, n) <==> SameConv(j, i, n)))
  }

  lemma GrowsRows(cfg: Config, j: Journal, k: Journal)
    requires LifeOk(cfg, j) && Grows(j, k)
    ensures RowsStay(j, k)
  {
    forall i | 0 <= i < |j.steers|
      ensures SteerGrows(j, k, i)
    {
      assert IsRun(j.runs, j.steers[i].run);
    }
  }

  lemma PrecedesStays(j: Journal, k: Journal, a: EventId, b: EventId)
    requires RowsStay(j, k) && Precedes(j, a, b)
    requires forall i :: |j.steers| <= i < |k.steers| ==> k.steers[i].event != a
    ensures Precedes(k, a, b)
  {
    forall i, n | RowAt(k, i, a) && RowAt(k, n, b) && SameConv(k, i, n)
      ensures i < n
    {
      assert RowAt(j, i, a);
      assert n < |j.steers| ==> RowAt(j, n, b) && SameConv(j, i, n);
    }
  }

  /** New rows do not belong to anything known. */
  ghost predicate FreshRows(j: Journal, k: Journal) {
    forall i :: |j.steers| <= i < |k.steers| ==> forall r :: !Mine(j, r, k.steers[i].event)
  }

  ghost predicate KnownTo(j: Journal, e: EventId) {
    exists r :: Mine(j, r, e)
  }

  ghost predicate AllKnown(j: Journal, events: seq<EventId>) {
    forall e :: e in events ==> KnownTo(j, e)
  }

  lemma OrderedStays(j: Journal, k: Journal, events: seq<EventId>)
    requires RowsStay(j, k) && FreshRows(j, k) && AllKnown(j, events) && Ordered(j, events)
    ensures Ordered(k, events)
  {
    forall p, q | 0 <= p < q < |events| ensures Precedes(k, events[p], events[q]) {
      assert events[p] in events && KnownTo(j, events[p]);
      PrecedesStays(j, k, events[p], events[q]);
    }
  }

  lemma OrderedWithout(j: Journal, a: seq<EventId>, b: seq<EventId>, c: seq<EventId>)
    requires Ordered(j, a + b + c)
    ensures Ordered(j, a + c)
  {
    var all, some := a + b + c, a + c;
    forall p, q | 0 <= p < q < |some| ensures Precedes(j, some[p], some[q]) {
      var x := if p < |a| then p else p + |b|;
      var y := if q < |a| then q else q + |b|;
      assert all[x] == some[p] && all[y] == some[q];
    }
  }

  lemma LineKnown(cfg: Config, s: Sys, r: RunId)
    requires LinksOk(cfg, s.j, s.links) && OnItsWayOk(s) && HandedOk(s.j, s.handed) && cfg.steering.AfterTurn?
    ensures AllKnown(s.j, s.handed) && AllKnown(s.j, Line(s, r))
    ensures forall e :: e in Line(s, r) ==> Mine(s.j, r, e) && e !in s.handed
  {
    forall e | e in Line(s, r) ensures Mine(s.j, r, e) && e !in s.handed && KnownTo(s.j, e) {
      LineOnItsWay(cfg, s, r, e);
      CountIn(s.handed, e);
    }
    forall e | e in s.handed ensures KnownTo(s.j, e) {
      CountIn(s.handed, e);
    }
  }

  /** Any list that a line can be turned into by leaving out a middle part, in a journal that has only grown. */
  lemma LineStays(cfg: Config, s: Sys, k: Journal, r: RunId, a: seq<EventId>, b: seq<EventId>, c: seq<EventId>)
    requires LinksOk(cfg, s.j, s.links) && OnItsWayOk(s) && HandedOk(s.j, s.handed) && cfg.steering.AfterTurn?
    requires LinesOk(s) && RowsStay(s.j, k) && FreshRows(s.j, k)
    requires Line(s, r) == a + b + c
    ensures Ordered(k, s.handed + (a + c))
  {
    LineKnown(cfg, s, r);
    OrderedStays(s.j, k, s.handed + Line(s, r));
    Dropped3(k, s.handed, a, b, c);
  }

  lemma Dropped3(k: Journal, handed: seq<EventId>, a: seq<EventId>, b: seq<EventId>, c: seq<EventId>)
    requires Ordered(k, handed + (a + b + c))
    ensures Ordered(k, handed + (a + c))
  {
    assert handed + (a + b + c) == (handed + a) + b + c;
    OrderedWithout(k, handed + a, b, c);
    assert (handed + a) + c == handed + (a + c);
  }

  // ---------------------------------------------------------------- moves that hand nothing over

  /** No line changes but by being given up, and nothing new waits. */
  ghost predicate Calmer(s: Sys, t: Sys) {
    && t.handed == s.handed && RowsStay(s.j, t.j) && |t.j.steers| == |s.j.steers|
    && (forall r: RunId :: Line(t, r) == Line(s, r) || Line(t, r) == [])
    && (t.closing <==> s.closing)
    && (forall i :: Open(t.j, i) ==> Open(s.j, i) && (UnderWay(s, i) ==> UnderWay(t, i)))
    && (forall k :: UnderWay(t, k) ==> UnderWay(s, k))
    && (forall r: RunId :: GetsThrough(t, r) ==> GetsThrough(s, r) && t.j.runs[r].conv == s.j.runs[r].conv)
    && (forall i :: Open(t.j, i) ==> t.j.runs[t.j.steers[i].run].conv == s.j.runs[s.j.steers[i].run].conv)
  }

  lemma CalmerLines(cfg: Config, s: Sys, t: Sys)
    requires LinksOk(cfg, s.j, s.links) && OnItsWayOk(s) && HandedOk(s.j, s.handed) && cfg.steering.AfterTurn?
    requires LinesOk(s) && t.handed == s.handed && RowsStay(s.j, t.j) && |t.j.steers| == |s.j.steers|
    requires forall r: RunId :: Line(t, r) == Line(s, r) || Line(t, r) == []
    ensures LinesOk(t)
  {
    forall r: RunId ensures Ordered(t.j, t.handed + Line(t, r)) {
      var line := Line(s, r);
      if Line(t, r) == line {
        assert line == line + [] + [];
        LineStays(cfg, s, t.j, r, line, [], []);
        assert line + [] == line;
      } else {
        assert line == [] + line + [];
        LineStays(cfg, s, t.j, r, [], line, []);
        assert [] + [] == Line(t, r);
      }
    }
  }

  lemma CalmerOrder(cfg: Config, s: Sys, t: Sys)
    requires LinksOk(cfg, s.j, s.links) && OnItsWayOk(s) && HandedOk(s.j, s.handed) && cfg.steering.AfterTurn?
    requires LinesOk(s) && LaterOk(s) && KeptOk(s) && Calmer(s, t)
    ensures LinesOk(t) && LaterOk(t) && KeptOk(t)
  {
    CalmerLines(cfg, s, t);
  }

  /** A pending follow-up is not part of a prompt that has not been submitted. */
  lemma PendingNotCarried(cfg: Config, j: Journal, i: int, r: RunId)
    requires LifeOk(cfg, j) && PendingRow(j, i)
    ensures j.steers[i].event !in Carried(j, r)
  {
    CarriedCount(cfg, j, r, j.steers[i].event);
    CountIn(Carried(j, r), j.steers[i].event);
    assert !HasTaken(j.steers, r, j.steers[i].event);
  }

  /** Statuses move among active ones and follow-ups are dropped; `t` may have new effects that start nothing. */
  ghost predicate SoftMove(s: Sys, t: Sys) {
    && Soft(s.j, t.j) && t.links == s.links && t.handed == s.handed && t.closing == s.closing
    && (t.todo == s.todo || (s.todo == [] && Harmless(t.todo) && CancelsStopped(t.j, t.todo)))
  }

  lemma SoftLine(s: Sys, t: Sys, r: RunId)
    requires SoftMove(s, t)
    ensures Line(t, r) == Line(s, r) || (Line(t, r) == [] && IsRun(s.j.runs, r) && s.j.runs[r].status.Queued? && Line(s, r) == Carried(s.j, r))
  {
    if t.todo != s.todo {
      NoTodoLine(s.todo, r);
      NoTodoLine(t.todo, r);
    }
    SoftCarried(s.j, t.j, r);
  }

  lemma SoftOrder(cfg: Config, s: Sys, t: Sys)
    requires SysOk(cfg, s) && OrderOk(s) && cfg.steering.AfterTurn? && SoftMove(s, t) && RowsStay(s.j, t.j)
    ensures OrderOk(t)
  {
    SoftCalmer(cfg, s, t);
    CalmerOrder(cfg, s, t);
    SoftStops(s, t);
  }

  lemma SoftRow(cfg: Config, s: Sys, t: Sys, i: int)
    requires LifeOk(cfg, s.j) && SoftMove(s, t)
    ensures Open(t.j, i) ==>
      && Open(s.j, i) && (UnderWay(s, i) ==> UnderWay(t, i))
      && t.j.runs[t.j.steers[i].run].conv == s.j.runs[s.j.steers[i].run].conv
    ensures UnderWay(t, i) ==> UnderWay(s, i)
  {
    if 0 <= i < |s.j.steers| {
      SoftLine(s, t, s.j.steers[i].run);
      if Open(t.j, i) { PendingNotCarried(cfg, s.j, i, s.j.steers[i].run); }
    }
  }

  lemma SoftThrough(s: Sys, t: Sys, r: RunId)
    requires SoftMove(s, t) && GetsThrough(t, r)
    ensures GetsThrough(s, r) && t.j.runs[r].conv == s.j.runs[r].conv
  {}

  lemma SoftCalmer(cfg: Config, s: Sys, t: Sys)
    requires LifeOk(cfg, s.j) && SoftMove(s, t) && RowsStay(s.j, t.j)
    ensures Calmer(s, t)
  {
    forall r: RunId ensures Line(t, r) == Line(s, r) || Line(t, r) == [] { SoftLine(s, t, r); }
    forall i
      ensures Open(t.j, i) ==>
        && Open(s.j, i) && (UnderWay(s, i) ==> UnderWay(t, i))
        && t.j.runs[t.j.steers[i].run].conv == s.j.runs[s.j.steers[i].run].conv
      ensures UnderWay(t, i) ==> UnderWay(s, i)
    {
      SoftRow(cfg, s, t, i);
    }
    forall r: RunId | GetsThrough(t, r) ensures GetsThrough(s, r) && t.j.runs[r].conv == s.j.runs[r].conv { SoftThrough(s, t, r); }
  }

  lemma SoftStops(s: Sys, t: Sys)
    requires StopsOk(s) && SoftMove(s, t)
    ensures StopsOk(t)
  {}

  /** A command goes out to a live worker; only a stopped run is cancelled. */
  lemma SendOrder(cfg: Config, s: Sys, t: Sys, r: RunId, c: Command)
    requires SysOk(cfg, s) && OrderOk(s) && cfg.steering.AfterTurn? && Sends(s, t, r, c) && t.closing == s.closing
    requires !s.todo[0].Start? && (c.CancelRun? ==> s.todo[0] == Effect.Cancel(r))
    ensures OrderOk(t)
  {
    forall o: RunId ensures Line(t, o) == Line(s, o) { SendLine(s, t, r, c, o); }
    forall o: RunId | GetsThrough(t, o) ensures GetsThrough(s, o) {
      if n :| 0 <= n < |t.todo| && t.todo[n] == Start(o) { assert s.todo[n + 1] == Start(o); }
    }
    CalmerOrder(cfg, s, t);
    SendStops(s, t, r, c);
  }

  lemma SendLine(s: Sys, t: Sys, r: RunId, c: Command, o: RunId)
    requires Sends(s, t, r, c)
    ensures Line(t, o) == Line(s, o)
  {
    if Alive(s.links, o) {
      var w, queue := s.links[o].worker, s.links[o].queue;
      QueueLineAppend(queue, c);
      var mine := if c.SteerRun? && o == r then [c.event] else [];
      assert TodoLine(s.todo, o) == mine + TodoLine(t.todo, o);
      assert t.links[o].worker == w && QueueLine(t.links[o].queue) == QueueLine(queue) + mine;
    }
  }

  lemma SendStops(s: Sys, t: Sys, r: RunId, c: Command)
    requires (forall o :: Alive(s.links, o) ==> IsRun(s.j.runs, o) && s.j.runs[o].status.Active())
    requires StopsOk(s) && Sends(s, t, r, c) && t.closing == s.closing && (c.CancelRun? ==> s.todo[0] == Effect.Cancel(r))
    ensures StopsOk(t)
  {
    forall o | !t.closing && Alive(t.links, o) && (t.links[o].worker.stopping || HasCancel(t.links[o].queue))
      ensures IsRun(t.j.runs, o) && t.j.runs[o].status.Cancelling?
    {
      if !s.links[o].worker.stopping && !HasCancel(s.links[o].queue) {
        var n :| 0 <= n < |t.links[o].queue| && t.links[o].queue[n].CancelRun?;
        assert n == |s.links[o].queue|;
      }
    }
    forall n | !t.closing && 0 <= n < |t.todo| && t.todo[n].Cancel?
      ensures IsRun(t.j.runs, t.todo[n].run) && Stopping(t.j.runs[t.todo[n].run].status)
    {
      assert s.todo[n + 1] == t.todo[n];
    }
  }

  lemma DispatchLine(cfg: Config, s: Sys, t: Sys, r: RunId, spawned: bool, o: RunId)
    requires Dispatches(cfg, s, t, r, spawned)
    ensures Line(t, o) == if o == r && !spawned then [] else Line(s, o)
  {
    NoTodoLine(s.todo, o);
    NoTodoLine(t.todo, o);
  }

  lemma DispatchOrder(cfg: Config, s: Sys, t: Sys, r: RunId, spawned: bool)
    requires SysOk(cfg, s) && OrderOk(s) && cfg.steering.AfterTurn? && Dispatches(cfg, s, t, r, spawned) && t.closing == s.closing
    requires s.todo != [] && s.todo[0] == Start(r) && (t.todo == s.todo[1..] || t.todo == [])
    ensures OrderOk(t)
  {
    DispatchCalmer(cfg, s, t, r, spawned);
    CalmerOrder(cfg, s, t);
    DispatchStops(cfg, s, t, r, spawned);
  }

  lemma DispatchRow(cfg: Config, s: Sys, t: Sys, r: RunId, spawned: bool, i: int)
    requires LifeOk(cfg, s.j) && Dispatches(cfg, s, t, r, spawned)
    ensures Open(t.j, i) ==>
      && Open(s.j, i) && (UnderWay(s, i) ==> UnderWay(t, i))
      && t.j.runs[t.j.steers[i].run].conv == s.j.runs[s.j.steers[i].run].conv
    ensures UnderWay(t, i) ==> UnderWay(s, i)
  {
    if 0 <= i < |s.j.steers| {
      DispatchLine(cfg, s, t, r, spawned, s.j.steers[i].run);
      if Open(t.j, i) { PendingNotCarried(cfg, s.j, i, r); }
    }
  }

  lemma DispatchThrough(cfg: Config, s: Sys, t: Sys, r: RunId, spawned: bool, o: RunId)
    requires Dispatches(cfg, s, t, r, spawned) && NoMore(s.todo, t.todo) && s.todo != [] && s.todo[0] == Start(r) && GetsThrough(t, o)
    ensures GetsThrough(s, o) && t.j.runs[o].conv == s.j.runs[o].conv
  {
    if n :| 0 <= n < |t.todo| && t.todo[n] == Start(o) { assert Start(o) in s.todo; }
  }

  lemma DispatchCalmer(cfg: Config, s: Sys, t: Sys, r: RunId, spawned: bool)
    requires LifeOk(cfg, s.j) && Dispatches(cfg, s, t, r, spawned) && t.closing == s.closing
    requires s.todo != [] && s.todo[0] == Start(r) && (t.todo == s.todo[1..] || t.todo == [])
    ensures Calmer(s, t)
  {
    Fewer(s.todo);
    forall o: RunId ensures Line(t, o) == Line(s, o) || Line(t, o) == [] { DispatchLine(cfg, s, t, r, spawned, o); }
    forall i
      ensures Open(t.j, i) ==>
        && Open(s.j, i) && (UnderWay(s, i) ==> UnderWay(t, i))
        && t.j.runs[t.j.steers[i].run].conv == s.j.runs[s.j.steers[i].run].conv
      ensures UnderWay(t, i) ==> UnderWay(s, i)
    {
      DispatchRow(cfg, s, t, r, spawned, i);
    }
    forall o: RunId | GetsThrough(t, o) ensures GetsThrough(s, o) && t.j.runs[o].conv == s.j.runs[o].conv { DispatchThrough(cfg, s, t, r, spawned, o); }
  }

  lemma DispatchStops(cfg: Config, s: Sys, t: Sys, r: RunId, spawned: bool)
    requires StopsOk(s) && Dispatches(cfg, s, t, r, spawned) && t.closing == s.closing
    requires s.todo != [] && s.todo[0] == Start(r) && (t.todo == s.todo[1..] || t.todo == [])
    ensures StopsOk(t)
  {
    forall n | 0 <= n < |t.todo| ensures t.todo[n] == s.todo[n + 1] {}
  }

  // ---------------------------------------------------------------- outcomes and other news

  lemma ConcludeLine(s: Sys, t: Sys, r: RunId, status: Status, o: RunId)
    requires Concludes(s, t, r, status)
    ensures Line(t, o) == if o == r then [] else Line(s, o)
  {
    NoTodoLine(s.todo, o);
    NoTodoLine(t.todo, o);
  }

  lemma ConcludeRow(cfg: Config, s: Sys, t: Sys, r: RunId, status: Status, i: int)
    requires LifeOk(cfg, s.j) && Concludes(s, t, r, status)
    ensures Open(t.j, i) ==>
      && Open(s.j, i) && (UnderWay(s, i) ==> UnderWay(t, i))
      && t.j.runs[t.j.steers[i].run].conv == s.j.runs[s.j.steers[i].run].conv
    ensures UnderWay(t, i) ==> UnderWay(s, i)
  {
    if 0 <= i < |s.j.steers| {
      ConcludeLine(s, t, r, status, s.j.steers[i].run);
      if Open(t.j, i) { PendingNotCarried(cfg, s.j, i, r); }
    }
  }

  lemma ConcludeCalmer(cfg: Config, s: Sys, t: Sys, r: RunId, status: Status)
    requires LifeOk(cfg, s.j) && Concludes(s, t, r, status) && RowsStay(s.j, t.j) && t.closing == s.closing
    requires NoMore(s.todo, t.todo)
    ensures Calmer(s, t)
  {
    forall o: RunId ensures Line(t, o) == Line(s, o) || Line(t, o) == [] { ConcludeLine(s, t, r, status, o); }
    forall i
      ensures Open(t.j, i) ==>
        && Open(s.j, i) && (UnderWay(s, i) ==> UnderWay(t, i))
        && t.j.runs[t.j.steers[i].run].conv == s.j.runs[s.j.steers[i].run].conv
      ensures UnderWay(t, i) ==> UnderWay(s, i)
    {
      ConcludeRow(cfg, s, t, r, status, i);
    }
    forall o: RunId | GetsThrough(t, o) ensures GetsThrough(s, o) && t.j.runs[o].conv == s.j.runs[o].conv {
      ConcludeThrough(s, t, r, status, o);
    }
  }

  lemma ConcludeThrough(s: Sys, t: Sys, r: RunId, status: Status, o: RunId)
    requires Concludes(s, t, r, status) && NoMore(s.todo, t.todo) && GetsThrough(t, o)
    ensures GetsThrough(s, o) && t.j.runs[o].conv == s.j.runs[o].conv
  {
    if n :| 0 <= n < |t.todo| && t.todo[n] == Start(o) { assert Start(o) in s.todo; }
  }

  lemma ConcludeOrder(cfg: Config, s: Sys, t: Sys, r: RunId, status: Status)
    requires SysOk(cfg, s) && OrderOk(s) && cfg.steering.AfterTurn? && Concludes(s, t, r, status) && RowsStay(s.j, t.j) && t.closing == s.closing
    requires t.todo == s.todo || (s.todo != [] && t.todo == s.todo[1..])
    ensures OrderOk(t)
  {
    Fewer(s.todo);
    ConcludeCalmer(cfg, s, t, r, status);
    CalmerOrder(cfg, s, t);
    ConcludeStops(s, t, r, status);
  }

  /** Nothing new is to be done. */
  ghost predicate NoMore(todo: seq<Effect>, after: seq<Effect>) {
    forall n :: 0 <= n < |after| ==> after[n] in todo
  }

  lemma Fewer(todo: seq<Effect>)
    ensures NoMore(todo, todo) && (todo != [] ==> NoMore(todo, todo[1..]))
  {}

  lemma ConcludeStops(s: Sys, t: Sys, r: RunId, status: Status)
    requires StopsOk(s) && Concludes(s, t, r, status) && t.closing == s.closing
    requires NoMore(s.todo, t.todo)
    ensures StopsOk(t)
  {
    forall n | !t.closing && 0 <= n < |t.todo| && t.todo[n].Cancel?
      ensures IsRun(t.j.runs, t.todo[n].run) && Stopping(t.j.runs[t.todo[n].run].status)
    {
      assert t.todo[n] in s.todo;
    }
  }

  lemma NoteLine(cfg: Config, s: Sys, t: Sys, o: RunId)
    requires LinksOk(cfg, s.j, s.links) && Notes1(s, t)
    ensures Line(t, o) == Line(s, o) || (Line(t, o) == [] && IsRun(s.j.runs, o) && s.j.runs[o].status.Queued? && Line(s, o) == Carried(s.j, o))
  {
    if Soft(s.j, t.j) {
      SoftCarried(s.j, t.j, o);
    } else if IsRun(s.j.runs, o) && s.j.runs[o].status.Queued? {
      SameTaken(s.j.steers, t.j.steers, o);
    }
  }

  lemma NoteRow(cfg: Config, s: Sys, t: Sys, i: int)
    requires LifeOk(cfg, s.j) && LinksOk(cfg, s.j, s.links) && Notes1(s, t)
    ensures Open(t.j, i) ==>
      && Open(s.j, i) && (UnderWay(s, i) ==> UnderWay(t, i))
      && t.j.runs[t.j.steers[i].run].conv == s.j.runs[s.j.steers[i].run].conv
    ensures UnderWay(t, i) ==> UnderWay(s, i)
  {
    if 0 <= i < |s.j.steers| {
      NoteLine(cfg, s, t, s.j.steers[i].run);
      if Open(t.j, i) { PendingNotCarried(cfg, s.j, i, s.j.steers[i].run); }
    }
  }

  lemma NoteCalmer(cfg: Config, s: Sys, t: Sys)
    requires LifeOk(cfg, s.j) && LinksOk(cfg, s.j, s.links) && Notes1(s, t) && RowsStay(s.j, t.j) && t.closing == s.closing
    ensures Calmer(s, t)
  {
    forall o: RunId ensures Line(t, o) == Line(s, o) || Line(t, o) == [] { NoteLine(cfg, s, t, o); }
    forall i
      ensures Open(t.j, i) ==>
        && Open(s.j, i) && (UnderWay(s, i) ==> UnderWay(t, i))
        && t.j.runs[t.j.steers[i].run].conv == s.j.runs[s.j.steers[i].run].conv
      ensures UnderWay(t, i) ==> UnderWay(s, i)
    {
      NoteRow(cfg, s, t, i);
    }
    forall o: RunId | GetsThrough(t, o) ensures GetsThrough(s, o) && t.j.runs[o].conv == s.j.runs[o].conv {}
  }

  lemma NoteOrder(cfg: Config, s: Sys, t: Sys)
    requires SysOk(cfg, s) && OrderOk(s) && cfg.steering.AfterTurn? && Notes1(s, t) && RowsStay(s.j, t.j) && t.closing == s.closing
    ensures OrderOk(t)
  {
    NoteCalmer(cfg, s, t);
    CalmerOrder(cfg, s, t);
    NoteStops(s, t);
  }

  lemma NoteStops(s: Sys, t: Sys)
    requires StopsOk(s) && Notes1(s, t) && t.closing == s.closing
    ensures StopsOk(t)
  {}

  // ---------------------------------------------------------------- shutdown and restart

  lemma CloseOrder(cfg: Config, s: Sys, t: Sys)
    requires LinksOk(cfg, s.j, s.links) && OnItsWayOk(s) && HandedOk(s.j, s.handed) && LinesOk(s) && cfg.steering.AfterTurn?
    requires t == s.(links := CancelAll(s.links), closing := true)
    ensures OrderOk(t)
  {
    forall o: RunId ensures Line(t, o) == Line(s, o) { CloseLine(s, t, o); }
    CalmerLines(cfg, s, t);
  }

  lemma CloseLine(s: Sys, t: Sys, o: RunId)
    requires t == s.(links := CancelAll(s.links), closing := true)
    ensures Line(t, o) == Line(s, o)
  {
    if Alive(s.links, o) {
      QueueLineAppend(s.links[o].queue, CancelRun);
      assert QueueLine(t.links[o].queue) == QueueLine(s.links[o].queue) + [];
    }
  }

  lemma CrashOrder(cfg: Config, s: Sys, t: Sys)
    requires SysOk(cfg, s) && OrderOk(s) && cfg.steering.AfterTurn? && Restarts(s.j, t.j) && RowsStay(s.j, t.j)
    requires t.links == map[] && t.todo == [] && t.handed == s.handed
    ensures OrderOk(t)
  {
    forall o: RunId ensures Line(t, o) == [] {}
    CalmerLines(cfg, s, t);
    forall i ensures !Open(t.j, i) {}
  }

  // ---------------------------------------------------------------- a new follow-up

  lemma FollowLine(s: Sys, t: Sys, r: RunId, e: EventId, prompt: string, o: RunId)
    requires Follows(s, t, r, e, prompt)
    ensures Line(t, o) == Line(s, o) + (if o == r && Alive(s.links, r) && !s.j.runs[r].status.Cancelling? then [e] else [])
  {
    AppendTaken(s.j.steers, SteerRow(e, r, prompt, Pending), o);
    assert TakenEvents(s.j.steers, o) + [] == TakenEvents(s.j.steers, o);
    if t.todo != [] { assert t.todo[1..] == []; }
    if Alive(s.links, o) {
      var front := WorkerLine(s.links[o].worker) + QueueLine(s.links[o].queue);
      assert TodoLine(s.todo, o) == [] && front + [] == front;
    } else {
      assert Line(s, o) + [] == Line(s, o);
    }
  }

  lemma FollowLines(cfg: Config, s: Sys, t: Sys, r: RunId, e: EventId, prompt: string)
    requires LinksOk(cfg, s.j, s.links) && OnItsWayOk(s) && HandedOk(s.j, s.handed) && LinesOk(s) && cfg.steering.AfterTurn?
    requires Follows(s, t, r, e, prompt) && RowsStay(s.j, t.j) && forall o :: !Mine(s.j, o, e)
    ensures LinesOk(t)
  {
    forall o: RunId ensures Ordered(t.j, t.handed + Line(t, o)) {
      FollowLine(s, t, r, e, prompt, o);
      var line := Line(s, o);
      assert line == line + [] + [] && line + [] == line;
      LineStays(cfg, s, t.j, o, line, [], []);
      if Line(t, o) != line {
        assert Line(t, o) == line + [e];
        LineKnown(cfg, s, o);
        LastInOrder(s.j, t.j, s.handed + line, e);
        assert t.handed + Line(t, o) == s.handed + line + [e];
      }
    }
  }

  /** The newest row may stand last. */
  lemma LastInOrder(j: Journal, k: Journal, events: seq<EventId>, e: EventId)
    requires Ordered(k, events) && |k.steers| == |j.steers| + 1 && k.steers[|j.steers|].event == e
    requires RowsStay(j, k) && AllKnown(j, events) && forall o :: !Mine(j, o, e)
    ensures Ordered(k, events + [e])
  {
    var all := events + [e];
    forall p, q | 0 <= p < q < |all| ensures Precedes(k, all[p], all[q]) {
      if q < |events| {
        assert all[p] == events[p] && all[q] == events[q];
      } else {
        assert all[p] in events && KnownTo(j, all[p]);
        forall i, n | RowAt(k, i, all[p]) && RowAt(k, n, e) && SameConv(k, i, n) ensures i < n {
          assert n < |j.steers| ==> Mine(j, j.steers[n].run, e);
        }
      }
    }
  }

  lemma FollowWay(s: Sys, t: Sys, r: RunId, e: EventId, prompt: string, i: int)
    requires Follows(s, t, r, e, prompt)
    ensures i < |s.j.steers| ==> (UnderWay(t, i) <==> UnderWay(s, i) || (UnderWay(t, i) && s.j.steers[i].event == e))
    ensures i < |s.j.steers| ==> (Open(t.j, i) <==> Open(s.j, i))
    ensures Alive(s.links, r) && !s.j.runs[r].status.Cancelling? ==> UnderWay(t, |s.j.steers|)
  {
    FollowLine(s, t, r, e, prompt, r);
    if 0 <= i < |s.j.steers| {
      FollowLine(s, t, r, e, prompt, s.j.steers[i].run);
    }
  }

  lemma FollowOrder(cfg: Config, s: Sys, t: Sys, r: RunId, e: EventId, prompt: string)
    requires SysOk(cfg, s) && OrderOk(s) && cfg.steering.AfterTurn? && Follows(s, t, r, e, prompt) && RowsStay(s.j, t.j)
    requires t.closing == s.closing && forall o :: !Mine(s.j, o, e)
    ensures OrderOk(t)
  {
    FollowLines(cfg, s, t, r, e, prompt);
    forall i | 0 <= i < |s.j.steers| ensures s.j.steers[i].event != e {
      assert Mine(s.j, s.j.steers[i].run, s.j.steers[i].event);
    }
    NeverHanded(s.j, s.handed, e);
    CountIn(s.handed, e);
    LineKnown(cfg, s, r);
    FollowLater(s, t, r, e, prompt);
    FollowKept(cfg, s, t, r, e, prompt);
    FollowStops(s, t, r, e, prompt);
  }

  lemma FollowStops(s: Sys, t: Sys, r: RunId, e: EventId, prompt: string)
    requires StopsOk(s) && Follows(s, t, r, e, prompt) && t.closing == s.closing
    ensures StopsOk(t)
  {}

  lemma FollowLater(s: Sys, t: Sys, r: RunId, e: EventId, prompt: string)
    requires LaterOk(s) && KeptOk(s) && Follows(s, t, r, e, prompt) && RowsStay(s.j, t.j) && t.closing == s.closing
    requires e !in s.handed && e !in Line(s, r)
    requires forall i :: 0 <= i < |s.j.steers| ==> s.j.steers[i].event != e
    ensures LaterOk(t)
  {
    forall i, k | !t.closing && Open(t.j, i) && !UnderWay(t, i) && UnderWay(t, k) && SameConv(t.j, i, k)
      ensures k < i
    {
      FollowWay(s, t, r, e, prompt, i);
      FollowWay(s, t, r, e, prompt, k);
      if i < |s.j.steers| && k == |s.j.steers| {
        FollowLine(s, t, r, e, prompt, r);
        FollowNew(s, t, r, e, prompt);
        assert GetsThrough(s, r);
      }
    }
  }

  /** The new follow-up is under way only if its run's worker will get it. */
  lemma FollowNew(s: Sys, t: Sys, r: RunId, e: EventId, prompt: string)
    requires Follows(s, t, r, e, prompt) && UnderWay(t, |s.j.steers|)
    ensures (Alive(s.links, r) && !s.j.runs[r].status.Cancelling?) || e in s.handed || e in Line(s, r)
  {
    FollowLine(s, t, r, e, prompt, r);
  }

  lemma FollowKept(cfg: Config, s: Sys, t: Sys, r: RunId, e: EventId, prompt: string)
    requires LifeOk(cfg, s.j) && LinksOk(cfg, s.j, s.links) && KeptOk(s) && Follows(s, t, r, e, prompt) && t.closing == s.closing
    requires forall i :: 0 <= i < |s.j.steers| ==> s.j.steers[i].event != e
    ensures KeptOk(t)
  {
    forall o: RunId, i | !t.closing && GetsThrough(t, o) && Open(t.j, i) && t.j.runs[t.j.steers[i].run].conv == t.j.runs[o].conv
      ensures UnderWay(t, i)
    {
      FollowWay(s, t, r, e, prompt, i);
      assert Alive(s.links, o);
      assert GetsThrough(s, o);
      if i == |s.j.steers| {
        assert ActiveIn(s.j.runs, s.j.runs[o].conv, o) && ActiveIn(s.j.runs, s.j.runs[o].conv, r);
      }
    }
  }

  // ---------------------------------------------------------------- a new run

  /** A new run that takes over everything its conversation left behind. */
  ghost predicate BeginsAll(s: Sys, t: Sys, row: RunRow, input: EventId) {
    && Begins(s, t, row, input) && t.closing == s.closing && !s.closing
    && (forall i :: Open(t.j, i) ==> t.j.runs[t.j.steers[i].run].conv != row.conv)
    && t.todo == s.todo + [Start(|s.j.runs|)]
  }

  lemma BeginLine(cfg: Config, s: Sys, t: Sys, row: RunRow, input: EventId, o: RunId)
    requires LifeOk(cfg, s.j) && LinksOk(cfg, s.j, s.links) && Begins(s, t, row, input)
    ensures Line(t, o) == if o == |s.j.runs| then Carried(t.j, o) else Line(s, o)
  {
    NoTodoLine(s.todo, o);
    NoTodoLine(t.todo, o);
    if o != |s.j.runs| && IsRun(s.j.runs, o) && s.j.runs[o].status.Queued? { BeginCarried(cfg, s, t, row, input, o); }
  }

  lemma {:induction false} TakenOrdered(j: Journal, r: RunId, n: nat)
    requires n <= |j.steers|
    requires forall i, k :: 0 <= i < |j.steers| && 0 <= k < |j.steers| && j.steers[i].event == j.steers[k].event ==> i == k
    ensures Ordered(j, TakenEvents(j.steers[..n], r))
    ensures forall e :: e in TakenEvents(j.steers[..n], r) ==> exists i :: i < n && RowAt(j, i, e) && j.steers[i].run == r && j.steers[i].status.Taken?
  {
    if n > 0 {
      TakenOrdered(j, r, n - 1);
      assert j.steers[..n][..n - 1] == j.steers[..n - 1];
      var front, all := TakenEvents(j.steers[..n - 1], r), TakenEvents(j.steers[..n], r);
      forall p, q | 0 <= p < q < |all| ensures Precedes(j, all[p], all[q]) {
        if q < |front| {
          assert all[p] == front[p] && all[q] == front[q];
        } else {
          assert all[p] in front && all[q] == j.steers[n - 1].event;
          var i :| i < n - 1 && RowAt(j, i, all[p]);
          assert RowAt(j, n - 1, all[q]);
        }
      }
      forall e | e in all
        ensures exists i :: i < n && RowAt(j, i, e) && j.steers[i].run == r && j.steers[i].status.Taken?
      {
        if e in front {
          var i :| i < n - 1 && RowAt(j, i, e) && j.steers[i].run == r && j.steers[i].status.Taken?;
        } else {
          assert RowAt(j, n - 1, e);
        }
      }
    }
  }

  lemma LeftoverWaits(cfg: Config, s: Sys, k: int)
    requires SysOk(cfg, s) && Leftover(s.j, k)
    ensures Open(s.j, k) && !UnderWay(s, k)
  {
    LeftoverUnhanded(cfg, s, k);
    CountIn(s.handed, s.j.steers[k].event);
    assert s.j.steers[k].run !in s.links;
  }

  /** What a continuation carries comes after all its conversation has been handed. */
  lemma CarriedLater(cfg: Config, s: Sys, t: Sys, row: RunRow, input: EventId, x: EventId, y: EventId)
    requires SysOk(cfg, s) && LaterOk(s) && BeginsAll(s, t, row, input) && RowsStay(s.j, t.j)
    requires x in s.handed && y in TakenEvents(t.j.steers, |s.j.runs|)
    requires SteersOk(t.j.runs, t.j.inputs, t.j.steers)
    ensures Precedes(t.j, x, y)
  {
    assert t.j.steers[..|t.j.steers|] == t.j.steers;
    TakenOrdered(t.j, |s.j.runs|, |t.j.steers|);
    var k :| k < |t.j.steers| && RowAt(t.j, k, y) && t.j.steers[k].run == |s.j.runs|;
    assert IsRun(s.j.runs, s.j.steers[k].run);
    assert Leftover(s.j, k);
    LeftoverWaits(cfg, s, k);
    forall i, n | RowAt(t.j, i, x) && RowAt(t.j, n, y) && SameConv(t.j, i, n) ensures i < n {
      assert n == k;
      assert UnderWay(s, i) && SameConv(s.j, i, k);
      assert SameConv(s.j, k, i);
    }
  }

  /** A new run's input, if it is a follow-up at all, is one the run takes over. */
  lemma InputTaken(cfg: Config, s: Sys, t: Sys, row: RunRow, input: EventId)
    requires Begins(s, t, row, input) && LifeOk(cfg, s.j)
    ensures (exists n :: RowAt(t.j, n, input)) ==> HasTaken(t.j.steers, |s.j.runs|, input)
  {
    if n :| RowAt(t.j, n, input) {
      assert s.j.steers[n].event == input;
      var i :| Leftover(s.j, i) && s.j.steers[i].event == input && t.j.steers[i].run == |s.j.runs|;
      assert IsRun(s.j.runs, s.j.steers[i].run);
      assert t.j.steers[i].status.Taken?;
    }
  }

  lemma BeginInput(cfg: Config, s: Sys, t: Sys, row: RunRow, input: EventId, x: EventId)
    requires Begins(s, t, row, input) && LifeOk(cfg, s.j) && LifeOk(cfg, t.j) && input !in TakenEvents(t.j.steers, |s.j.runs|)
    ensures Precedes(t.j, x, input)
  {
    TakenCount(t.j.steers, |s.j.runs|, input);
    CountIn(TakenEvents(t.j.steers, |s.j.runs|), input);
    InputTaken(cfg, s, t, row, input);
  }

  lemma OrderedJoin(j: Journal, a: seq<EventId>, b: seq<EventId>)
    requires Ordered(j, a) && Ordered(j, b) && forall x, y :: x in a && y in b ==> Precedes(j, x, y)
    ensures Ordered(j, a + b)
  {
    var all := a + b;
    forall p, q | 0 <= p < q < |all| ensures Precedes(j, all[p], all[q]) {
      if q < |a| {
        assert all[p] == a[p] && all[q] == a[q];
      } else if p < |a| {
        assert all[p] in a && all[q] in b;
      } else {
        assert all[p] == b[p - |a|] && all[q] == b[q - |a|];
      }
    }
  }

  lemma OrderedOne(j: Journal, e: EventId)
    ensures Ordered(j, [e])
  {}

  lemma CarriedOrdered(cfg: Config, s: Sys, t: Sys, row: RunRow, input: EventId)
    requires Begins(s, t, row, input) && LifeOk(cfg, s.j) && LifeOk(cfg, t.j)
    ensures Ordered(t.j, Carried(t.j, |s.j.runs|))
  {
    var rows := TakenEvents(t.j.steers, |s.j.runs|);
    assert t.j.steers[..|t.j.steers|] == t.j.steers;
    TakenOrdered(t.j, |s.j.runs|, |t.j.steers|);
    if input !in rows {
      forall x ensures Precedes(t.j, x, input) { BeginInput(cfg, s, t, row, input, x); }
      OrderedBefore(t.j, rows, input);
    } else {
      assert rows + [] == rows;
    }
  }

  lemma OrderedBefore(j: Journal, events: seq<EventId>, last: EventId)
    requires Ordered(j, events) && forall x :: Precedes(j, x, last)
    ensures Ordered(j, events + [last])
  {
    OrderedOne(j, last);
    OrderedJoin(j, events, [last]);
  }

  lemma BeginCarriedLine(cfg: Config, s: Sys, t: Sys, row: RunRow, input: EventId)
    requires SysOk(cfg, s) && LinesOk(s) && LaterOk(s) && BeginsAll(s, t, row, input) && RowsStay(s.j, t.j) && LifeOk(cfg, t.j)
    requires cfg.steering.AfterTurn?
    ensures Ordered(t.j, s.handed + Carried(t.j, |s.j.runs|))
  {
    var id := |s.j.runs|;
    HandedOrdered(cfg, s, t.j, id);
    CarriedOrdered(cfg, s, t, row, input);
    forall x, y | x in s.handed && y in Carried(t.j, id) ensures Precedes(t.j, x, y) {
      if y in TakenEvents(t.j.steers, id) {
        CarriedLater(cfg, s, t, row, input, x, y);
      } else {
        BeginInput(cfg, s, t, row, input, x);
      }
    }
    OrderedJoin(t.j, s.handed, Carried(t.j, id));
  }

  lemma HandedOrdered(cfg: Config, s: Sys, k: Journal, r: RunId)
    requires LinksOk(cfg, s.j, s.links) && OnItsWayOk(s) && HandedOk(s.j, s.handed) && cfg.steering.AfterTurn?
    requires LinesOk(s) && RowsStay(s.j, k) && FreshRows(s.j, k)
    ensures Ordered(k, s.handed)
  {
    var line := Line(s, r);
    assert line == [] + line + [];
    LineStays(cfg, s, k, r, [], line, []);
    assert s.handed + ([] + []) == s.handed;
  }

  lemma BeginLines(cfg: Config, s: Sys, t: Sys, row: RunRow, input: EventId)
    requires SysOk(cfg, s) && LinesOk(s) && LaterOk(s) && BeginsAll(s, t, row, input) && RowsStay(s.j, t.j) && LifeOk(cfg, t.j)
    requires cfg.steering.AfterTurn?
    ensures LinesOk(t)
  {
    forall o: RunId ensures Ordered(t.j, t.handed + Line(t, o)) {
      BeginLine(cfg, s, t, row, input, o);
      if o == |s.j.runs| {
        BeginCarriedLine(cfg, s, t, row, input);
      } else {
        var line := Line(s, o);
        assert line == line + [] + [] && line + [] == line;
        LineStays(cfg, s, t.j, o, line, [], []);
      }
    }
  }

  lemma BeginRow(cfg: Config, s: Sys, t: Sys, row: RunRow, input: EventId, i: int)
    requires SysOk(cfg, s) && BeginsAll(s, t, row, input)
    ensures Open(t.j, i) ==> Open(s.j, i) && (UnderWay(t, i) <==> UnderWay(s, i)) && t.j.steers[i] == s.j.steers[i]
                             && t.j.runs[t.j.steers[i].run].conv == s.j.runs[s.j.steers[i].run].conv
    ensures UnderWay(t, i) && t.j.steers[i].run != |s.j.runs| ==> UnderWay(s, i)
    ensures UnderWay(t, i) && t.j.steers[i].run == |s.j.runs| ==> t.j.runs[|s.j.runs|].conv == row.conv
  {
    if 0 <= i < |s.j.steers| {
      assert IsRun(s.j.runs, s.j.steers[i].run);
      BeginLine(cfg, s, t, row, input, t.j.steers[i].run);
    }
  }

  lemma BeginLater(cfg: Config, s: Sys, t: Sys, row: RunRow, input: EventId)
    requires SysOk(cfg, s) && LaterOk(s) && BeginsAll(s, t, row, input) && RowsStay(s.j, t.j)
    ensures LaterOk(t)
  {
    forall i, k | Open(t.j, i) && !UnderWay(t, i) && UnderWay(t, k) && SameConv(t.j, i, k)
      ensures k < i
    {
      BeginRow(cfg, s, t, row, input, i);
      BeginRow(cfg, s, t, row, input, k);
      assert SameConv(s.j, i, k);
    }
  }

  lemma BeginKept(cfg: Config, s: Sys, t: Sys, row: RunRow, input: EventId)
    requires SysOk(cfg, s) && KeptOk(s) && BeginsAll(s, t, row, input)
    ensures KeptOk(t)
  {
    forall o: RunId, i | GetsThrough(t, o) && Open(t.j, i) && t.j.runs[t.j.steers[i].run].conv == t.j.runs[o].conv
      ensures UnderWay(t, i)
    {
      BeginRow(cfg, s, t, row, input, i);
      assert o != |s.j.runs|;
      if n :| 0 <= n < |t.todo| && t.todo[n] == Start(o) { assert s.todo[n] == Start(o); }
      assert GetsThrough(s, o);
    }
  }

  lemma BeginStops(cfg: Config, s: Sys, t: Sys, row: RunRow, input: EventId)
    requires StopsOk(s) && BeginsAll(s, t, row, input)
    ensures StopsOk(t)
  {
    forall n | 0 <= n < |t.todo| && t.todo[n].Cancel? ensures t.todo[n] in s.todo {
      assert t.todo[n] == s.todo[n];
    }
  }

  lemma BeginOrder(cfg: Config, s: Sys, t: Sys, row: RunRow, input: EventId)
    requires SysOk(cfg, s) && OrderOk(s) && BeginsAll(s, t, row, input) && RowsStay(s.j, t.j) && LifeOk(cfg, t.j) && cfg.steering.AfterTurn?
    ensures OrderOk(t)
  {
    BeginLines(cfg, s, t, row, input);
    BeginLater(cfg, s, t, row, input);
    BeginKept(cfg, s, t, row, input);
    BeginStops(cfg, s, t, row, input);
  }

  // ---------------------------------------------------------------- a worker's pass

  /** Some middle part of a list has been left out. */
  ghost predicate Skips(before: seq<EventId>, after: seq<EventId>) {
    exists a, b, c :: before == a + b + c && after == a + c
  }

  lemma SkipsSo(a: seq<EventId>, b: seq<EventId>, c: seq<EventId>)
    ensures Skips(a + b + c, a + c)
  {}

  /** A pass hands over the front of its line, or gives part of it up because the run is stopped. */
  ghost predicate LineMoves(before: seq<EventId>, handed: seq<EventId>, after: seq<EventId>, stopped: bool) {
    before == handed + after || (handed == [] && stopped && Skips(before, after))
  }

  lemma {:induction false} KeepLine(w: Worker, queue: seq<Command>, event: EventId, prompt: string)
    requires w.phase.Turning? && w.strategy.AfterTurn? && queue != [] && queue[0] == SteerRun(event, prompt)
    ensures var out := SteerNow(w, event, prompt);
            && HandedIn(out.acts) == [] && out.worker.phase.Turning?
            && WorkerLine(out.worker) + QueueLine(queue[1..]) == WorkerLine(w) + QueueLine(queue)
  {
    KeepForLater(w, event, prompt, event);
    NotesOne(w.steering, Note(event, prompt));
    assert Notes(w.steering) + [event] + QueueLine(queue[1..]) == Notes(w.steering) + ([event] + QueueLine(queue[1..]));
    FewHanded([]);
  }

  lemma NotesOne(notes: seq<Note>, n: Note)
    ensures Notes(notes + [n]) == Notes(notes) + [n.event]
  {}

  lemma ReadLine(w: Worker, queue: seq<Command>, input: Input)
    requires Enabled(w, input) && input.Read? && Reads(queue, input) && w.strategy.AfterTurn?
    ensures var out := Arm(w, input);
            LineMoves(WorkerLine(w) + QueueLine(queue), HandedIn(out.acts), WorkerLine(out.worker) + QueueLine(Rest(queue, input)), out.worker.stopping)
  {
    var out := Arm(w, input);
    var before, rest := WorkerLine(w) + QueueLine(queue), QueueLine(Rest(queue, input));
    if ReadsSteer(w, input) {
      KeepLine(w, queue, input.command.value.event, input.command.value.prompt);
      assert before == [] + (WorkerLine(out.worker) + rest);
    } else {
      var read := if input.command.Some? && input.command.value.SteerRun? then [input.command.value.event] else [];
      ReadFacts(w, input);
      StopsWhen(w, input);
      PassedOver(w, queue, input, read);
      LineSkips(WorkerLine(w), read, rest, WorkerLine(out.worker), out.worker.stopping);
    }
  }

  /** A command that is no follow-up taken in leaves the worker's line alone, or ends it. */
  lemma PassedOver(w: Worker, queue: seq<Command>, input: Input, read: seq<EventId>)
    requires Enabled(w, input) && input.Read? && Reads(queue, input) && !ReadsSteer(w, input)
    requires read == if input.command.Some? && input.command.value.SteerRun? then [input.command.value.event] else []
    ensures QueueLine(queue) == read + QueueLine(Rest(queue, input))
    ensures var v := Arm(w, input).worker; WorkerLine(v) == WorkerLine(w) || WorkerLine(v) == []
  {}

  lemma LineSkips(line: seq<EventId>, read: seq<EventId>, rest: seq<EventId>, after: seq<EventId>, stopping: bool)
    requires after == line || after == []
    requires (read != [] || after != line) ==> stopping
    ensures LineMoves(line + (read + rest), [], after + rest, stopping)
  {
    var before := line + (read + rest);
    if after == line {
      assert before == line + read + rest;
      SkipsSo(line, read, rest);
      if read == [] { assert before == [] + (after + rest); }
    } else {
      assert before == [] + (line + read) + rest;
      SkipsSo([], line + read, rest);
    }
  }

  /** A follow-up is not kept, and kept ones are given up, only when the run is being stopped. */
  lemma StopsWhen(w: Worker, input: Input)
    requires Enabled(w, input) && input.Read? && !ReadsSteer(w, input)
    ensures var out := Arm(w, input);
            && (input.command.Some? && input.command.value.SteerRun? ==> out.worker.stopping)
            && (out.worker.steering != w.steering ==> out.worker.stopping)
            && (out.worker.stopping <==> w.stopping || input == Read(None) || input == Read(Some(CancelRun)))
  {}

  lemma ArmLine(w: Worker, queue: seq<Command>, input: Input)
    requires Enabled(w, input) && !input.Break? && Reads(queue, input) && WorkerOk(w) && w.strategy.AfterTurn?
    ensures var out := Arm(w, input);
            !out.worker.phase.Over? ==>
              LineMoves(WorkerLine(w) + QueueLine(queue), ArmHands(w, input), WorkerLine(out.worker) + QueueLine(Rest(queue, input)), out.worker.stopping)
  {
    if input.Read? {
      ReadLine(w, queue, input);
    } else {
      var out := Arm(w, input);
      FewHanded(out.acts);
      if input.Begin? {
        assert WorkerLine(w) == w.carried + [] && WorkerLine(out.worker) == [];
        assert WorkerLine(w) + QueueLine(queue) == w.carried + ([] + QueueLine(queue));
      } else if !out.worker.phase.Over? {
        assert WorkerLine(out.worker) == WorkerLine(w);
        assert WorkerLine(w) + QueueLine(queue) == [] + (WorkerLine(w) + QueueLine(queue));
      }
    }
  }

  /** The check at the top either hands over what was kept for after the turn, or leaves the follow-ups alone. */
  lemma TopHands(w: Worker)
    requires w.phase.Turning? && !Top(w).worker.phase.Over?
    ensures var out := Top(w);
            && out.worker.stopping == w.stopping && out.worker.phase.Turning?
            && ( || (out.worker.steering == w.steering && out.acts == [])
                 || (out.worker.steering == w.steering && out.acts == [BeginDrain])
                 || (out.worker.steering == [] && !w.stopping && |out.acts| == 1 && HandedAs(out.acts[0]) == Notes(w.steering)) )
  {}

  lemma {:induction false} TopLine(w: Worker, rest: seq<EventId>)
    requires w.phase.Turning? && !Top(w).worker.phase.Over?
    ensures var out := Top(w);
            && WorkerLine(w) + rest == HandedIn(out.acts) + (WorkerLine(out.worker) + rest)
            && (w.stopping ==> HandedIn(out.acts) == [])
            && out.worker.stopping == w.stopping
  {
    TopHands(w);
    FewHanded(Top(w).acts);
    var handed, line := HandedIn(Top(w).acts), WorkerLine(Top(w).worker);
    assert WorkerLine(w) == Notes(w.steering);
    if handed == [] {
      assert [] + (line + rest) == line + rest;
    } else {
      assert handed == Notes(w.steering) && line == [] && [] + rest == rest;
    }
  }

  lemma StepLine(w: Worker, queue: seq<Command>, input: Input)
    requires Enabled(w, input) && Reads(queue, input) && WorkerOk(w) && w.strategy.AfterTurn?
    ensures var out := TurnLoop.Step(w, input);
            if out.worker.phase.Over? then HandedBy(w, input) == []
            else LineMoves(WorkerLine(w) + QueueLine(queue), HandedBy(w, input), WorkerLine(out.worker) + QueueLine(Rest(queue, input)), out.worker.stopping)
  {
    var out := TurnLoop.Step(w, input);
    if out.worker.phase.Over? {
      StepConserves(w, queue, input, EventId(""));
    } else {
      var v := Arm(w, input).worker;
      ArmLine(w, queue, input);
      TopLine(v, QueueLine(Rest(queue, input)));
      if ArmHands(w, input) != [] { HandsGoOn(w, input); FewHanded([]); }
      LinesCompose(w, queue, input, v, out);
    }
  }

  lemma LinesCompose(w: Worker, queue: seq<Command>, input: Input, v: Worker, out: Out)
    requires Enabled(w, input) && Reads(queue, input) && !input.Break? && v == Arm(w, input).worker && out.worker == Top(v).worker
    requires !out.worker.phase.Over? && v.phase.Turning?
    requires var rest := QueueLine(Rest(queue, input));
             && LineMoves(WorkerLine(w) + QueueLine(queue), ArmHands(w, input), WorkerLine(v) + rest, v.stopping)
             && WorkerLine(v) + rest == HandedIn(Top(v).acts) + (WorkerLine(out.worker) + rest)
             && (v.stopping ==> HandedIn(Top(v).acts) == []) && out.worker.stopping == v.stopping
    requires ArmHands(w, input) != [] ==> HandedIn(Top(v).acts) == []
    ensures LineMoves(WorkerLine(w) + QueueLine(queue), HandedBy(w, input), WorkerLine(out.worker) + QueueLine(Rest(queue, input)), out.worker.stopping)
  {
    LinesJoin(WorkerLine(w) + QueueLine(queue), ArmHands(w, input), WorkerLine(v) + QueueLine(Rest(queue, input)),
              HandedIn(Top(v).acts), WorkerLine(out.worker) + QueueLine(Rest(queue, input)), v.stopping);
  }

  lemma LinesJoin(before: seq<EventId>, g: seq<EventId>, middle: seq<EventId>, h: seq<EventId>, after: seq<EventId>, stopped: bool)
    requires LineMoves(before, g, middle, stopped) && middle == h + after && (stopped ==> h == [])
    ensures LineMoves(before, g + h, after, stopped)
  {
    if before == g + middle {
      assert g + (h + after) == (g + h) + after;
    } else {
      assert [] + after == after && g + h == [];
    }
  }

  /** A pass of one worker as seen from its line. */
  ghost predicate LinePass(s: Sys, t: Sys, r: RunId, handed: seq<EventId>, after: seq<EventId>) {
    && Alive(s.links, r) && t.j == s.j && t.todo == s.todo && t.closing == s.closing
    && t.handed == s.handed + handed
    && Line(t, r) == after
    && (forall o: RunId :: o != r ==> Line(t, o) == Line(s, o) && (Alive(t.links, o) <==> Alive(s.links, o)))
    && (if Alive(t.links, r) then LineMoves(Line(s, r), handed, after, t.links[r].worker.stopping) else handed == [] && after == [])
  }

  lemma PassLine(cfg: Config, s: Sys, t: Sys, r: RunId, input: Input, out: Out)
    requires LinksOk(cfg, s.j, s.links) && Passes(s, t, r, input, out) && t.closing == s.closing && cfg.steering.AfterTurn?
    ensures LinePass(s, t, r, HandedBy(s.links[r].worker, input), Line(t, r))
  {
    var w, queue := s.links[r].worker, s.links[r].queue;
    StepLine(w, queue, input);
    if Alive(t.links, r) {
      var before, after := WorkerLine(w) + QueueLine(queue), WorkerLine(out.worker) + QueueLine(Rest(queue, input));
      TodoBehind(before, HandedBy(w, input), after, out.worker.stopping, TodoLine(s.todo, r));
    }
  }

  lemma TodoBehind(before: seq<EventId>, handed: seq<EventId>, after: seq<EventId>, stopped: bool, todo: seq<EventId>)
    requires LineMoves(before, handed, after, stopped)
    ensures LineMoves(before + todo, handed, after + todo, stopped)
  {
    if before == handed + after {
      assert (handed + after) + todo == handed + (after + todo);
    } else {
      var a, b, c :| before == a + b + c && after == a + c;
      SkipsSo(a, b, c + todo);
      assert a + b + (c + todo) == before + todo && a + (c + todo) == after + todo;
    }
  }

  lemma PassLines(cfg: Config, s: Sys, t: Sys, r: RunId, handed: seq<EventId>, after: seq<EventId>)
    requires SysOk(cfg, s) && LinesOk(s) && LinePass(s, t, r, handed, after) && cfg.steering.AfterTurn?
    ensures LinesOk(t)
  {
    HandedFirst(cfg, s, t, r, handed, after);
    forall o: RunId ensures Ordered(t.j, t.handed + Line(t, o)) {
      if o != r { OthersInOrder(cfg, s, t, r, handed, after, o); }
    }
  }

  /** The worker's own line, before and after. */
  lemma HandedFirst(cfg: Config, s: Sys, t: Sys, r: RunId, handed: seq<EventId>, after: seq<EventId>)
    requires LinksOk(cfg, s.j, s.links) && OnItsWayOk(s) && HandedOk(s.j, s.handed) && cfg.steering.AfterTurn?
    requires LinesOk(s) && LinePass(s, t, r, handed, after)
    ensures Ordered(t.j, t.handed + after) && Ordered(t.j, t.handed)
    ensures forall e :: e in handed || e in after ==> e in Line(s, r)
  {
    FrontOrdered(s.j, s.handed, Line(s, r), handed, after);
    HandedPrefix(t.j, t.handed, after);
  }

  /** What is handed over and what is left of a line are in order, if the line was. */
  lemma FrontOrdered(j: Journal, done: seq<EventId>, line: seq<EventId>, handed: seq<EventId>, after: seq<EventId>)
    requires Ordered(j, done + line)
    requires (exists stopped :: LineMoves(line, handed, after, stopped)) || (handed == [] && after == [])
    ensures Ordered(j, (done + handed) + after)
    ensures forall e :: e in handed || e in after ==> e in line
  {
    if line == handed + after {
      assert done + line == (done + handed) + after;
    } else {
      if handed == [] && after == [] { SkipsAll(line); }
      assert handed == [] && Skips(line, after);
      var a, b, c :| line == a + b + c && after == a + c;
      Dropped3(j, done, a, b, c);
      assert (done + []) + (a + c) == done + (a + c);
    }
  }

  lemma SkipsAll(line: seq<EventId>)
    ensures Skips(line, [])
  {
    SkipsSo([], line, []);
    assert line == [] + line + [];
  }

  lemma HandedPrefix(j: Journal, handed: seq<EventId>, after: seq<EventId>)
    requires Ordered(j, handed + after)
    ensures Ordered(j, handed)
  {
    assert handed + after == handed + after + [] && handed + [] == handed;
    OrderedWithout(j, handed, after, []);
  }

  /** Runs with something on its way are in different conversations. */
  lemma OtherConv(cfg: Config, s: Sys, r: RunId, o: RunId, x: EventId, y: EventId)
    requires SysOk(cfg, s) && cfg.steering.AfterTurn? && o != r && x in Line(s, r) && y in Line(s, o)
    ensures Precedes(s.j, x, y)
  {
    LineKnown(cfg, s, r);
    LineKnown(cfg, s, o);
    LineActive(cfg, s, r, x);
    LineActive(cfg, s, o, y);
    forall i, k | RowAt(s.j, i, x) && RowAt(s.j, k, y) ensures !SameConv(s.j, i, k) {
      assert Mine(s.j, s.j.steers[i].run, x) && Mine(s.j, s.j.steers[k].run, y);
      OneOwner(s.j, s.j.steers[i].run, r, x);
      OneOwner(s.j, s.j.steers[k].run, o, y);
      assert ActiveIn(s.j.runs, s.j.runs[r].conv, r) && ActiveIn(s.j.runs, s.j.runs[o].conv, o);
    }
  }

  lemma LineActive(cfg: Config, s: Sys, r: RunId, e: EventId)
    requires LinksOk(cfg, s.j, s.links) && e in Line(s, r)
    ensures IsRun(s.j.runs, r) && s.j.runs[r].status.Active()
  {}

  lemma OthersInOrder(cfg: Config, s: Sys, t: Sys, r: RunId, handed: seq<EventId>, after: seq<EventId>, o: RunId)
    requires SysOk(cfg, s) && LinesOk(s) && LinePass(s, t, r, handed, after) && cfg.steering.AfterTurn? && o != r
    requires Ordered(t.j, t.handed) && forall e :: e in handed ==> e in Line(s, r)
    ensures Ordered(t.j, t.handed + Line(t, o))
  {
    var line := Line(s, o);
    SuffixOrdered(s.j, s.handed, line);
    forall x, y | x in t.handed && y in line ensures Precedes(t.j, x, y) {
      if x in s.handed { AcrossOrdered(s.j, s.handed, line, x, y); } else { OtherConv(cfg, s, r, o, x, y); }
    }
    OrderedJoin(t.j, t.handed, line);
  }

  lemma SuffixOrdered(j: Journal, a: seq<EventId>, b: seq<EventId>)
    requires Ordered(j, a + b)
    ensures Ordered(j, b)
  {
    assert a + b == [] + a + b && [] + b == b;
    OrderedWithout(j, [], a, b);
  }

  lemma AcrossOrdered(j: Journal, a: seq<EventId>, b: seq<EventId>, x: EventId, y: EventId)
    requires Ordered(j, a + b) && x in a && y in b
    ensures Precedes(j, x, y)
  {
    var p :| 0 <= p < |a| && a[p] == x;
    var q :| 0 <= q < |b| && b[q] == y;
    assert (a + b)[p] == x && (a + b)[|a| + q] == y;
  }

  /** A follow-up that leaves the line without being handed over is no longer pending, unless its run has ended. */
  lemma GivenUp(cfg: Config, s: Sys, t: Sys, r: RunId, handed: seq<EventId>, after: seq<EventId>, i: int)
    requires SysOk(cfg, s) && LinePass(s, t, r, handed, after) && cfg.steering.AfterTurn?
    requires Alive(t.links, r) && t.links[r].worker.stopping ==> IsRun(s.j.runs, r) && s.j.runs[r].status.Cancelling?
    requires Open(s.j, i) && UnderWay(s, i) && !UnderWay(t, i)
    ensures s.j.steers[i].run == r && s.j.steers[i].event in Line(s, r) && !Alive(t.links, r)
  {
    var e := s.j.steers[i].event;
    assert e in Line(s, s.j.steers[i].run);
    PendingStopped(cfg, s, i);
  }

  /** Nothing pending of a run being cancelled is in its line. */
  lemma PendingStopped(cfg: Config, s: Sys, i: int)
    requires SysOk(cfg, s) && cfg.steering.AfterTurn? && PendingRow(s.j, i)
    ensures IsRun(s.j.runs, s.j.steers[i].run) && s.j.runs[s.j.steers[i].run].status.Cancelling? ==>
              s.j.steers[i].event !in Line(s, s.j.steers[i].run)
  {
    LineOnItsWay(cfg, s, s.j.steers[i].run, s.j.steers[i].event);
  }

  lemma PassLater(cfg: Config, s: Sys, t: Sys, r: RunId, handed: seq<EventId>, after: seq<EventId>)
    requires SysOk(cfg, s) && LinesOk(s) && LaterOk(s) && LinePass(s, t, r, handed, after) && cfg.steering.AfterTurn?
    requires !s.closing && Alive(t.links, r) && t.links[r].worker.stopping ==> IsRun(s.j.runs, r) && s.j.runs[r].status.Cancelling?
    ensures LaterOk(t)
  {
    HandedFirst(cfg, s, t, r, handed, after);
    LineKnown(cfg, s, r);
    forall i, k | !t.closing && Open(t.j, i) && !UnderWay(t, i) && UnderWay(t, k) && SameConv(t.j, i, k)
      ensures k < i
    {
      WasUnderWay(cfg, s, t, r, handed, after, k);
      if UnderWay(s, i) {
        GivenUp(cfg, s, t, r, handed, after, i);
        GoneLater(cfg, s, t, r, handed, after, i, k);
      }
    }
  }

  lemma WasUnderWay(cfg: Config, s: Sys, t: Sys, r: RunId, handed: seq<EventId>, after: seq<EventId>, k: int)
    requires SysOk(cfg, s) && LinePass(s, t, r, handed, after) && UnderWay(t, k)
    requires forall e :: e in handed || e in after ==> e in Line(s, r) && Mine(s.j, r, e)
    ensures UnderWay(s, k)
  {
    var e := s.j.steers[k].event;
    if e in handed {
      assert Mine(s.j, s.j.steers[k].run, e);
      OneOwner(s.j, s.j.steers[k].run, r, e);
    }
  }

  /** When a worker ends, its conversation has no line left. */
  lemma NoLineLeft(cfg: Config, s: Sys, t: Sys, r: RunId, handed: seq<EventId>, after: seq<EventId>, o: RunId)
    requires LifeOk(cfg, s.j) && LinksOk(cfg, s.j, s.links) && LinePass(s, t, r, handed, after) && !Alive(t.links, r)
    requires IsRun(s.j.runs, r) && IsRun(s.j.runs, o) && s.j.runs[r].conv == s.j.runs[o].conv
    ensures Line(t, o) == []
  {
    if o != r {
      assert ActiveIn(s.j.runs, s.j.runs[r].conv, r);
      assert !ActiveIn(s.j.runs, s.j.runs[r].conv, o);
      assert !Alive(s.links, o);
    }
  }

  /** When a worker ends, what it still held arrived after everything handed over. */
  lemma GoneLater(cfg: Config, s: Sys, t: Sys, r: RunId, handed: seq<EventId>, after: seq<EventId>, i: int, k: int)
    requires SysOk(cfg, s) && LinesOk(s) && LinePass(s, t, r, handed, after) && !Alive(t.links, r) && cfg.steering.AfterTurn?
    requires Open(s.j, i) && s.j.steers[i].run == r && s.j.steers[i].event in Line(s, r)
    requires UnderWay(t, k) && SameConv(s.j, i, k)
    ensures k < i
  {
    var x, y := s.j.steers[k].event, s.j.steers[i].event;
    NoLineLeft(cfg, s, t, r, handed, after, s.j.steers[k].run);
    assert t.handed == s.handed;
    assert x in s.handed;
    AcrossOrdered(s.j, s.handed, Line(s, r), x, y);
    assert RowAt(s.j, k, x) && RowAt(s.j, i, y) && SameConv(s.j, k, i);
  }

  lemma PassKept(cfg: Config, s: Sys, t: Sys, r: RunId, handed: seq<EventId>, after: seq<EventId>)
    requires SysOk(cfg, s) && KeptOk(s) && LinePass(s, t, r, handed, after) && cfg.steering.AfterTurn?
    requires !s.closing && Alive(t.links, r) && t.links[r].worker.stopping ==> IsRun(s.j.runs, r) && s.j.runs[r].status.Cancelling?
    ensures KeptOk(t)
  {
    forall o: RunId, i | !t.closing && GetsThrough(t, o) && Open(t.j, i) && t.j.runs[t.j.steers[i].run].conv == t.j.runs[o].conv
      ensures UnderWay(t, i)
    {
      assert GetsThrough(s, o);
      if !UnderWay(t, i) {
        GivenUp(cfg, s, t, r, handed, after, i);
        LineActive(cfg, s, r, s.j.steers[i].event);
        assert ActiveIn(s.j.runs, s.j.runs[r].conv, r) && ActiveIn(s.j.runs, s.j.runs[r].conv, o);
      }
    }
  }

  lemma PassStops(cfg: Config, s: Sys, t: Sys, r: RunId, input: Input, out: Out)
    requires LinksOk(cfg, s.j, s.links) && StopsOk(s) && Passes(s, t, r, input, out) && t.closing == s.closing
    requires input == Read(None) ==> s.closing
    ensures StopsOk(t)
    ensures !s.closing && Alive(t.links, r) && t.links[r].worker.stopping ==> IsRun(s.j.runs, r) && s.j.runs[r].status.Cancelling?
  {
    var w, queue := s.links[r].worker, s.links[r].queue;
    StepStops(w, input);
    if input == Read(Some(CancelRun)) { assert queue[0].CancelRun?; }
    if HasCancel(Rest(queue, input)) {
      var n :| 0 <= n < |Rest(queue, input)| && Rest(queue, input)[n].CancelRun?;
      assert queue[if |Rest(queue, input)| < |queue| then n + 1 else n].CancelRun?;
    }
  }

  lemma StepStops(w: Worker, input: Input)
    requires Enabled(w, input)
    ensures var out := TurnLoop.Step(w, input);
            out.worker.stopping ==> w.stopping || input == Read(None) || input == Read(Some(CancelRun))
  {
    if !input.Break? {
      TurnSafety.ArmStops(w, input);
      TurnSafety.TopFacts(Arm(w, input).worker);
    }
  }

  lemma PassOrder(cfg: Config, s: Sys, t: Sys, r: RunId, input: Input, out: Out)
    requires SysOk(cfg, s) && OrderOk(s) && cfg.steering.AfterTurn? && Passes(s, t, r, input, out) && t.closing == s.closing
    requires input == Read(None) ==> s.closing
    ensures OrderOk(t)
  {
    var handed := HandedBy(s.links[r].worker, input);
    PassLine(cfg, s, t, r, input, out);
    PassStops(cfg, s, t, r, input, out);
    PassLines(cfg, s, t, r, handed, Line(t, r));
    PassLater(cfg, s, t, r, handed, Line(t, r));
    PassKept(cfg, s, t, r, handed, Line(t, r));
  }

  // ---------------------------------------------------------------- every move

  /** Everything pending in the conversation of a run just opened belongs to runs that will not be continued. */
  lemma NothingOpen(j: Journal, conv: ConvKey)
    requires (forall r :: ActiveIn(j.runs, conv, r) ==> forall i :: PendingRow(j, i) ==> j.steers[i].run != r)
    requires forall i :: !LeftoverOf(j, conv, i)
    ensures forall i :: Open(j, i) ==> j.runs[j.steers[i].run].conv != conv
  {
    forall i | Open(j, i) ensures j.runs[j.steers[i].run].conv != conv {
      assert ActiveIn(j.runs, conv, j.steers[i].run) || LeftoverOf(j, conv, i) || j.runs[j.steers[i].run].conv != conv;
    }
  }

  lemma OpenOrder(cfg: Config, s: Sys, t: Sys, e: EventId, conv: ConvKey, prompt: string)
    requires SysOk(cfg, s) && OrderOk(s) && cfg.steering.AfterTurn? && RowsStay(s.j, t.j) && LifeOk(cfg, t.j)
    requires Opens(cfg, s.j, t.j, e, conv, prompt, t.todo) && (forall o :: !Mine(s.j, o, e)) && (forall i :: !Leftover(s.j, i))
    requires s.todo == [] && !s.closing && t.closing == s.closing && t.links == s.links && t.updates == s.updates && t.handed == s.handed
    ensures OrderOk(t)
  {
    OpenedAlone(cfg, s.j, t.j, e, conv, prompt, t.todo);
    OpenIsBegin(cfg, s, t, e, conv, prompt);
    BeginOrder(cfg, s, t, RunRow(conv, prompt, Queued), e);
  }

  lemma OpenIsBegin(cfg: Config, s: Sys, t: Sys, e: EventId, conv: ConvKey, prompt: string)
    requires Opens(cfg, s.j, t.j, e, conv, prompt, t.todo) && (forall o :: !Mine(s.j, o, e))
    requires s.todo == [] && t.links == s.links && t.updates == s.updates && t.handed == s.handed
    ensures Begins(s, t, RunRow(conv, prompt, Queued), e) && t.todo == s.todo + [Start(|s.j.runs|)]
  {
    forall i | 0 <= i < |s.j.steers| ensures s.j.steers[i].event != e {
      assert Mine(s.j, s.j.steers[i].run, s.j.steers[i].event);
    }
  }

  lemma OpenedAlone(cfg: Config, j: Journal, k: Journal, e: EventId, conv: ConvKey, prompt: string, effects: seq<Effect>)
    requires Opens(cfg, j, k, e, conv, prompt, effects) && forall i :: !Leftover(j, i)
    requires forall i :: 0 <= i < |j.steers| ==> IsRun(j.runs, j.steers[i].run)
    ensures forall i :: Open(k, i) ==> k.runs[k.steers[i].run].conv != conv
  {
    forall r, i | ActiveIn(k.runs, conv, r) && PendingRow(k, i) ensures k.steers[i].run != r {
      assert !ActiveIn(j.runs, conv, r);
    }
    forall i ensures !LeftoverOf(k, conv, i) {
      assert !Leftover(j, i);
    }
    NothingOpen(k, conv);
  }

  lemma MessageOrder(cfg: Config, s: Sys, t: Sys, e: EventId)
    requires SysOk(cfg, s) && OrderOk(s) && cfg.steering.AfterTurn? && RowsStay(s.j, t.j) && LifeOk(cfg, t.j)
    requires MessageEffect(cfg, s.j, t.j, e, t.todo) && (Soft(s.j, t.j) || forall i :: !Leftover(s.j, i))
    requires s.todo == [] && !s.closing && t.closing == s.closing && t.links == s.links && t.updates == s.updates && t.handed == s.handed
    ensures OrderOk(t)
  {
    if Soft(s.j, t.j) && Harmless(t.todo) && CancelsStopped(t.j, t.todo) {
      SoftOrder(cfg, s, t);
    } else {
      Unheard(cfg, s.j, e);
      if r, prompt :| FollowsUp(s.j, t.j, r, e, prompt, t.todo) {
        FollowOrder(cfg, s, t, r, e, prompt);
      } else {
        var conv, prompt :| Opens(cfg, s.j, t.j, e, conv, prompt, t.todo);
        OpenOrder(cfg, s, t, e, conv, prompt);
      }
    }
  }

  lemma ContinueOrder(cfg: Config, s: Sys, t: Sys, conv: ConvKey, l: nat)
    requires SysOk(cfg, s) && OrderOk(s) && cfg.steering.AfterTurn? && RowsStay(s.j, t.j) && LifeOk(cfg, t.j)
    requires NoneBehind(s.j) && Bounded(cfg, s.j)
    requires Continues(cfg, s.j, conv, l, t.j) && t.todo == s.todo + [Start(|s.j.runs|)] && NoSteers(s.todo)
    requires !s.closing && t.closing == s.closing && t.links == s.links && t.updates == s.updates && t.handed == s.handed
    ensures OrderOk(t)
  {
    ContinuedAlone(cfg, s.j, conv, l, t.j);
    ContinuesBegin(cfg, s, t, conv, l);
    BeginOrder(cfg, s, t, t.j.runs[|s.j.runs|], s.j.steers[l].event);
  }

  lemma ContinuesBegin(cfg: Config, s: Sys, t: Sys, conv: ConvKey, l: nat)
    requires LifeOk(cfg, s.j) && Continues(cfg, s.j, conv, l, t.j)
    requires t.links == s.links && t.updates == s.updates && t.handed == s.handed && NoSteers(t.todo) && NoSteers(s.todo)
    ensures Begins(s, t, t.j.runs[|s.j.runs|], s.j.steers[l].event)
  {
    assert Leftover(s.j, l) && t.j.steers[l].run == |s.j.runs|;
  }

  lemma ContinuedAlone(cfg: Config, j: Journal, conv: ConvKey, l: nat, k: Journal)
    requires LifeOk(cfg, j) && NoneBehind(j) && Bounded(cfg, j) && Continues(cfg, j, conv, l, k)
    ensures forall i :: Open(k, i) ==> k.runs[k.steers[i].run].conv != conv
  {
    ContinueNoBusier(cfg, j, conv, l, k);
    ContinueActive(cfg, j, conv, l, k);
    forall r, i | ActiveIn(k.runs, conv, r) && PendingRow(k, i) ensures k.steers[i].run != r {
      assert IsRun(j.runs, j.steers[i].run);
      assert !ActiveIn(j.runs, conv, r);
    }
    NothingOpen(k, conv);
  }

  lemma ResumeOneOrder(cfg: Config, s: Sys, t: Sys, conv: ConvKey)
    requires Inv(cfg, s.j) && SysOk(cfg, s) && OrderOk(s) && cfg.steering.AfterTurn?
    requires NoneBehind(s.j) && Bounded(cfg, s.j) && NoSteers(s.todo)
    requires t.j == ResumeOne(cfg, s.j, conv).journal && t.todo == s.todo + ResumeOne(cfg, s.j, conv).value
    requires !s.closing && t.closing == s.closing && t.links == s.links && t.updates == s.updates && t.handed == s.handed
    ensures OrderOk(t)
  {
    EventSteps.ResumeOneGood(cfg, s.j, conv);
    GrowsRows(cfg, s.j, t.j);
    ResumeOneShape(cfg, s.j, conv);
    ResumeOneOrdered(cfg, s, t, conv);
  }

  lemma ResumeOneOrdered(cfg: Config, s: Sys, t: Sys, conv: ConvKey)
    requires SysOk(cfg, s) && OrderOk(s) && cfg.steering.AfterTurn? && RowsStay(s.j, t.j) && LifeOk(cfg, t.j)
    requires NoneBehind(s.j) && Bounded(cfg, s.j) && NoSteers(s.todo)
    requires ResumeOne(cfg, s.j, conv).value == [] ==> t.j == s.j
    requires t.j == ResumeOne(cfg, s.j, conv).journal && t.todo == s.todo + ResumeOne(cfg, s.j, conv).value
    requires !s.closing && t.closing == s.closing && t.links == s.links && t.updates == s.updates && t.handed == s.handed
    ensures OrderOk(t)
  {
    if ResumeOne(cfg, s.j, conv).value == [] {
      SoftReflexive(s.j);
      SoftOrder(cfg, s, t);
    } else {
      var l := ResumeShape(cfg, s.j, conv);
      ContinueOrder(cfg, s, t, conv, l);
    }
  }

  lemma {:induction false} ResumeOrder(cfg: Config, s: Sys, t: Sys, convs: seq<ConvKey>)
    requires Inv(cfg, s.j) && SysOk(cfg, s) && OrderOk(s) && cfg.steering.AfterTurn? && s.todo == []
    requires NoneBehind(s.j) && Bounded(cfg, s.j) && AllBound(cfg, s.j)
    requires t.j == ResumeAll(cfg, s.j, convs).journal && t.todo == ResumeAll(cfg, s.j, convs).value
    requires !s.closing && t.closing == s.closing && t.links == s.links && t.updates == s.updates && t.handed == s.handed
    ensures OrderOk(t)
    decreases |convs|
  {
    if convs == [] {
      IdleOrder(cfg, s, t);
    } else {
      var front, conv := convs[..|convs| - 1], convs[|convs| - 1];
      var before := ResumeAll(cfg, s.j, front);
      var m := s.(j := before.journal, todo := before.value);
      ResumeOrder(cfg, s, m, front);
      ResumedSoFar(cfg, s, m, front);
      ResumeOneOrder(cfg, m, t, conv);
    }
  }

  lemma IdleOrder(cfg: Config, s: Sys, t: Sys)
    requires SysOk(cfg, s) && OrderOk(s) && cfg.steering.AfterTurn? && s.todo == []
    requires t.j == s.j && t.todo == [] && t.closing == s.closing && t.links == s.links && t.handed == s.handed
    ensures OrderOk(t)
  {
    GiveUpOrder(cfg, s, t);
  }

  lemma ResumedSoFar(cfg: Config, s: Sys, m: Sys, convs: seq<ConvKey>)
    requires Inv(cfg, s.j) && SysOk(cfg, s) && s.todo == [] && NoneBehind(s.j) && Bounded(cfg, s.j) && AllBound(cfg, s.j)
    requires m.j == ResumeAll(cfg, s.j, convs).journal && m.todo == ResumeAll(cfg, s.j, convs).value
    requires m.links == s.links && m.updates == s.updates && m.handed == s.handed
    ensures Inv(cfg, m.j) && SysOk(cfg, m) && NoSteers(m.todo) && NoneBehind(m.j) && Bounded(cfg, m.j)
  {
    ResumeMove(cfg, s, m, convs);
    EventSteps.ResumeAllGood(cfg, s.j, convs);
    ResumeAllCap(cfg, s.j, convs);
  }

  lemma GiveUpOrder(cfg: Config, s: Sys, t: Sys)
    requires SysOk(cfg, s) && OrderOk(s) && cfg.steering.AfterTurn? && NoSteers(s.todo)
    requires t.j == s.j && t.links == s.links && t.handed == s.handed && t.closing == s.closing && t.todo == []
    ensures OrderOk(t)
  {
    forall r: RunId ensures Line(t, r) == Line(s, r) { NoTodoLine(s.todo, r); }
    FewerCalmer(s, t);
    CalmerOrder(cfg, s, t);
    FewerStops(s, t);
  }

  lemma EndOrder(cfg: Config, s: Sys, t: Sys)
    requires SysOk(cfg, s) && OrderOk(s) && cfg.steering.AfterTurn? && RowsStay(s.j, t.j) && Cancels(s, t)
    ensures OrderOk(t)
  {
    if t.j == s.j && SameQueues(s, t) { DropOneOrder(cfg, s, t); } else { ConcludeOrder(cfg, s, t, s.todo[0].run, Interrupted); }
  }

  lemma DropOneOrder(cfg: Config, s: Sys, t: Sys)
    requires SysOk(cfg, s) && OrderOk(s) && cfg.steering.AfterTurn? && NoSteers(s.todo) && s.todo != [] && s.todo[0].Cancel?
    requires t.j == s.j && t.links == s.links && t.handed == s.handed && t.closing == s.closing && t.todo == s.todo[1..]
    ensures OrderOk(t)
  {
    forall r: RunId ensures Line(t, r) == Line(s, r) { NoTodoLine(s.todo, r); NoTodoLine(t.todo, r); }
    Fewer(s.todo);
    FewerCalmer(s, t);
    CalmerOrder(cfg, s, t);
    FewerStops(s, t);
  }

  /** The same lines, and nothing new to do. */
  lemma FewerCalmer(s: Sys, t: Sys)
    requires t.j == s.j && t.links == s.links && t.handed == s.handed && t.closing == s.closing && NoMore(s.todo, t.todo)
    requires forall r: RunId :: Line(t, r) == Line(s, r)
    ensures Calmer(s, t)
  {
    forall o: RunId | GetsThrough(t, o) ensures GetsThrough(s, o) {
      if n :| 0 <= n < |t.todo| && t.todo[n] == Start(o) { assert Start(o) in s.todo; }
    }
  }

  lemma FewerStops(s: Sys, t: Sys)
    requires StopsOk(s) && t.j == s.j && t.links == s.links && t.closing == s.closing && NoMore(s.todo, t.todo)
    ensures StopsOk(t)
  {
    forall n | 0 <= n < |t.todo| ensures t.todo[n] in s.todo {}
  }

  lemma RecordOrder(cfg: Config, s: Sys, t: Sys)
    requires SysOk(cfg, s) && OrderOk(s) && cfg.steering.AfterTurn? && RowsStay(s.j, t.j) && Records(s, t)
    ensures OrderOk(t)
  {
    if r, status :| Concludes(s, t, r, status) { ConcludeOrder(cfg, s, t, r, status); } else { NoteOrder(cfg, s, t); }
  }

  lemma SendOnOrder(cfg: Config, s: Sys, t: Sys)
    requires SysOk(cfg, s) && OrderOk(s) && cfg.steering.AfterTurn? && SendsOn(s, t)
    ensures OrderOk(t)
  {
    var r, c :| SendsTo(s, t, r, c);
    SendOrder(cfg, s, t, r, c);
  }

  lemma StartsOrder(cfg: Config, s: Sys, t: Sys)
    requires SysOk(cfg, s) && OrderOk(s) && cfg.steering.AfterTurn? && Starts(cfg, s, t)
    ensures OrderOk(t)
  {
    var r, spawned :| StartsRun(cfg, s, t, r, spawned);
    DispatchOrder(cfg, s, t, r, spawned);
  }

  lemma WorksOrder(cfg: Config, s: Sys, t: Sys)
    requires SysOk(cfg, s) && OrderOk(s) && cfg.steering.AfterTurn? && Works(s, t)
    ensures OrderOk(t)
  {
    var r, input, out :| WorksOn(s, t, r, input, out);
    PassOrder(cfg, s, t, r, input, out);
  }

  lemma RunnerOrder(cfg: Config, s: Sys, t: Sys)
    requires SysOk(cfg, s) && OrderOk(s) && cfg.steering.AfterTurn? && RowsStay(s.j, t.j)
    requires SendsOn(s, t) || GivesUp(s, t) || Starts(cfg, s, t) || Cancels(s, t) || Records(s, t) || Works(s, t) || Closes(s, t)
    ensures OrderOk(t)
  {
    if SendsOn(s, t) { SendOnOrder(cfg, s, t); }
    else if GivesUp(s, t) { GiveUpOrder(cfg, s, t); }
    else if Starts(cfg, s, t) { StartsOrder(cfg, s, t); }
    else if Cancels(s, t) { EndOrder(cfg, s, t); }
    else if Records(s, t) { RecordOrder(cfg, s, t); }
    else if Works(s, t) { WorksOrder(cfg, s, t); }
    else { CloseOrder(cfg, s, t); }
  }

  lemma SettlesOrder(cfg: Config, s: Sys, t: Sys)
    requires SysOk(cfg, s) && OrderOk(s) && cfg.steering.AfterTurn? && RowsStay(s.j, t.j) && Settles(s, t)
    ensures OrderOk(t)
  {
    SoftOrder(cfg, s, t);
  }

  lemma TakesInOrder(cfg: Config, s: Sys, t: Sys)
    requires SysOk(cfg, s) && OrderOk(s) && RestedOk(s) && cfg.steering.AfterTurn? && RowsStay(s.j, t.j) && LifeOk(cfg, t.j) && TakesIn(cfg, s, t)
    ensures OrderOk(t)
  {
    var e :| MessageEffect(cfg, s.j, t.j, e, t.todo);
    MessageOrder(cfg, s, t, e);
  }

  lemma ResumesOrder(cfg: Config, s: Sys, t: Sys)
    requires CapInv(cfg, s) && OrderOk(s) && cfg.steering.AfterTurn? && Resumes(cfg, s, t)
    ensures OrderOk(t)
  {
    ResumeOrder(cfg, s, t, LeftoverConvs(s.j, |s.j.steers|));
  }

  /** The state a crash finds, between two commits, is in order too. */
  lemma MidOrder(cfg: Config, s: Sys, mid: Journal) returns (m: Sys)
    requires CapInv(cfg, s) && OrderOk(s) && cfg.steering.AfterTurn? && CrashesAt(cfg, s, mid)
    ensures SysOk(cfg, m) && OrderOk(m) && m == s.(j := mid, todo := m.todo)
  {
    if Soft(s.j, mid) {
      m := s.(j := mid);
      SoftKeeps(cfg, s, m);
      GrowsRows(cfg, s.j, mid);
      SoftOrder(cfg, s, m);
    } else {
      var convs :| mid == ResumeAll(cfg, s.j, convs).journal;
      m := s.(j := mid, todo := ResumeAll(cfg, s.j, convs).value);
      ResumeMove(cfg, s, m, convs);
      ResumeOrder(cfg, s, m, convs);
    }
  }

  lemma RestartsRows(cfg: Config, j: Journal, k: Journal)
    requires LifeOk(cfg, j) && Restarts(j, k)
    ensures RowsStay(j, k)
  {
    forall i | 0 <= i < |j.steers| ensures IsRun(j.runs, j.steers[i].run) && k.steers[i].run == j.steers[i].run {}
  }

  lemma CrashesOrder(cfg: Config, s: Sys, t: Sys)
    requires CapInv(cfg, s) && OrderOk(s) && cfg.steering.AfterTurn? && Crashes(cfg, s, t)
    ensures OrderOk(t)
  {
    var mid :| CrashesAt(cfg, s, mid) && Restarts(mid, t.j);
    var m := MidOrder(cfg, s, mid);
    RestartsRows(cfg, mid, t.j);
    CrashOrder(cfg, m, t);
  }

  lemma ShapeOrder(cfg: Config, s: Sys, t: Sys)
    requires CapInv(cfg, s) && OrderOk(s) && cfg.steering.AfterTurn? && Shape(cfg, s, t)
    requires RowsStay(s.j, t.j) && LifeOk(cfg, t.j)
    ensures OrderOk(t)
  {
    if Settles(s, t) { SettlesOrder(cfg, s, t); }
    else if TakesIn(cfg, s, t) { TakesInOrder(cfg, s, t); }
    else if Resumes(cfg, s, t) { ResumesOrder(cfg, s, t); }
    else if Crashes(cfg, s, t) { CrashesOrder(cfg, s, t); }
    else { RunnerOrder(cfg, s, t); }
  }

  lemma MovedOrder(cfg: Config, s: Sys, t: Sys)
    requires CapInv(cfg, s) && OrderOk(s) && cfg.steering.AfterTurn? && MovedWell(cfg, s, t)
    ensures OrderOk(t)
  {
    GrowsRows(cfg, s.j, t.j);
    ShapeOrder(cfg, s, t);
  }
}
