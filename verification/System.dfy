/** The system as a whole: what holds in every state any interleaving can reach. */
module System {
  import opened Model
  import opened Journal
  import opened Rules
  import opened Invariants
  import opened Lifecycle
  import opened Steps
  import opened EventSteps
  import opened Recovery
  import opened History
  import opened TurnLoop
  import opened Handing
  import opened Protocol
  import opened Delivery
  import opened SoftSteps
  import opened DeliverySteps
  import opened Moves

  // ---------------------------------------------------------------- shutdown and restart

  lemma CloseOnItsWay(s: Sys, t: Sys, o: RunId, x: EventId)
    requires t == s.(links := CancelAll(s.links), closing := true)
    ensures OnItsWay(t, o, x) == OnItsWay(s, o, x)
  {
    if Alive(s.links, o) { QueueAppend(s.links[o].queue, CancelRun, x); }
  }

  lemma CloseKeeps(cfg: Config, s: Sys, t: Sys)
    requires SysOk(cfg, s) && t == s.(links := CancelAll(s.links), closing := true)
    ensures SysOk(cfg, t)
  {
    SameWorkers(cfg, s, t);
    forall o: RunId, x | OnItsWay(t, o, x) > 0
      ensures OnItsWay(t, o, x) == 1 && Count(t.handed, x) == 0 && Mine(t.j, o, x)
    {
      CloseOnItsWay(s, t, o, x);
    }
    forall i | PendingRow(t.j, i) && IsRun(t.j.runs, t.j.steers[i].run) && t.j.runs[t.j.steers[i].run].status.Cancelling?
      ensures OnItsWay(t, t.j.steers[i].run, t.j.steers[i].event) == 0
    {
      CloseOnItsWay(s, t, t.j.steers[i].run, t.j.steers[i].event);
    }
  }

  lemma CrashGiven(cfg: Config, s: Sys, t: Sys, o: RunId, e: EventId)
    requires LinksOk(cfg, s.j, s.links) && UpdatesOk(s.links, s.updates)
    requires Restarts(s.j, t.j) && t.handed == s.handed && Given(s, o, e)
    ensures Given(t, o, e)
  {
    if WillFail(s.updates, o) {
      var a :| Ends(s.updates, a, o);
      assert o in s.links;
    }
  }

  lemma CrashHanded(j: Journal, k: Journal, handed: seq<EventId>)
    requires HandedOk(j, handed) && Restarts(j, k)
    ensures HandedOk(k, handed)
  {
    forall x | Count(handed, x) > 0 ensures exists o :: Mine(k, o, x) {
      var o :| Mine(j, o, x);
      if i :| 0 <= i < |j.steers| && j.steers[i].event == x && j.steers[i].run == o {
        assert k.steers[i].event == x && k.steers[i].run == o;
      }
      assert Mine(k, o, x);
    }
  }

  lemma CrashAllGiven(cfg: Config, s: Sys, t: Sys)
    requires LinksOk(cfg, s.j, s.links) && UpdatesOk(s.links, s.updates) && GivenOk(s)
    requires Restarts(s.j, t.j) && t.handed == s.handed
    ensures GivenOk(t)
  {
    forall o, e | Given(s, o, e) ensures Given(t, o, e) { CrashGiven(cfg, s, t, o, e); }
    forall i | TakenRow(t.j, i) ensures Given(t, t.j.steers[i].run, t.j.steers[i].event) {
      assert TakenRow(s.j, i) && t.j.steers[i] == s.j.steers[i];
    }
  }

  lemma CrashKeeps(cfg: Config, s: Sys, t: Sys)
    requires SysOk(cfg, s) && LifeOk(cfg, t.j) && Restarts(s.j, t.j)
    requires t.links == map[] && t.updates == [] && t.todo == [] && t.handed == s.handed
    ensures SysOk(cfg, t)
  {
    CrashHanded(s.j, t.j, s.handed);
    CrashAllGiven(cfg, s, t);
    AllQuiet(cfg, s.j, t);
  }

  lemma AllQuiet(cfg: Config, j: Journal, t: Sys)
    requires Restarts(j, t.j) && t.links == map[] && t.updates == [] && t.todo == []
    ensures OnItsWayOk(t) && LinksOk(cfg, t.j, t.links) && UpdatesOk(t.links, t.updates) && SettlingOk(t) && ReportedOk(t) && QuietOk(t)
  {
    forall o: RunId, x ensures OnItsWay(t, o, x) == 0 {}
    forall i ensures !PendingRow(t.j, i) {}
  }

  // ---------------------------------------------------------------- effects and news

  lemma IdleKeeps(cfg: Config, s: Sys, t: Sys)
    requires SysOk(cfg, s) && t.j == s.j && t.links == s.links && t.updates == s.updates && t.handed == s.handed
    requires t.todo == s.todo || NoSteers(t.todo)
    ensures SysOk(cfg, t)
  {
    SoftReflexive(s.j);
    SoftKeeps(cfg, s, t);
  }

  lemma EndKeeps(cfg: Config, s: Sys, t: Sys)
    requires SysOk(cfg, s) && LifeOk(cfg, t.j) && Cancels(s, t)
    ensures SysOk(cfg, t)
  {
    if t.j == s.j && SameQueues(s, t) { DropKeeps(cfg, s, t); } else { ConcludeKeeps(cfg, s, t, s.todo[0].run, Interrupted); }
  }

  lemma DropKeeps(cfg: Config, s: Sys, t: Sys)
    requires SysOk(cfg, s) && t.j == s.j && SameQueues(s, t) && NoSteers(s.todo) && s.todo != [] && t.todo == s.todo[1..]
    ensures SysOk(cfg, t)
  {
    IdleKeeps(cfg, s, t);
  }

  lemma RecordKeeps(cfg: Config, s: Sys, t: Sys)
    requires SysOk(cfg, s) && LifeOk(cfg, t.j) && Records(s, t)
    ensures SysOk(cfg, t)
  {
    if r, status :| Concludes(s, t, r, status) { ConcludeKeeps(cfg, s, t, r, status); } else { NoteKeeps(cfg, s, t); }
  }

  lemma StartKeeps(cfg: Config, s: Sys, t: Sys)
    requires SysOk(cfg, s) && LifeOk(cfg, t.j) && Starts(cfg, s, t)
    ensures SysOk(cfg, t)
  {
    var r, spawned :| StartsRun(cfg, s, t, r, spawned);
    DispatchKeeps(cfg, s, t, r, spawned);
  }

  lemma SendOnKeeps(cfg: Config, s: Sys, t: Sys)
    requires SysOk(cfg, s) && SendsOn(s, t)
    ensures SysOk(cfg, t)
  {
    var r, c :| SendsTo(s, t, r, c);
    SendKeeps(cfg, s, t, r, c);
  }

  lemma WorkKeeps(cfg: Config, s: Sys, t: Sys)
    requires SysOk(cfg, s) && Works(s, t)
    ensures SysOk(cfg, t)
  {
    var r, input, out :| WorksOn(s, t, r, input, out);
    PassKeeps(cfg, s, t, r, input, out);
  }

  /** The system as the crash finds it, between two commits. */
  lemma MidKeeps(cfg: Config, s: Sys, mid: Journal) returns (m: Sys)
    requires SysInv(cfg, s) && CrashesAt(cfg, s, mid)
    ensures SysOk(cfg, m) && m == s.(j := mid, todo := m.todo)
  {
    if Soft(s.j, mid) {
      m := s.(j := mid);
      SoftKeeps(cfg, s, m);
    } else {
      var convs :| mid == ResumeAll(cfg, s.j, convs).journal;
      m := s.(j := mid, todo := ResumeAll(cfg, s.j, convs).value);
      ResumeMove(cfg, s, m, convs);
    }
  }

  lemma CrashedKeeps(cfg: Config, s: Sys, t: Sys)
    requires SysInv(cfg, s) && LifeOk(cfg, t.j) && Crashes(cfg, s, t)
    ensures SysOk(cfg, t)
  {
    var mid :| CrashesAt(cfg, s, mid) && Restarts(mid, t.j);
    var m := MidKeeps(cfg, s, mid);
    CrashKeeps(cfg, m, t);
  }

  lemma RunnerKeeps(cfg: Config, s: Sys, t: Sys)
    requires SysOk(cfg, s) && LifeOk(cfg, t.j)
    requires SendsOn(s, t) || GivesUp(s, t) || Starts(cfg, s, t) || Cancels(s, t) || Records(s, t) || Works(s, t) || Closes(s, t)
    ensures SysOk(cfg, t)
  {
    if SendsOn(s, t) { SendOnKeeps(cfg, s, t); }
    else if GivesUp(s, t) { IdleKeeps(cfg, s, t); }
    else if Starts(cfg, s, t) { StartKeeps(cfg, s, t); }
    else if Cancels(s, t) { EndKeeps(cfg, s, t); }
    else if Records(s, t) { RecordKeeps(cfg, s, t); }
    else if Works(s, t) { WorkKeeps(cfg, s, t); }
    else { CloseKeeps(cfg, s, t); }
  }

  lemma ResumesKeep(cfg: Config, s: Sys, t: Sys)
    requires SysInv(cfg, s) && Resumes(cfg, s, t)
    ensures SysOk(cfg, t)
  {
    ResumeMove(cfg, s, t, LeftoverConvs(s.j, |s.j.steers|));
  }

  lemma TakesInKeeps(cfg: Config, s: Sys, t: Sys)
    requires SysOk(cfg, s) && LifeOk(cfg, t.j) && TakesIn(cfg, s, t)
    ensures SysOk(cfg, t)
  {
    var e :| MessageEffect(cfg, s.j, t.j, e, t.todo);
    MessageMoved(cfg, s, t, e);
  }

  /** Whatever the kind of move, the delivery invariant is kept. */
  lemma ShapeKeeps(cfg: Config, s: Sys, t: Sys)
    requires SysInv(cfg, s) && LifeOk(cfg, t.j) && Shape(cfg, s, t)
    ensures SysOk(cfg, t)
  {
    if Settles(s, t) { SoftKeeps(cfg, s, t); }
    else if TakesIn(cfg, s, t) { TakesInKeeps(cfg, s, t); }
    else if Resumes(cfg, s, t) { ResumesKeep(cfg, s, t); }
    else if Crashes(cfg, s, t) { CrashedKeeps(cfg, s, t); }
    else { RunnerKeeps(cfg, s, t); }
  }

  // ---------------------------------------------------------------- every state

  /** What every reachable state satisfies, and what every move does to it. */
  ghost predicate MovedWell(cfg: Config, s: Sys, t: Sys) {
    SysInv(cfg, t) && StageOk(cfg, t) && Shape(cfg, s, t) && JournalKept(cfg, s.j, t.j)
  }

  lemma EveryMove(cfg: Config, s: Sys, m: Move, t: Sys)
    requires SysInv(cfg, s) && StageOk(cfg, s) && Makes(cfg, s, m, t)
    ensures MovedWell(cfg, s, t)
  {
    MoveKept(cfg, s, m, t);
    MoveShape(cfg, s, m, t);
    ShapeKeeps(cfg, s, t);
  }

  lemma StartGood(cfg: Config)
    ensures SysInv(cfg, START) && StageOk(cfg, START)
  {
    EmptyGood(cfg);
    StartOk(cfg);
  }

  lemma {:induction false} EveryState(cfg: Config, moves: seq<Move>, s: Sys)
    requires Reaches(cfg, moves, s)
    ensures SysInv(cfg, s) && StageOk(cfg, s)
    decreases |moves|
  {
    if moves == [] {
      StartGood(cfg);
    } else {
      var front := StateOf(cfg, moves[..|moves| - 1]);
      EveryState(cfg, moves[..|moves| - 1], front);
      EveryMove(cfg, front, moves[|moves| - 1], s);
    }
  }

  // ---------------------------------------------------------------- the history of the journal

  /** The transactions a history of moves makes. */
  ghost function Ops(cfg: Config, moves: seq<Move>): seq<Op>
    requires Valid(cfg, moves)
  {
    if moves == [] then []
    else
      var front := moves[..|moves| - 1];
      var op := OpOf(StateOf(cfg, front), moves[|moves| - 1]);
      Ops(cfg, front) + (if op.Some? then [op.value] else [])
  }

  lemma AnotherOp(cfg: Config, ops: seq<Op>, j: Journal, op: Option<Op>, k: Journal)
    requires Lives(cfg, ops, j) && Commits(cfg, j, k, op)
    ensures Lives(cfg, ops + (if op.Some? then [op.value] else []), k)
  {
    if op.Some? {
      var all := ops + [op.value];
      assert all[..|all| - 1] == ops;
    } else {
      assert ops + [] == ops;
    }
  }

  /** So whatever holds of every history of the journal holds of the journal under every interleaving. */
  lemma {:induction false} HasHistory(cfg: Config, moves: seq<Move>, s: Sys)
    requires Reaches(cfg, moves, s)
    ensures Lives(cfg, Ops(cfg, moves), s.j)
    decreases |moves|
  {
    if moves != [] {
      var front := StateOf(cfg, moves[..|moves| - 1]);
      HasHistory(cfg, moves[..|moves| - 1], front);
      EveryState(cfg, moves[..|moves| - 1], front);
      MoveCommits(cfg, front, moves[|moves| - 1], s);
      AnotherOp(cfg, Ops(cfg, moves[..|moves| - 1]), front.j, OpOf(front, moves[|moves| - 1]), s.j);
    }
  }

  // ---------------------------------------------------------------- what follows for follow-ups

  /** In every interleaving a message is put before an agent at most once, over all turns, continuations and restarts. */
  lemma HandedAtMostOnce(cfg: Config, moves: seq<Move>, s: Sys, e: EventId)
    requires Reaches(cfg, moves, s)
    ensures Count(s.handed, e) <= 1
  {
    EveryState(cfg, moves, s);
  }

  /** The follow-up of row `i` belonged to a run that has completed. */
  predicate OfCompleted(j: Journal, i: int) {
    0 <= i < |j.steers| && IsRun(j.runs, j.steers[i].run) && j.runs[j.steers[i].run].status.Completed?
  }

  /** It has been put before the agent and is marked so, or has not and is still pending, unless it was dropped. */
  ghost predicate Accounted(s: Sys, i: int) {
    && 0 <= i < |s.j.steers|
    && var row := s.j.steers[i];
       && (row.status.Taken? ==> Count(s.handed, row.event) == 1)
       && (row.status.Pending? ==> Count(s.handed, row.event) == 0 && Leftover(s.j, i))
       && row.run in s.j.inputs && Count(s.handed, s.j.inputs[row.run]) == 1
  }

  /**
   When a run has completed, what opened it has been put before the agent, and each of its follow-ups either has been
   and is marked so, or has not been and is still pending, unless it was dropped or cut off.
   */
  lemma CompletedAccounts(cfg: Config, moves: seq<Move>, s: Sys, i: int)
    requires Reaches(cfg, moves, s) && OfCompleted(s.j, i)
    ensures Accounted(s, i)
  {
    EveryState(cfg, moves, s);
    RowAccounted(cfg, s, i);
  }

  lemma RowAccounted(cfg: Config, s: Sys, i: int)
    requires SysOk(cfg, s) && OfCompleted(s.j, i)
    ensures Accounted(s, i)
  {
    CompletedGiven(cfg, s, s.j.steers[i].run, s.j.inputs[s.j.steers[i].run]);
    if s.j.steers[i].status.Taken? {
      assert TakenRow(s.j, i);
      CompletedGiven(cfg, s, s.j.steers[i].run, s.j.steers[i].event);
    }
    if s.j.steers[i].status.Pending? {
      assert Leftover(s.j, i);
      LeftoverUnhanded(cfg, s, i);
    }
  }

  lemma CompletedGiven(cfg: Config, s: Sys, r: RunId, e: EventId)
    requires SysOk(cfg, s) && IsRun(s.j.runs, r) && s.j.runs[r].status.Completed? && Given(s, r, e)
    ensures Count(s.handed, e) == 1
  {
    NoNews(s.links, s.updates, r, e);
  }

  /** The journal of any later state is onward from that of any earlier one. */
  lemma {:induction false} StatesMoveOn(cfg: Config, earlier: seq<Move>, s: Sys, moves: seq<Move>, t: Sys)
    requires Reaches(cfg, earlier, s) && Reaches(cfg, moves, t) && earlier <= moves
    ensures Inv(cfg, s.j) && Onward(s.j, t.j)
    decreases |moves|
  {
    EveryState(cfg, earlier, s);
    if earlier == moves {
      OnwardReflexive(s.j);
    } else {
      var front := StateOf(cfg, moves[..|moves| - 1]);
      StatesMoveOn(cfg, earlier, s, moves[..|moves| - 1], front);
      EveryState(cfg, moves[..|moves| - 1], front);
      EveryMove(cfg, front, moves[|moves| - 1], t);
      OnwardTransitive(s.j, front.j, t.j);
    }
  }

  /** A row keeps its message; once it is settled it does not change any more. */
  predicate RowSettles(j: Journal, k: Journal, i: int) {
    && 0 <= i < |j.steers| && i < |k.steers|
    && k.steers[i].event == j.steers[i].event && k.steers[i].prompt == j.steers[i].prompt
    && (!j.steers[i].status.Pending? ==> k.steers[i] == j.steers[i])
  }

  /** A follow-up keeps its row; once it is taken by a run, dropped or cut off, that is final. */
  lemma SettledForGood(cfg: Config, earlier: seq<Move>, s: Sys, moves: seq<Move>, t: Sys, i: nat)
    requires Reaches(cfg, earlier, s) && Reaches(cfg, moves, t) && earlier <= moves && i < |s.j.steers|
    ensures RowSettles(s.j, t.j, i)
  {
    StatesMoveOn(cfg, earlier, s, moves, t);
    RowsSettleSo(cfg, s.j, t.j, i);
  }

  lemma RowsSettleSo(cfg: Config, j: Journal, k: Journal, i: nat)
    requires LifeOk(cfg, j) && Grows(j, k) && i < |j.steers|
    ensures RowSettles(j, k, i)
  {
    assert SteerGrows(j, k, i);
  }
}
