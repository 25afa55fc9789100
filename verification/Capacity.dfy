/** The worker-wide bound, and why resuming leftovers first keeps it. */
module Capacity {
  import opened Model
  import opened Journal
  import opened Rules
  import opened Invariants
  import opened Lifecycle
  import opened Steps
  import opened EventSteps
  import opened History
  import opened Protocol
  import opened Delivery
  import opened DeliverySteps
  import opened Moves
  import opened System

  /** Every conversation was admitted under the running configuration. */
  predicate AllBound(cfg: Config, j: Journal) {
    forall c :: c in j.convs ==> j.convs[c].policy == cfg.binding(c)
  }

  /** A busy conversation has nothing left over from its earlier runs. */
  ghost predicate NoneBehind(j: Journal) {
    forall c, r, i :: ActiveIn(j.runs, c, r) ==> !LeftoverOf(j, c, i)
  }

  function ActiveConvs(runs: seq<RunRow>): set<ConvKey> {
    set r | 0 <= r < |runs| && runs[r].status.Active() :: runs[r].conv
  }

  /** The inductive measure: conversations with an active run, or with leftovers that will become one. */
  function Busy(j: Journal): set<ConvKey> {
    ActiveConvs(j.runs) + set i | 0 <= i < |j.steers| && Leftover(j, i) :: j.runs[j.steers[i].run].conv
  }

  ghost predicate Bounded(cfg: Config, j: Journal) {
    cfg.maxRuns != 0 ==> |Busy(j)| <= cfg.maxRuns
  }

  /** Once leftovers have been resumed for a message, there are none until it is handled. */
  ghost predicate RestedOk(s: Sys) {
    s.stage.Resumed? ==> (forall i :: !Leftover(s.j, i)) && (forall i :: 0 <= i < |s.todo| ==> s.todo[i].Start?)
  }

  ghost predicate CapOk(cfg: Config, s: Sys) {
    AllBound(cfg, s.j) && NoneBehind(s.j) && Bounded(cfg, s.j) && RestedOk(s)
  }

  // ---------------------------------------------------------------- counting

  lemma {:induction false} CountIsActive(runs: seq<RunRow>)
    requires OneActive(runs)
    ensures CountActive(runs) == |ActiveConvs(runs)|
  {
    if runs != [] {
      var front, last := runs[..|runs| - 1], runs[|runs| - 1];
      assert forall c, r :: ActiveIn(front, c, r) ==> ActiveIn(runs, c, r);
      CountIsActive(front);
      assert forall r :: 0 <= r < |front| ==> runs[r] == front[r];
      if last.status.Active() {
        assert ActiveIn(runs, last.conv, |front|);
        assert last.conv !in ActiveConvs(front) by {
          if last.conv in ActiveConvs(front) {
            var r :| 0 <= r < |front| && front[r].status.Active() && front[r].conv == last.conv;
            assert ActiveIn(runs, last.conv, r);
          }
        }
        assert ActiveConvs(runs) == ActiveConvs(front) + {last.conv};
      } else {
        assert ActiveConvs(runs) == ActiveConvs(front);
      }
    }
  }

  lemma SubsetSize<T>(a: set<T>, b: set<T>)
    requires a <= b
    ensures |a| <= |b|
  {
    assert b == a + (b - a);
  }

  // ---------------------------------------------------------------- journals that get no busier

  /** No conversation becomes busy, and none that is busy gets a leftover. */
  ghost predicate NoBusier(j: Journal, k: Journal) {
    && (forall c, r :: ActiveIn(k.runs, c, r) ==> ActiveIn(j.runs, c, r))
    && (forall c, i :: LeftoverOf(k, c, i) ==> LeftoverOf(j, c, i) || ((exists r :: ActiveIn(j.runs, c, r)) && forall r :: !ActiveIn(k.runs, c, r)))
  }

  lemma BusyIff(j: Journal, c: ConvKey)
    ensures c in Busy(j) <==> (exists r :: ActiveIn(j.runs, c, r)) || (exists i :: LeftoverOf(j, c, i))
  {
    if r :| ActiveIn(j.runs, c, r) { assert c in ActiveConvs(j.runs); }
    if i :| LeftoverOf(j, c, i) { assert Leftover(j, i) && 0 <= i < |j.steers|; }
    if c in ActiveConvs(j.runs) {
      var r :| 0 <= r < |j.runs| && j.runs[r].status.Active() && j.runs[r].conv == c;
      assert ActiveIn(j.runs, c, r);
    } else if c in Busy(j) {
      var i :| 0 <= i < |j.steers| && Leftover(j, i) && j.runs[j.steers[i].run].conv == c;
      assert LeftoverOf(j, c, i);
    }
  }

  lemma NoBusierKeeps(cfg: Config, j: Journal, k: Journal)
    requires NoneBehind(j) && Bounded(cfg, j) && NoBusier(j, k)
    ensures NoneBehind(k) && Bounded(cfg, k)
  {
    forall c | c in Busy(k) ensures c in Busy(j) {
      BusyIff(j, c);
      BusyIff(k, c);
    }
    SubsetSize(Busy(k), Busy(j));
  }

  lemma SoftNoBusier(j: Journal, k: Journal)
    requires Soft(j, k)
    ensures NoBusier(j, k) && forall i :: Leftover(k, i) ==> Leftover(j, i)
  {}

  lemma FollowNoBusier(j: Journal, k: Journal, r: RunId, e: EventId, prompt: string, effects: seq<Effect>)
    requires FollowsUp(j, k, r, e, prompt, effects)
    ensures NoBusier(j, k)
  {}

  lemma AbsorbNoBusier(j: Journal, k: Journal, r: RunId, e: EventId)
    requires Absorbs(j, k, r, e)
    ensures NoBusier(j, k) && forall i :: Leftover(k, i) ==> Leftover(j, i)
  {}

  lemma EndNoBusier(j: Journal, k: Journal, r: RunId, status: Status)
    requires OneActive(j.runs) && IsRun(j.runs, r) && j.runs[r].status.Active() && !status.Active() && EndsRun(j, k, r, status)
    ensures NoBusier(j, k)
    ensures status.Interrupted? ==> forall i :: Leftover(k, i) ==> Leftover(j, i)
  {
    assert ActiveIn(j.runs, j.runs[r].conv, r);
    forall c, i | LeftoverOf(k, c, i) && !LeftoverOf(j, c, i)
      ensures (exists o :: ActiveIn(j.runs, c, o)) && forall o :: !ActiveIn(k.runs, c, o)
    {
      assert j.steers[i].run == r && c == j.runs[r].conv;
      forall o ensures !ActiveIn(k.runs, c, o) {
        if ActiveIn(k.runs, c, o) { assert ActiveIn(j.runs, c, o); }
      }
    }
  }

  lemma DispatchNoBusier(j: Journal, k: Journal, r: RunId)
    requires IsRun(j.runs, r) && j.runs[r].status.Queued? && k == j.(runs := SetStatus(j.runs, r, Running))
    ensures NoBusier(j, k) && forall i :: Leftover(k, i) ==> Leftover(j, i)
  {}

  lemma RestartNoBusier(j: Journal, k: Journal)
    requires Restarts(j, k)
    ensures NoBusier(j, k)
  {}

  // ---------------------------------------------------------------- a new run

  lemma OpenBounded(cfg: Config, j: Journal, k: Journal, e: EventId, conv: ConvKey, prompt: string, effects: seq<Effect>)
    requires OneActive(j.runs) && NoneBehind(j) && Bounded(cfg, j) && (forall i :: !Leftover(j, i))
    requires forall i :: 0 <= i < |j.steers| ==> IsRun(j.runs, j.steers[i].run)
    requires Opens(cfg, j, k, e, conv, prompt, effects)
    ensures NoneBehind(k) && Bounded(cfg, k)
  {
    forall i ensures !Leftover(k, i) {
      assert !Leftover(j, i);
    }
    CountIsActive(j.runs);
    forall c | c in Busy(k) ensures c in ActiveConvs(j.runs) + {conv} {
      BusyIff(k, c);
      var r :| ActiveIn(k.runs, c, r);
      if r < |j.runs| { assert j.runs[r] == k.runs[r]; }
    }
    SubsetSize(Busy(k), ActiveConvs(j.runs) + {conv});
  }

  lemma ContinueLeftovers(cfg: Config, j: Journal, conv: ConvKey, l: nat, k: Journal, i: int)
    requires SteersOk(j.runs, j.inputs, j.steers) && Continues(cfg, j, conv, l, k)
    ensures forall c :: LeftoverOf(k, c, i) <==> LeftoverOf(j, c, i) && c != conv
  {
    if 0 <= i < |j.steers| {
      assert IsRun(j.runs, j.steers[i].run);
    }
  }

  lemma ContinueActive(cfg: Config, j: Journal, conv: ConvKey, l: nat, k: Journal)
    requires Continues(cfg, j, conv, l, k)
    ensures forall c, r :: ActiveIn(k.runs, c, r) <==> ActiveIn(j.runs, c, r) || (c == conv && r == |j.runs|)
  {}

  /** A continuation takes over all its conversation left behind. */
  lemma ContinueNoBusier(cfg: Config, j: Journal, conv: ConvKey, l: nat, k: Journal)
    requires LifeOk(cfg, j) && NoneBehind(j) && Bounded(cfg, j) && Continues(cfg, j, conv, l, k)
    ensures NoneBehind(k) && Bounded(cfg, k)
    ensures forall c, i :: LeftoverOf(k, c, i) <==> LeftoverOf(j, c, i) && c != conv
  {
    forall c, i
      ensures LeftoverOf(k, c, i) <==> LeftoverOf(j, c, i) && c != conv
    {
      ContinueLeftovers(cfg, j, conv, l, k, i);
    }
    ContinueActive(cfg, j, conv, l, k);
    assert LeftoverOf(j, conv, l);
    MovedBusy(cfg, j, k, conv, l);
  }

  lemma MovedBusy(cfg: Config, j: Journal, k: Journal, conv: ConvKey, l: nat)
    requires NoneBehind(j) && Bounded(cfg, j) && LeftoverOf(j, conv, l)
    requires forall c, i :: LeftoverOf(k, c, i) <==> LeftoverOf(j, c, i) && c != conv
    requires forall c, r :: ActiveIn(k.runs, c, r) <==> ActiveIn(j.runs, c, r) || (c == conv && r == |j.runs|)
    ensures NoneBehind(k) && Bounded(cfg, k)
  {
    forall c | c in Busy(k) ensures c in Busy(j) {
      BusyIff(j, c);
      BusyIff(k, c);
    }
    SubsetSize(Busy(k), Busy(j));
  }

  lemma ResumeOneCap(cfg: Config, j: Journal, conv: ConvKey)
    requires LifeOk(cfg, j) && NoneBehind(j) && Bounded(cfg, j) && AllBound(cfg, j)
    ensures var k := ResumeOne(cfg, j, conv).journal;
      && NoneBehind(k) && Bounded(cfg, k) && k.convs == j.convs
      && (forall i :: !LeftoverOf(k, conv, i))
      && (forall c, i :: LeftoverOf(k, c, i) ==> LeftoverOf(j, c, i))
  {
    if ResumeOne(cfg, j, conv).value != [] {
      var l := ResumeShape(cfg, j, conv);
      ContinueNoBusier(cfg, j, conv, l, ResumeOne(cfg, j, conv).journal);
    } else {
      NotResumed(cfg, j, conv);
    }
  }

  /** A conversation is passed over only if it is busy, and then has no leftovers, or has none anyway. */
  lemma NotResumed(cfg: Config, j: Journal, conv: ConvKey)
    requires LifeOk(cfg, j) && NoneBehind(j) && AllBound(cfg, j) && ResumeOne(cfg, j, conv).value == []
    ensures ResumeOne(cfg, j, conv).journal == j && forall i :: !LeftoverOf(j, conv, i)
  {
    var active := FindActive(j.runs, conv);
    if active.Some? {
      assert ActiveIn(j.runs, conv, active.value);
    } else {
      var rows := Leftovers(j, conv, |j.steers|);
      assert forall i :: LeftoverOf(j, conv, i) ==> conv in j.convs && j.steers[i] in rows;
    }
  }

  lemma {:induction false} ResumeAllCap(cfg: Config, j: Journal, convs: seq<ConvKey>)
    requires Inv(cfg, j) && NoneBehind(j) && Bounded(cfg, j) && AllBound(cfg, j)
    ensures var k := ResumeAll(cfg, j, convs).journal;
      && NoneBehind(k) && Bounded(cfg, k) && k.convs == j.convs
      && (forall c, i :: c in convs ==> !LeftoverOf(k, c, i))
      && (forall c, i :: LeftoverOf(k, c, i) ==> LeftoverOf(j, c, i))
    decreases |convs|
  {
    if convs != [] {
      var front, conv := convs[..|convs| - 1], convs[|convs| - 1];
      ResumeAllCap(cfg, j, front);
      ResumeAllGood(cfg, j, front);
      ResumeOneCap(cfg, ResumeAll(cfg, j, front).journal, conv);
      assert convs == front + [conv];
    }
  }

  /** After resumption nothing is left over: every leftover has become part of its conversation's next run. */
  lemma ResumeTakesAll(cfg: Config, j: Journal)
    requires Inv(cfg, j) && NoneBehind(j) && Bounded(cfg, j) && AllBound(cfg, j)
    ensures var k := ResumePending(cfg, j).journal; NoneBehind(k) && Bounded(cfg, k) && AllBound(cfg, k) && forall i :: !Leftover(k, i)
  {
    var convs := LeftoverConvs(j, |j.steers|);
    ResumeAllCap(cfg, j, convs);
    var k := ResumePending(cfg, j).journal;
    forall i ensures !Leftover(k, i) {
      assert Leftover(k, i) ==> LeftoverOf(k, k.runs[k.steers[i].run].conv, i);
    }
  }

  // ---------------------------------------------------------------- every move

  ghost predicate CapInv(cfg: Config, s: Sys) {
    SysInv(cfg, s) && StageOk(cfg, s) && CapOk(cfg, s)
  }

  lemma BoundKept(cfg: Config, j: Journal, k: Journal)
    requires AllBound(cfg, j) && ConvsKeep(cfg, j, k)
    ensures AllBound(cfg, k)
  {}

  /** What the journal owes the limit, in one state. */
  ghost predicate Within(cfg: Config, j: Journal) {
    NoneBehind(j) && Bounded(cfg, j)
  }

  lemma SettlesCap(cfg: Config, s: Sys, t: Sys)
    requires Within(cfg, s.j) && RestedOk(s) && Settles(s, t)
    ensures Within(cfg, t.j) && RestedOk(t)
  {
    SoftNoBusier(s.j, t.j);
    NoBusierKeeps(cfg, s.j, t.j);
  }

  lemma MessageCap(cfg: Config, j: Journal, k: Journal, e: EventId, effects: seq<Effect>)
    requires LifeOk(cfg, j) && Within(cfg, j) && (forall i :: !Leftover(j, i)) && MessageEffect(cfg, j, k, e, effects)
    ensures Within(cfg, k)
  {
    if Soft(j, k) {
      SoftNoBusier(j, k);
      NoBusierKeeps(cfg, j, k);
    } else if r, prompt :| FollowsUp(j, k, r, e, prompt, effects) {
      FollowNoBusier(j, k, r, e, prompt, effects);
      NoBusierKeeps(cfg, j, k);
    } else {
      var conv, prompt :| Opens(cfg, j, k, e, conv, prompt, effects);
      OpenBounded(cfg, j, k, e, conv, prompt, effects);
    }
  }

  lemma TakesInCap(cfg: Config, s: Sys, t: Sys)
    requires LifeOk(cfg, s.j) && Within(cfg, s.j) && RestedOk(s) && TakesIn(cfg, s, t)
    ensures Within(cfg, t.j) && RestedOk(t)
  {
    var e :| MessageEffect(cfg, s.j, t.j, e, t.todo);
    MessageCap(cfg, s.j, t.j, e, t.todo);
  }

  lemma ResumesCap(cfg: Config, s: Sys, t: Sys)
    requires Inv(cfg, s.j) && AllBound(cfg, s.j) && Within(cfg, s.j) && Resumes(cfg, s, t)
    ensures Within(cfg, t.j) && RestedOk(t)
  {
    ResumedCap(cfg, s.j, t.j);
    OnlyStarts(cfg, s.j, LeftoverConvs(s.j, |s.j.steers|));
    StartsInOrder(t.todo);
  }

  lemma ResumedCap(cfg: Config, j: Journal, k: Journal)
    requires Inv(cfg, j) && AllBound(cfg, j) && Within(cfg, j) && k == ResumePending(cfg, j).journal
    ensures Within(cfg, k) && forall i :: !Leftover(k, i)
  {
    ResumeTakesAll(cfg, j);
  }

  predicate AllStart(effects: seq<Effect>) {
    forall e :: e in effects ==> e.Start?
  }

  lemma StartsInOrder(effects: seq<Effect>)
    requires AllStart(effects)
    ensures forall i :: 0 <= i < |effects| ==> effects[i].Start?
  {
    forall i | 0 <= i < |effects| ensures effects[i].Start? { assert effects[i] in effects; }
  }

  lemma {:induction false} OnlyStarts(cfg: Config, j: Journal, convs: seq<ConvKey>)
    ensures AllStart(ResumeAll(cfg, j, convs).value)
    decreases |convs|
  {
    if convs != [] {
      OnlyStarts(cfg, j, convs[..|convs| - 1]);
      OneStart(cfg, ResumeAll(cfg, j, convs[..|convs| - 1]).journal, convs[|convs| - 1]);
    }
  }

  lemma OneStart(cfg: Config, j: Journal, conv: ConvKey)
    ensures var effects := ResumeOne(cfg, j, conv).value; effects == [] || effects == [Start(|j.runs|)]
  {}

  lemma EndCap(cfg: Config, s: Sys, t: Sys, r: RunId, status: Status)
    requires OneActive(s.j.runs) && Within(cfg, s.j) && RestedOk(s) && Concludes(s, t, r, status)
    requires t.stage == s.stage && (s.stage.Resumed? ==> status.Interrupted?) && (t.todo == s.todo || (s.todo != [] && t.todo == s.todo[1..]))
    ensures Within(cfg, t.j) && RestedOk(t)
  {
    EndNoBusier(s.j, t.j, r, status);
    NoBusierKeeps(cfg, s.j, t.j);
  }

  lemma StartCap(cfg: Config, s: Sys, t: Sys, r: RunId, spawned: bool)
    requires Within(cfg, s.j) && RestedOk(s) && StartsRun(cfg, s, t, r, spawned)
    ensures Within(cfg, t.j) && RestedOk(t)
  {
    DispatchNoBusier(s.j, t.j, r);
    NoBusierKeeps(cfg, s.j, t.j);
  }

  lemma RecordCap(cfg: Config, s: Sys, t: Sys)
    requires OneActive(s.j.runs) && Within(cfg, s.j) && RestedOk(s) && Records(s, t)
    ensures Within(cfg, t.j) && RestedOk(t)
  {
    if r, status :| Concludes(s, t, r, status) {
      EndCap(cfg, s, t, r, status);
    } else {
      NoteCap(cfg, s.j, t.j, s.updates[0]);
    }
  }

  lemma NoteCap(cfg: Config, j: Journal, k: Journal, event: AgentEvent)
    requires Within(cfg, j) && (Soft(j, k) || (event.Steered? && Absorbs(j, k, event.run, event.event)))
    ensures Within(cfg, k)
  {
    if Soft(j, k) { SoftNoBusier(j, k); } else { AbsorbNoBusier(j, k, event.run, event.event); }
    NoBusierKeeps(cfg, j, k);
  }

  lemma RunnerCap(cfg: Config, s: Sys, t: Sys)
    requires OneActive(s.j.runs) && Within(cfg, s.j) && RestedOk(s)
    requires SendsOn(s, t) || GivesUp(s, t) || Starts(cfg, s, t) || Cancels(s, t) || Records(s, t) || Works(s, t) || Closes(s, t)
    ensures Within(cfg, t.j) && RestedOk(t)
  {
    if Starts(cfg, s, t) {
      var r, spawned :| StartsRun(cfg, s, t, r, spawned);
      StartCap(cfg, s, t, r, spawned);
    } else if Cancels(s, t) {
      if t.j != s.j { EndCap(cfg, s, t, s.todo[0].run, Interrupted); }
    } else if Records(s, t) {
      RecordCap(cfg, s, t);
    } else {
      StillCap(cfg, s, t);
    }
  }

  lemma StillCap(cfg: Config, s: Sys, t: Sys)
    requires Within(cfg, s.j) && RestedOk(s) && (SendsOn(s, t) || GivesUp(s, t) || Works(s, t) || Closes(s, t))
    ensures t.j == s.j && RestedOk(t)
  {
    if r, c :| SendsTo(s, t, r, c) { assert t.todo == s.todo[1..]; }
  }

  lemma CrashCap(cfg: Config, s: Sys, t: Sys)
    requires Inv(cfg, s.j) && AllBound(cfg, s.j) && Within(cfg, s.j) && Crashes(cfg, s, t)
    ensures Within(cfg, t.j) && RestedOk(t)
  {
    var mid :| CrashesAt(cfg, s, mid) && Restarts(mid, t.j);
    MidCap(cfg, s, mid);
    RestartNoBusier(mid, t.j);
    NoBusierKeeps(cfg, mid, t.j);
  }

  lemma MidCap(cfg: Config, s: Sys, mid: Journal)
    requires Inv(cfg, s.j) && AllBound(cfg, s.j) && Within(cfg, s.j) && CrashesAt(cfg, s, mid)
    ensures Within(cfg, mid)
  {
    if Soft(s.j, mid) {
      SoftNoBusier(s.j, mid);
      NoBusierKeeps(cfg, s.j, mid);
    } else {
      var convs :| mid == ResumeAll(cfg, s.j, convs).journal;
      ResumeAllCap(cfg, s.j, convs);
    }
  }

  lemma ShapeCap(cfg: Config, s: Sys, t: Sys)
    requires Inv(cfg, s.j) && CapOk(cfg, s) && Shape(cfg, s, t)
    ensures Within(cfg, t.j) && RestedOk(t)
  {
    if Settles(s, t) { SettlesCap(cfg, s, t); }
    else if TakesIn(cfg, s, t) { TakesInCap(cfg, s, t); }
    else if Resumes(cfg, s, t) { ResumesCap(cfg, s, t); }
    else if Crashes(cfg, s, t) { CrashCap(cfg, s, t); }
    else { RunnerCap(cfg, s, t); }
  }

  lemma MovedCap(cfg: Config, s: Sys, t: Sys)
    requires CapInv(cfg, s) && MovedWell(cfg, s, t)
    ensures CapInv(cfg, t)
  {
    ShapeCap(cfg, s, t);
    BoundKept(cfg, s.j, t.j);
  }

  lemma StartCapOk(cfg: Config)
    ensures CapInv(cfg, START)
  {
    StartGood(cfg);
    assert Busy(EMPTY) == {};
  }

  lemma {:induction false} EveryStateCap(cfg: Config, moves: seq<Move>, s: Sys)
    requires Reaches(cfg, moves, s)
    ensures CapInv(cfg, s)
    decreases |moves|
  {
    if moves == [] {
      StartCapOk(cfg);
    } else {
      var front := StateOf(cfg, moves[..|moves| - 1]);
      EveryStateCap(cfg, moves[..|moves| - 1], front);
      EveryMove(cfg, front, moves[|moves| - 1], s);
      MovedCap(cfg, front, s);
    }
  }

  /**
   The number of active runs never exceeds the configured limit, although resuming leftovers never checks it: every
   leftover belongs to a conversation that already counted, and a new run opens only when none is left.
   */
  lemma NeverOverLimit(cfg: Config, moves: seq<Move>, s: Sys)
    requires Reaches(cfg, moves, s) && cfg.maxRuns != 0
    ensures CountActive(s.j.runs) <= cfg.maxRuns && |Busy(s.j)| <= cfg.maxRuns
  {
    EveryStateCap(cfg, moves, s);
    WithinLimit(cfg, s.j);
  }

  lemma WithinLimit(cfg: Config, j: Journal)
    requires OneActive(j.runs) && Bounded(cfg, j) && cfg.maxRuns != 0
    ensures CountActive(j.runs) <= cfg.maxRuns && |Busy(j)| <= cfg.maxRuns
  {
    CountIsActive(j.runs);
    SubsetSize(ActiveConvs(j.runs), Busy(j));
  }

  /** No active run has leftovers of its conversation behind it, and none is left at all once they have been resumed for a message. */
  ghost predicate InTurn(s: Sys, r: RunId, i: int) {
    && (IsRun(s.j.runs, r) && s.j.runs[r].status.Active() ==> !LeftoverOf(s.j, s.j.runs[r].conv, i))
    && (s.stage.Resumed? ==> !Leftover(s.j, i))
  }

  /** A newer message never overtakes an older leftover: a run is opened only when no leftover exists anywhere. */
  lemma NothingOvertaken(cfg: Config, moves: seq<Move>, s: Sys, r: RunId, i: int)
    requires Reaches(cfg, moves, s)
    ensures InTurn(s, r, i)
  {
    EveryStateCap(cfg, moves, s);
    ActiveInTurn(s, r, i);
  }

  lemma ActiveInTurn(s: Sys, r: RunId, i: int)
    requires NoneBehind(s.j) && RestedOk(s)
    ensures InTurn(s, r, i)
  {
    if IsRun(s.j.runs, r) && s.j.runs[r].status.Active() { assert ActiveIn(s.j.runs, s.j.runs[r].conv, r); }
  }
}
