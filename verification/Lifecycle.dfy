/** Runs, inputs and follow-ups across every transaction. */
module Lifecycle {
  import opened Model
  import opened Text
  import opened Journal
  import opened Rules
  import opened Invariants

  lemma RegisterKeeps(cfg: Config, j: Journal, event: Incoming, room: RoomSnapshot, conv: ConvKey)
    requires LifeOk(cfg, j) && event.room in cfg.rooms && event.room == cfg.home(event.event)
    ensures LifeOk(cfg, Register(cfg, j, event, room, conv))
  {}

  lemma FollowUpKeeps(cfg: Config, before: Journal, j: Journal, event: EventId, conv: ConvKey, run: RunId, prompt: string)
    requires LifeOk(cfg, before) && LifeOk(cfg, j)
    requires (conv.room, event) in j.inbox && (conv.room, event) !in before.inbox && cfg.home(event) == conv.room
    requires before.runs == j.runs && before.inputs == j.inputs && before.steers == j.steers
    requires IsRun(j.runs, run) && j.runs[run].conv == conv
    ensures !HasSteer(j.steers, event)
    ensures LifeOk(cfg, j.(steers := j.steers + [SteerRow(event, run, prompt, Pending)]))
  {
  }

  /** A new active run for a conversation that has none. */
  lemma AddRunOneActive(runs: seq<RunRow>, row: RunRow)
    requires OneActive(runs) && FindActive(runs, row.conv).None?
    ensures OneActive(runs + [row])
  {
    forall c, k | ActiveIn(runs + [row], c, k)
      ensures k < |runs| ==> ActiveIn(runs, c, k)
      ensures k == |runs| ==> c == row.conv
    {}
  }

  lemma OpenRunKeeps(cfg: Config, before: Journal, j: Journal, event: EventId, conv: ConvKey, prompt: string)
    requires LifeOk(cfg, before) && LifeOk(cfg, j)
    requires (conv.room, event) in j.inbox && (conv.room, event) !in before.inbox && cfg.home(event) == conv.room
    requires before.runs == j.runs && before.inputs == j.inputs && before.steers == j.steers
    requires FindActive(j.runs, conv).None? && conv in j.convs
    ensures LifeOk(cfg, j.(runs := j.runs + [RunRow(conv, prompt, Queued)], inputs := j.inputs[|j.runs| := event]))
  {
    AddRunOneActive(j.runs, RunRow(conv, prompt, Queued));
  }

  lemma StatusOneActive(runs: seq<RunRow>, run: RunId, status: Status)
    requires OneActive(runs) && IsRun(runs, run)
    requires status.Active() ==> runs[run].status.Active()
    ensures OneActive(SetStatus(runs, run, status))
  {
    forall c, k | ActiveIn(SetStatus(runs, run, status), c, k)
      ensures ActiveIn(runs, c, k)
    {}
  }

  lemma StatusKeeps(cfg: Config, j: Journal, run: RunId, status: Status)
    requires LifeOk(cfg, j) && IsRun(j.runs, run)
    requires status.Active() ==> j.runs[run].status.Active()
    ensures LifeOk(cfg, j.(runs := SetStatus(j.runs, run, status)))
  {
    StatusOneActive(j.runs, run, status);
  }

  /** The rows a continuation moves are exactly the conversation's leftovers. */
  lemma MovedRows(j: Journal, conv: ConvKey, inputs: map<RunId, EventId>)
    requires SteersOk(j.runs, inputs, j.steers)
    ensures forall i :: 0 <= i < |j.steers| ==>
      (j.steers[i].event in Events(Leftovers(j, conv, |j.steers|)) <==> LeftoverOf(j, conv, i))
  {
    var rows := Leftovers(j, conv, |j.steers|);
    forall i | 0 <= i < |j.steers|
      ensures j.steers[i].event in Events(rows) <==> LeftoverOf(j, conv, i)
    {
      if LeftoverOf(j, conv, i) {
        assert j.steers[i] in rows;
        var k :| 0 <= k < |rows| && rows[k] == j.steers[i];
        assert Events(rows)[k] == j.steers[i].event;
      }
      if j.steers[i].event in Events(rows) {
        var k :| 0 <= k < |rows| && Events(rows)[k] == j.steers[i].event;
        assert rows[k] in rows;
      }
    }
  }

  /** Every leftover of the conversation moved to the run `row` is appended for. */
  ghost predicate Moved(j: Journal, conv: ConvKey, after: seq<SteerRow>) {
    && |after| == |j.steers|
    && forall i :: 0 <= i < |after| ==>
         after[i] == if LeftoverOf(j, conv, i) then j.steers[i].(run := |j.runs|, status := Taken) else j.steers[i]
  }

  lemma MoveKeeps(j: Journal, l: nat, row: RunRow, after: seq<SteerRow>)
    requires InputsOk(j.runs, j.inputs) && SteersOk(j.runs, j.inputs, j.steers) && Arrived(j.inbox, j.runs, j.inputs, j.steers)
    requires Moved(j, row.conv, after) && LeftoverOf(j, row.conv, l)
    ensures InputsOk(j.runs + [row], j.inputs[|j.runs| := j.steers[l].event])
    ensures SteersOk(j.runs + [row], j.inputs[|j.runs| := j.steers[l].event], after)
    ensures Arrived(j.inbox, j.runs + [row], j.inputs[|j.runs| := j.steers[l].event], after)
  {
    assert forall r: RunId :: r in j.inputs ==> j.inputs[r] != j.steers[l].event;
  }

  /** `after` is `j` with the conversation's leftovers, the newest at row `l`, turned into one queued run. */
  ghost predicate Continues(cfg: Config, j: Journal, conv: ConvKey, l: int, after: Journal) {
    && FindActive(j.runs, conv).None? && Bound(cfg, j, conv)
    && LeftoverOf(j, conv, l)
    && (forall i :: LeftoverOf(j, conv, i) ==> i <= l)
    && after.runs == j.runs + [RunRow(conv, JoinLines(Prompts(Leftovers(j, conv, |j.steers|))), Queued)]
    && after.inputs == j.inputs[|j.runs| := j.steers[l].event]
    && Moved(j, conv, after.steers)
    && after.batches == MoveBatches(j.batches, Events(Leftovers(j, conv, |j.steers|)), |j.runs|)
    && after == j.(runs := after.runs, inputs := after.inputs, steers := after.steers, batches := after.batches)
  }

  /** The last row read is the newest leftover. */
  lemma {:induction false} LastLeftover(j: Journal, conv: ConvKey, n: nat) returns (l: nat)
    requires n <= |j.steers| && Leftovers(j, conv, n) != []
    ensures l < n && LeftoverOf(j, conv, l)
    ensures var rows := Leftovers(j, conv, n); rows[|rows| - 1] == j.steers[l]
    ensures forall i :: 0 <= i < n && LeftoverOf(j, conv, i) ==> i <= l
  {
    if LeftoverOf(j, conv, n - 1) {
      l := n - 1;
    } else {
      l := LastLeftover(j, conv, n - 1);
    }
  }

  lemma ResumeShape(cfg: Config, j: Journal, conv: ConvKey) returns (l: nat)
    requires SteersOk(j.runs, j.inputs, j.steers)
    requires ResumeOne(cfg, j, conv).value != []
    ensures ResumeOne(cfg, j, conv).value == [Start(|j.runs|)]
    ensures Continues(cfg, j, conv, l, ResumeOne(cfg, j, conv).journal)
  {
    l := LastLeftover(j, conv, |j.steers|);
    MovedRows(j, conv, j.inputs);
  }

  lemma ContinuesLife(cfg: Config, j: Journal, conv: ConvKey, l: nat, after: Journal)
    requires LifeOk(cfg, j) && Continues(cfg, j, conv, l, after)
    ensures LifeOk(cfg, after)
  {
    var row := after.runs[|j.runs|];
    AddRunOneActive(j.runs, row);
    MoveKeeps(j, l, row, after.steers);
  }
}

