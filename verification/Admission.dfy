/** Which messages are let in, once each; and which outbound messages are given up, for good. */
module Admission {
  import opened Model
  import opened Journal
  import opened Rules
  import opened History
  import opened Frames

  /** A transaction lets this message in. */
  ghost predicate Admits(cfg: Config, j: Journal, op: Op, key: (RoomId, EventId)) {
    && op.Message? && key == (op.event.room, op.event.event)
    && var r := Handle(cfg, j, op.event, op.room, Some(op.history), op.now);
       r.Success? && r.value.value.disposition.Accepted?
  }

  /** A transaction gives up an outbound message a run asked for. */
  predicate GivesUp(j: Journal, op: Op, txn: Txn) {
    op == Refuse(txn) && txn in j.explicit
  }

  /** Every message let in over a history, as it happened. */
  ghost function Admitted(cfg: Config, ops: seq<Op>): seq<(RoomId, EventId)> {
    if ops == [] then []
    else
      var front, op := ops[..|ops| - 1], ops[|ops| - 1];
      Admitted(cfg, front)
      + (if op.Message? && Admits(cfg, After(cfg, front), op, (op.event.room, op.event.event)) then [(op.event.room, op.event.event)] else [])
  }

  /** Every outbound message given up over a history. */
  ghost function GivenUp(cfg: Config, ops: seq<Op>): set<Txn> {
    if ops == [] then {}
    else
      var front, op := ops[..|ops| - 1], ops[|ops| - 1];
      GivenUp(cfg, front) + (if op.Refuse? && GivesUp(After(cfg, front), op, op.txn) then {op.txn} else {})
  }

  // ---------------------------------------------------------------- one transaction

  /** What a transaction does to the inbox and to the failures. */
  ghost predicate Counts(cfg: Config, j: Journal, op: Op, k: Journal) {
    && (forall key :: key in k.inbox <==> key in j.inbox || Admits(cfg, j, op, key))
    && (forall key :: Admits(cfg, j, op, key) ==> key !in j.inbox)
    && (forall t :: t in k.failures <==> t in j.failures || GivesUp(j, op, t))
  }

  lemma MessageCounts(cfg: Config, j: Journal, event: Incoming, room: RoomSnapshot, history: seq<Incoming>, now: int)
    ensures Counts(cfg, j, Message(event, room, history, now), Heard(j, Handle(cfg, j, event, room, Some(history), now)).journal)
  {
    if Handle(cfg, j, event, room, Some(history), now).Success? { MessageFrame(cfg, j, event, room, Some(history), now); }
  }

  /** Only a message adds to the inbox, and only a refusal to the failures. */
  lemma NextCounts(cfg: Config, j: Journal, op: Op)
    ensures Counts(cfg, j, op, Next(cfg, j, op).journal)
  {
    if op.Message? {
      MessageCounts(cfg, j, op.event, op.room, op.history, op.now);
    } else {
      NextFrame(cfg, j, op);
      OtherCounts(cfg, j, op, Next(cfg, j, op).journal);
    }
  }

  lemma OtherCounts(cfg: Config, j: Journal, op: Op, k: Journal)
    requires !op.Message? && Touches(cfg, op, j, k) && (op.Refuse? ==> k == Block(j, op.txn))
    ensures Counts(cfg, j, op, k)
  {}

  // ---------------------------------------------------------------- whole histories

  predicate Distinct<T(==)>(s: seq<T>) {
    forall i, k :: 0 <= i < k < |s| ==> s[i] != s[k]
  }

  /** However often a message is offered, and whatever happens in between, it is let in once; the inbox remembers it. */
  lemma {:induction false} LetInOnce(cfg: Config, ops: seq<Op>)
    ensures Distinct(Admitted(cfg, ops))
    ensures forall key :: key in Admitted(cfg, ops) <==> key in After(cfg, ops).inbox
  {
    if ops != [] {
      LetInOnce(cfg, ops[..|ops| - 1]);
      NextCounts(cfg, After(cfg, ops[..|ops| - 1]), ops[|ops| - 1]);
    }
  }

  /** An outbound message is given up by its refusal only; then it is never pending again. */
  lemma {:induction false} FailuresAreGivenUp(cfg: Config, ops: seq<Op>)
    ensures After(cfg, ops).failures == GivenUp(cfg, ops)
    ensures forall t :: t in GivenUp(cfg, ops) ==> !Undelivered(After(cfg, ops), t)
  {
    if ops != [] {
      FailuresAreGivenUp(cfg, ops[..|ops| - 1]);
      NextCounts(cfg, After(cfg, ops[..|ops| - 1]), ops[|ops| - 1]);
    }
  }

  lemma {:induction false} GivenUpForGood(cfg: Config, earlier: seq<Op>, ops: seq<Op>)
    requires earlier <= ops
    ensures GivenUp(cfg, earlier) <= GivenUp(cfg, ops)
    decreases |ops|
  {
    if earlier != ops { GivenUpForGood(cfg, earlier, ops[..|ops| - 1]); }
  }
}
