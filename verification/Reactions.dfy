/** Reactions and their cleanup across every transaction. */
module Reactions {
  import opened Model
  import opened Journal
  import opened Rules
  import opened Invariants

  /** Rows that carry no acknowledgement make no cleanup due. */
  lemma AppendCleanup(outbox: seq<OutRow>, rows: seq<OutRow>, cleanup: seq<CleanupRow>)
    requires CleanupOk(outbox, cleanup)
    requires forall i :: 0 <= i < |rows| ==> rows[i].delivered.None?
    ensures CleanupOk(outbox + rows, cleanup)
  {
    var after := outbox + rows;
    forall t: Txn
      ensures CleanupDue(outbox, t) <==> CleanupDue(after, t)
    {
      if CleanupDue(outbox, t) {
        var k :| Superseded(outbox, k, t) && outbox[k].delivered.Some?;
        assert Superseded(after, k, t) && after[k].delivered.Some?;
      }
      if CleanupDue(after, t) {
        var k :| Superseded(after, k, t) && after[k].delivered.Some?;
        assert Superseded(outbox, k, t) && outbox[k].delivered.Some?;
      }
    }
  }

  lemma GrowsKnown(j: Journal, k: Journal, conv: ConvKey, e: EventId)
    requires Grows(j, k) && Known(j, conv, e) && InputsOk(k.runs, k.inputs)
    ensures Known(k, conv, e)
  {
    if r: RunId :| r in j.inputs && IsRun(j.runs, r) && j.inputs[r] == e && j.runs[r].conv == conv {
      assert r in k.inputs && IsRun(k.runs, r) && k.inputs[r] == e && k.runs[r].conv == conv;
    } else {
      var i :| 0 <= i < |j.steers| && IsRun(j.runs, j.steers[i].run) && j.steers[i].event == e && j.runs[j.steers[i].run].conv == conv;
      assert SteerGrows(j, k, i);
    }
  }

  lemma GrowsReported(j: Journal, k: Journal, e: EventId, emoji: Emoji)
    requires Grows(j, k) && Reported(j, e, emoji) && SteersOk(j.runs, j.inputs, j.steers)
    ensures Reported(k, e, emoji)
  {
    var r :| Owns(j, r, e) && !j.runs[r].status.Active() && emoji == EmojiFor(j.runs[r].status);
    if r in j.inputs && j.inputs[r] == e {
      assert Owns(k, r, e);
    } else {
      var i :| 0 <= i < |j.steers| && j.steers[i].event == e && j.steers[i].run == r && j.steers[i].status.Taken?;
      assert SteerGrows(j, k, i);
      assert Owns(k, r, e);
    }
  }

  /** Transactions that queue only text keep every reaction property. */
  lemma TextKeeps(j: Journal, k: Journal, rows: seq<OutRow>)
    requires ReactionsOk(j) && Grows(j, k) && InputsOk(k.runs, k.inputs) && SteersOk(j.runs, j.inputs, j.steers)
    requires k.outbox == j.outbox + rows && k.cleanup == j.cleanup
    requires forall i :: 0 <= i < |rows| ==> rows[i].delivered.None? && rows[i].reaction.None?
    ensures ReactionsOk(k)
  {
    AppendCleanup(j.outbox, rows, j.cleanup);
    assert forall t :: Reacts(k.outbox, t) ==> t < |j.outbox| && Reacts(j.outbox, t) && k.outbox[t] == j.outbox[t];
    forall t | Reacts(k.outbox, t)
      ensures Known(k, k.outbox[t].conv, k.outbox[t].reaction.value.event)
      ensures k.outbox[t].reaction.value.emoji.Terminal() ==> Reported(k, k.outbox[t].reaction.value.event, k.outbox[t].reaction.value.emoji)
    {
      assert Reacts(j.outbox, t);
      GrowsKnown(j, k, k.outbox[t].conv, k.outbox[t].reaction.value.event);
      if k.outbox[t].reaction.value.emoji.Terminal() {
        GrowsReported(j, k, k.outbox[t].reaction.value.event, k.outbox[t].reaction.value.emoji);
      }
    }
  }

  /** Nothing is queued. */
  lemma NoneKeeps(j: Journal, k: Journal)
    requires ReactionsOk(j) && Grows(j, k) && InputsOk(k.runs, k.inputs) && SteersOk(j.runs, j.inputs, j.steers)
    requires k.outbox == j.outbox && k.cleanup == j.cleanup
    ensures ReactionsOk(k)
  {
    assert k.outbox == j.outbox + [];
    TextKeeps(j, k, []);
  }

  /** One new reaction nobody has made yet. */
  lemma ReactKeeps(j: Journal, row: OutRow)
    requires ReactionsOk(j) && row.delivered.None? && row.reaction.Some?
    requires Unreported(j.outbox, row.reaction.value)
    requires Known(j, row.conv, row.reaction.value.event)
    requires row.reaction.value.emoji.Terminal() ==> Reported(j, row.reaction.value.event, row.reaction.value.emoji)
    ensures ReactionsOk(j.(outbox := j.outbox + [row]))
  {
    var k := j.(outbox := j.outbox + [row]);
    AppendCleanup(j.outbox, [row], j.cleanup);
    assert forall t :: Reacts(k.outbox, t) ==> t == |j.outbox| || (Reacts(j.outbox, t) && k.outbox[t] == j.outbox[t]);
    forall t | Reacts(k.outbox, t)
      ensures Known(k, k.outbox[t].conv, k.outbox[t].reaction.value.event)
      ensures k.outbox[t].reaction.value.emoji.Terminal() ==> Reported(k, k.outbox[t].reaction.value.event, k.outbox[t].reaction.value.emoji)
    {
      assert Known(j, k.outbox[t].conv, k.outbox[t].reaction.value.event);
      KnownReads(j, k);
    }
  }

  lemma KnownReads(j: Journal, k: Journal)
    requires k.runs == j.runs && k.inputs == j.inputs && k.steers == j.steers
    ensures forall c, e :: Known(j, c, e) ==> Known(k, c, e)
    ensures forall e, emoji :: Reported(j, e, emoji) ==> Reported(k, e, emoji)
  {
    forall e, emoji | Reported(j, e, emoji)
      ensures Reported(k, e, emoji)
    {
      var r :| Owns(j, r, e) && !j.runs[r].status.Active() && emoji == EmojiFor(j.runs[r].status);
      assert Owns(k, r, e);
    }
  }

  ghost predicate Unreported(outbox: seq<OutRow>, reaction: Reaction) {
    forall t :: Reacts(outbox, t) ==> !SameReport(outbox[t].reaction.value, reaction)
  }

  ghost predicate Reportable(j: Journal, conv: ConvKey, reaction: Reaction) {
    Known(j, conv, reaction.event) && Reported(j, reaction.event, reaction.emoji) && Unreported(j.outbox, reaction)
  }

  lemma StillReportable(j: Journal, row: OutRow, conv: ConvKey, reaction: Reaction)
    requires Reportable(j, conv, reaction) && row.reaction.Some? && row.reaction.value.event != reaction.event
    ensures Reportable(j.(outbox := j.outbox + [row]), conv, reaction)
  {
    var k := j.(outbox := j.outbox + [row]);
    KnownReads(j, k);
    forall t | Reacts(k.outbox, t)
      ensures !SameReport(k.outbox[t].reaction.value, reaction)
    {
      assert t < |j.outbox| ==> Reacts(j.outbox, t);
    }
  }

  ghost predicate AllReportable(j: Journal, conv: ConvKey, events: seq<EventId>, emoji: Emoji) {
    && (forall i, k :: 0 <= i < k < |events| ==> events[i] != events[k])
    && (forall i :: 0 <= i < |events| ==> Reportable(j, conv, Reaction(events[i], emoji)))
  }

  lemma RestReportable(j: Journal, conv: ConvKey, events: seq<EventId>, emoji: Emoji)
    requires events != [] && AllReportable(j, conv, events, emoji)
    ensures AllReportable(j.(outbox := j.outbox + [ReactionRow(conv, events[0], emoji)]), conv, events[1..], emoji)
  {
    var row := ReactionRow(conv, events[0], emoji);
    forall i | 0 <= i < |events[1..]|
      ensures Reportable(j.(outbox := j.outbox + [row]), conv, Reaction(events[1..][i], emoji))
    {
      StillReportable(j, row, conv, Reaction(events[i + 1], emoji));
    }
  }

  lemma FirstReported(j: Journal, conv: ConvKey, events: seq<EventId>, emoji: Emoji)
    requires ReactionsOk(j) && emoji.Terminal() && events != [] && AllReportable(j, conv, events, emoji)
    ensures ReactionsOk(j.(outbox := j.outbox + [ReactionRow(conv, events[0], emoji)]))
  {
    assert Reportable(j, conv, Reaction(events[0], emoji));
    ReactKeeps(j, ReactionRow(conv, events[0], emoji));
  }

  /** A series of new reactions with one emoji to distinct messages. */
  lemma {:induction false} ReactAllKeeps(j: Journal, conv: ConvKey, events: seq<EventId>, emoji: Emoji)
    requires ReactionsOk(j) && emoji.Terminal() && AllReportable(j, conv, events, emoji)
    ensures ReactionsOk(j.(outbox := j.outbox + ReactionRows(conv, events, emoji)))
    decreases |events|
  {
    if events == [] {
      assert j.outbox + ReactionRows(conv, events, emoji) == j.outbox;
    } else {
      var k := j.(outbox := j.outbox + [ReactionRow(conv, events[0], emoji)]);
      FirstReported(j, conv, events, emoji);
      RestReportable(j, conv, events, emoji);
      ReactAllKeeps(k, conv, events[1..], emoji);
      RowsSplit(conv, events, emoji);
      Regrouped(j.outbox, ReactionRow(conv, events[0], emoji), ReactionRows(conv, events[1..], emoji));
    }
  }

  lemma Regrouped(outbox: seq<OutRow>, row: OutRow, rest: seq<OutRow>)
    ensures outbox + ([row] + rest) == (outbox + [row]) + rest
  {}

  lemma RowsSplit(conv: ConvKey, events: seq<EventId>, emoji: Emoji)
    requires events != []
    ensures ReactionRows(conv, events, emoji) == [ReactionRow(conv, events[0], emoji)] + ReactionRows(conv, events[1..], emoji)
  {}

  /** Acknowledging a row creates exactly the cleanup it makes due. */
  lemma DeliverKeeps(j: Journal, txn: Txn, event: EventId)
    requires ReactionsOk(j)
    ensures ReactionsOk(Deliver(j, txn, event))
  {
    if txn < |j.outbox| && j.outbox[txn].delivered.None? {
      var k := Deliver(j, txn, event);
      var targets := CleanupTargets(j, txn, |j.outbox|);
      KnownReads(j, k);
      assert forall t :: Reacts(k.outbox, t) <==> Reacts(j.outbox, t);
      DeliverCleanup(j.outbox, k.outbox, j.cleanup, txn, event, targets);
    }
  }

  lemma DeliverCleanup(outbox: seq<OutRow>, after: seq<OutRow>, cleanup: seq<CleanupRow>, txn: Txn, e: EventId, targets: seq<Txn>)
    requires CleanupOk(outbox, cleanup) && txn < |outbox| && outbox[txn].delivered.None?
    requires after == outbox[txn := outbox[txn].(delivered := Some(e))]
    requires forall t :: t in targets <==> 0 <= t < |outbox| && Superseded(outbox, txn, t) && !HasCleanup(cleanup, t)
    requires forall i, k :: 0 <= i < k < |targets| ==> targets[i] < targets[k]
    ensures CleanupOk(after, cleanup + CleanupRows(targets))
  {
    var rows := cleanup + CleanupRows(targets);
    forall t: Txn
      ensures HasCleanup(rows, t) <==> HasCleanup(cleanup, t) || t in targets
    {
      if HasCleanup(cleanup, t) {
        var i :| 0 <= i < |cleanup| && cleanup[i].target == t;
        assert rows[i].target == t;
      }
      if t in targets {
        var i :| 0 <= i < |targets| && targets[i] == t;
        assert rows[|cleanup| + i].target == t;
      }
    }
    forall t: Txn
      ensures CleanupDue(after, t) <==> CleanupDue(outbox, t) || Superseded(outbox, txn, t)
    {
      if CleanupDue(outbox, t) {
        var k :| Superseded(outbox, k, t) && outbox[k].delivered.Some?;
        assert Superseded(after, k, t) && after[k].delivered.Some?;
      }
      if Superseded(outbox, txn, t) {
        assert Superseded(after, txn, t) && after[txn].delivered.Some?;
      }
      if CleanupDue(after, t) {
        var k :| Superseded(after, k, t) && after[k].delivered.Some?;
        assert Superseded(outbox, k, t);
      }
    }
    assert forall i :: 0 <= i < |cleanup| ==> HasCleanup(cleanup, rows[i].target);
    assert forall i :: |cleanup| <= i < |rows| ==> rows[i].target == targets[i - |cleanup|] && rows[i].target in targets;
  }
}
