/** What becomes of the agent's words under automatic delivery: all of them are published, in order, once. */
module Output {
  import opened Model
  import opened Text
  import opened Context
  import opened Journal
  import opened Rules
  import opened Invariants
  import opened Steps
  import opened Recovery
  import opened History
  import Frames

  /** What one transaction adds to the words accepted from a run. */
  function AcceptedFrom(cfg: Config, j: Journal, op: Op, run: RunId): string {
    if op.Worker? && op.happened.Text? && op.happened.run == run && IsRun(j.runs, run)
       && j.runs[run].status.Active() && !j.runs[run].status.Cancelling? && DeliversText(cfg, j.runs[run].conv)
    then op.happened.text else []
  }

  ghost function Accepted(cfg: Config, ops: seq<Op>, run: RunId): string {
    if ops == [] then []
    else
      var front := ops[..|ops| - 1];
      Accepted(cfg, front, run) + AcceptedFrom(cfg, After(cfg, front), ops[|ops| - 1], run)
  }

  /** A boundary has emptied the run's buffer. */
  predicate Emptied(j: Journal, k: Journal, run: RunId) {
    Buffer(j.output, run) != [] && Buffer(k.output, run) == []
  }

  /** The pieces boundaries have cut the words into. */
  ghost function Segments(cfg: Config, ops: seq<Op>, run: RunId): seq<string> {
    if ops == [] then []
    else
      var front := ops[..|ops| - 1];
      var j := After(cfg, front);
      Segments(cfg, front, run) + (if Emptied(j, After(cfg, ops), run) then [Buffer(j.output, run)] else [])
  }

  /** From row `n` on, the rows of an outbox are the chunks of one text for one conversation. */
  ghost predicate ChunksAt(outbox: seq<OutRow>, conv: ConvKey, text: string, n: int) {
    RowsAt(outbox, conv, Chunks(text), n)
  }

  ghost predicate RowsAt(outbox: seq<OutRow>, conv: ConvKey, chunks: seq<string>, n: int) {
    && 0 <= n && n + |chunks| <= |outbox|
    && forall t :: n <= t < n + |chunks| ==>
         outbox[t].conv == conv && outbox[t].body == chunks[t - n] && outbox[t].reaction.None?
  }

  /** The text, if there is anything in it, was queued at or after row `from`, as consecutive chunks. */
  ghost predicate Posted(outbox: seq<OutRow>, conv: ConvKey, text: string, from: nat) {
    Blank(text) || exists n :: from <= n && ChunksAt(outbox, conv, text, n)
  }

  /** The segments were queued one after the other, all before row `before`; blank ones vanish. */
  ghost predicate PostedInOrder(outbox: seq<OutRow>, conv: ConvKey, segments: seq<string>, before: nat) {
    segments == [] ||
    var front, last := segments[..|segments| - 1], segments[|segments| - 1];
    if Blank(last) then PostedInOrder(outbox, conv, front, before)
    else exists n: nat :: n + |Chunks(last)| <= before && ChunksAt(outbox, conv, last, n) && PostedInOrder(outbox, conv, front, n)
  }

  // ---------------------------------------------------------------- one transaction

  /** Either words are added to the buffer, or the buffer is published and emptied. */
  ghost predicate Moves(j: Journal, k: Journal, run: RunId, accepted: string) {
    || Buffer(k.output, run) == Buffer(j.output, run) + accepted
    || ( accepted == [] && Buffer(k.output, run) == [] && IsRun(j.runs, run)
         && Posted(k.outbox, j.runs[run].conv, Buffer(j.output, run), |j.outbox|) )
  }

  lemma Unmoved(j: Journal, k: Journal, run: RunId)
    requires k.output == j.output
    ensures Moves(j, k, run, [])
  {
    assert Buffer(j.output, run) + [] == Buffer(j.output, run);
  }

  lemma {:induction false} BufferDrop(output: seq<OutputRow>, dropped: RunId, run: RunId)
    ensures Buffer(DropOutput(output, dropped), run) == if run == dropped then [] else Buffer(output, run)
  {
    if output != [] {
      var front, last := output[..|output| - 1], output[|output| - 1];
      BufferDrop(front, dropped, run);
      var rest := DropOutput(front, dropped);
      if last.run != dropped {
        assert (rest + [last])[..|rest + [last]| - 1] == rest;
      } else if run != dropped {
        assert Buffer(front, run) + [] == Buffer(front, run);
      }
    }
  }

  lemma BufferAppend(output: seq<OutputRow>, row: OutputRow, run: RunId)
    ensures Buffer(output + [row], run) == Buffer(output, run) + (if row.run == run then row.body else [])
  {
    assert (output + [row])[..|output + [row]| - 1] == output;
  }

  lemma RowsPosted(outbox: seq<OutRow>, conv: ConvKey, text: string, more: seq<OutRow>)
    ensures Posted(outbox + TextRows(conv, text) + more, conv, text, |outbox|)
  {
    RowsJoined(outbox, conv, Chunks(text), TextRows(conv, text), more);
    assert ChunksAt(outbox + TextRows(conv, text) + more, conv, text, |outbox|);
  }

  lemma RowsJoined(outbox: seq<OutRow>, conv: ConvKey, chunks: seq<string>, rows: seq<OutRow>, more: seq<OutRow>)
    requires |rows| == |chunks| && forall i :: 0 <= i < |rows| ==> rows[i] == OutRow(conv, chunks[i], None, None)
    ensures RowsAt(outbox + rows + more, conv, chunks, |outbox|)
  {
    var all := outbox + rows + more;
    assert forall t :: |outbox| <= t < |outbox| + |rows| ==> all[t] == rows[t - |outbox|];
  }

  /** A flush, and whatever else the transaction queues behind it. */
  lemma FlushMoves(j: Journal, k: Journal, flushed: RunId, run: RunId, more: seq<OutRow>)
    requires IsRun(j.runs, flushed)
    requires k.output == Flush(j, flushed, j.runs[flushed].conv).output
    requires k.outbox == Flush(j, flushed, j.runs[flushed].conv).outbox + more
    ensures Moves(j, k, run, [])
  {
    var conv, text := j.runs[flushed].conv, Buffer(j.output, flushed);
    BufferDrop(j.output, flushed, run);
    assert Buffer(j.output, run) + [] == Buffer(j.output, run);
    if run == flushed && !Blank(text) {
      RowsPosted(j.outbox, conv, text, more);
    }
  }

  lemma FlushObserved(j: Journal, run: RunId, conv: ConvKey)
    ensures Flush(Observe(j, run), run, conv) == Flush(j, run, conv).(batches := Observed(j.batches, run))
  {}

  lemma RequestRows(cfg: Config, j: Journal, run: RunId, conv: ConvKey, request: RequestId, title: string, options: seq<Choice>, now: int) returns (notice: seq<OutRow>)
    requires IsRun(j.runs, run)
    ensures var k := AddRequest(cfg, j, run, conv, request, title, options, now); k.output == j.output && k.outbox == j.outbox + notice
  {
    if AutomaticTools(cfg, j, conv) && AllowOption(options).Some? {
      notice := [];
    } else {
      notice := TextRows(conv, cfg.text(ApprovalRequested(request, title, options)));
    }
  }

  lemma AskShape(cfg: Config, j: Journal, asking: RunId, conv: ConvKey, request: RequestId, title: string, options: seq<Choice>, now: int) returns (notice: seq<OutRow>)
    requires IsRun(j.runs, asking) && AskPermission(cfg, j, asking, conv, request, title, options, now).Success?
    ensures var k := AskPermission(cfg, j, asking, conv, request, title, options, now).value;
            k.output == Flush(j, asking, conv).output && k.outbox == Flush(j, asking, conv).outbox + notice
  {
    FlushObserved(j, asking, conv);
    var j1 := Flush(Observe(j, asking), asking, conv);
    notice := RequestRows(cfg, j1, asking, conv, request, title, options, now);
    if FindApproval(j.approvals, request).Some? {
      notice := [];
      assert j1.outbox + [] == j1.outbox;
    }
  }

  lemma AskMoves(cfg: Config, j: Journal, asking: RunId, request: RequestId, title: string, options: seq<Choice>, now: int, run: RunId)
    requires IsRun(j.runs, asking)
    ensures var r := AskPermission(cfg, j, asking, j.runs[asking].conv, request, title, options, now);
            r.Success? ==> Moves(j, r.value, run, [])
  {
    var r := AskPermission(cfg, j, asking, j.runs[asking].conv, request, title, options, now);
    if r.Success? {
      var notice := AskShape(cfg, j, asking, j.runs[asking].conv, request, title, options, now);
      FlushMoves(j, r.value, asking, run, notice);
    }
  }

  lemma FinishMoves(j: Journal, ending: RunId, status: Status, run: RunId)
    requires IsRun(j.runs, ending)
    ensures var r := FinishRun(j, ending, j.runs[ending].conv, status); r.Success? ==> Moves(j, r.value, run, [])
  {
    var conv := j.runs[ending].conv;
    var r := FinishRun(j, ending, conv, status);
    if r.Success? {
      var flushed := Flush(j, ending, conv);
      var input := InputOf(j, ending, conv);
      var reports := if input.None? then []
                     else [ReactionRow(conv, input.value, EmojiFor(status))]
                          + ReactionRows(conv, TakenBy(j.steers, ending, input.value), EmojiFor(status));
      assert r.value.outbox == flushed.outbox + reports;
      FlushMoves(j, r.value, ending, run, reports);
    }
  }

  lemma SteeredMoves(cfg: Config, j: Journal, steered: RunId, e: EventId, run: RunId)
    requires IsRun(j.runs, steered)
    ensures Moves(j, TakeSteer(cfg, j, steered, j.runs[steered].conv, e), run, [])
  {
    var k := TakeSteer(cfg, j, steered, j.runs[steered].conv, e);
    if cfg.steering.AfterTurn? {
      assert k.outbox == Flush(j, steered, j.runs[steered].conv).outbox + [];
      FlushMoves(j, k, steered, run, []);
    } else {
      Unmoved(j, k, run);
    }
  }

  lemma WorkerMoves(cfg: Config, j: Journal, event: AgentEvent, now: int, run: RunId)
    ensures var r := OnAgentEvent(cfg, j, event, now);
            r.Success? ==> Moves(j, r.value, run, AcceptedFrom(cfg, j, Worker(event, now), run))
  {
    var r := OnAgentEvent(cfg, j, event, now);
    if r.Success? {
      Unmoved(j, j, run);
      if IsRun(j.runs, event.run) && j.runs[event.run].status.Active() && (j.runs[event.run].status.Cancelling? ==> event.Finished?) {
        match event
        case SessionReady(_, _) => Unmoved(j, r.value, run);
        case Text(_, text) =>
          BufferAppend(j.output, OutputRow(event.run, text), run);
          Unmoved(j, Observe(j, event.run), run);
        case Tool(_) =>
          assert r.value.outbox == Flush(j, event.run, j.runs[event.run].conv).outbox + [];
          FlushMoves(j, r.value, event.run, run, []);
        case Permission(_, request, title, options) => AskMoves(cfg, j, event.run, request, title, options, now, run);
        case Steered(_, e) => SteeredMoves(cfg, j, event.run, e, run);
        case Finished(_, status) => FinishMoves(j, event.run, status, run);
      }
    }
  }

  // ---------------------------------------------------------------- the restart

  lemma RowsStayAt(outbox: seq<OutRow>, after: seq<OutRow>, conv: ConvKey, chunks: seq<string>, n: int)
    requires RowsAt(outbox, conv, chunks, n) && OutboxGrows(outbox, after)
    ensures RowsAt(after, conv, chunks, n)
  {}

  lemma MorePosted(outbox: seq<OutRow>, conv: ConvKey, text: string, from: nat, rows: seq<OutRow>)
    requires Posted(outbox, conv, text, from)
    ensures Posted(outbox + rows, conv, text, from)
  {
    if !Blank(text) {
      var n :| from <= n && ChunksAt(outbox, conv, text, n);
      RowsStayAt(outbox, outbox + rows, conv, Chunks(text), n);
      assert ChunksAt(outbox + rows, conv, text, n);
    }
  }

  lemma {:induction false} FlushAllMoves(j: Journal, runs: seq<RunId>, run: RunId)
    requires forall r :: r in runs ==> IsRun(j.runs, r)
    ensures var k := FlushAll(j, runs);
            && |j.outbox| <= |k.outbox|
            && (run !in runs ==> Buffer(k.output, run) == Buffer(j.output, run))
            && (run in runs ==> Buffer(k.output, run) == [] && Posted(k.outbox, j.runs[run].conv, Buffer(j.output, run), |j.outbox|))
    decreases |runs|
  {
    if runs != [] {
      var front, last := runs[..|runs| - 1], runs[|runs| - 1];
      assert runs == front + [last];
      assert IsRun(j.runs, last);
      FlushAllMoves(j, front, run);
      var m, k := FlushAll(j, front), FlushAll(j, runs);
      BufferDrop(m.output, last, run);
      FlushedMoves(j, m, k, last, run, run in front);
    }
  }

  lemma FlushedMoves(j: Journal, m: Journal, k: Journal, last: RunId, run: RunId, done: bool)
    requires IsRun(j.runs, last) && m.runs == j.runs && k == Flush(m, last, j.runs[last].conv) && |j.outbox| <= |m.outbox|
    requires !done ==> Buffer(m.output, run) == Buffer(j.output, run)
    requires done ==> IsRun(j.runs, run) && Posted(m.outbox, j.runs[run].conv, Buffer(j.output, run), |j.outbox|)
    ensures |j.outbox| <= |k.outbox|
    ensures run == last || done ==> Posted(k.outbox, j.runs[run].conv, Buffer(j.output, run), |j.outbox|)
  {
    var text := Buffer(m.output, last);
    var rows := if Blank(text) then [] else TextRows(j.runs[last].conv, text);
    assert k.outbox == m.outbox + rows;
    if done {
      MorePosted(m.outbox, j.runs[run].conv, Buffer(j.output, run), |j.outbox|, rows);
    } else if run == last && !Blank(text) {
      RowsPosted(m.outbox, j.runs[last].conv, text, []);
      assert m.outbox + rows + [] == k.outbox;
    }
  }

  lemma NotBuffered(j: Journal, run: RunId)
    requires run !in Buffered(j, |j.output|) && forall i :: 0 <= i < |j.output| ==> IsRun(j.runs, j.output[i].run)
    ensures Buffer(j.output, run) == []
  {
    NothingBuffered(j.runs, j.output, run);
  }

  lemma RestartMoves(cfg: Config, j: Journal, torn: Torn, resets: seq<ConvKey>, run: RunId)
    requires Inv(cfg, j)
    ensures Moves(j, Restarted(cfg, j, torn, resets), run, [])
  {
    var m := ResetAll(TornBy(cfg, j, torn), resets);
    TornGrows(cfg, j, torn, resets);
    RecoverMoves(cfg, m, run);
    MovedLater(j, m, Recover(cfg, m).journal, run);
  }

  lemma TornGrows(cfg: Config, j: Journal, torn: Torn, resets: seq<ConvKey>)
    requires Inv(cfg, j)
    ensures var m := ResetAll(TornBy(cfg, j, torn), resets);
            && m.output == j.output && m.outbox == j.outbox && Grows(j, m)
            && forall i :: 0 <= i < |j.output| ==> IsRun(j.runs, j.output[i].run) && IsRun(m.runs, j.output[i].run)
  {
    var i := TornBy(cfg, j, torn);
    TornFollows(cfg, j, torn);
    Frames.TornFrame(cfg, j, torn);
    Frames.ResetFrame(i, resets);
    SameRunsGrow(j, i, ResetAll(i, resets));
  }

  lemma SameRunsGrow(j: Journal, i: Journal, m: Journal)
    requires Grows(j, i) && m == i.(convs := m.convs)
    ensures Grows(j, m)
  {
    forall n | 0 <= n < |j.steers| && IsRun(j.runs, j.steers[n].run) ensures SteerGrows(j, m, n) { assert SteerGrows(j, i, n); }
  }

  /** What was buffered before a crash was buffered still when the journal was opened again. */
  lemma MovedLater(j: Journal, m: Journal, k: Journal, run: RunId)
    requires m.output == j.output && m.outbox == j.outbox && Grows(j, m) && Moves(m, k, run, [])
    requires forall i :: 0 <= i < |j.output| ==> IsRun(j.runs, j.output[i].run)
    ensures Moves(j, k, run, [])
  {
    if !IsRun(j.runs, run) { NothingBuffered(j.runs, j.output, run); }
    assert Buffer(j.output, run) + [] == Buffer(j.output, run);
  }

  lemma RecoverMoves(cfg: Config, j: Journal, run: RunId)
    requires forall i :: 0 <= i < |j.output| ==> IsRun(j.runs, j.output[i].run)
    ensures Moves(j, Recover(cfg, j).journal, run, [])
  {
    var runs := Buffered(j, |j.output|);
    FlushAllMoves(j, runs, run);
    var j1 := FlushAll(j, runs);
    var active := ActiveRuns(j1.runs, |j1.runs|);
    var rows := InterruptAllRows(cfg, j1, active);
    InterruptAllRuns(cfg, j1, active);
    assert Recover(cfg, j).journal.output == j1.output && Recover(cfg, j).journal.outbox == j1.outbox + rows;
    if run in runs {
      MorePosted(j1.outbox, j.runs[run].conv, Buffer(j.output, run), |j.outbox|, rows);
    } else {
      Unmoved(j, j, run);
      NotBuffered(j, run);
    }
  }

  lemma NextMoves(cfg: Config, j: Journal, op: Op, run: RunId)
    requires Inv(cfg, j)
    ensures Moves(j, Next(cfg, j, op).journal, run, AcceptedFrom(cfg, j, op, run))
  {
    if op.Worker? {
      NewsMoves(cfg, j, op.happened, op.now, run);
    } else if op.Restart? {
      RestartMoves(cfg, j, op.torn, op.resets, run);
    } else {
      NextFrame(cfg, j, op);
      Unmoved(j, Next(cfg, j, op).journal, run);
    }
  }

  lemma NewsMoves(cfg: Config, j: Journal, event: AgentEvent, now: int, run: RunId)
    ensures Moves(j, OrElse(j, OnAgentEvent(cfg, j, event, now)).journal, run, AcceptedFrom(cfg, j, Worker(event, now), run))
  {
    Unmoved(j, j, run);
    WorkerMoves(cfg, j, event, now, run);
    AcceptedOnce(cfg, j, event, now, run);
  }

  /** A text event never fails, so what is accepted is always journaled. */
  lemma AcceptedOnce(cfg: Config, j: Journal, event: AgentEvent, now: int, run: RunId)
    ensures OnAgentEvent(cfg, j, event, now).Failure? ==> AcceptedFrom(cfg, j, Worker(event, now), run) == []
  {}

  // ---------------------------------------------------------------- whole histories

  /** Published segments followed by the buffer are exactly what was accepted from the run. */
  lemma {:induction false} WordsConserved(cfg: Config, ops: seq<Op>, j: Journal, run: RunId)
    requires Lives(cfg, ops, j)
    ensures Concat(Segments(cfg, ops, run)) + Buffer(j.output, run) == Accepted(cfg, ops, run)
    decreases |ops|
  {
    if ops != [] {
      var front, op := ops[..|ops| - 1], ops[|ops| - 1];
      var i := After(cfg, front);
      WordsConserved(cfg, front, i, run);
      Reachable(cfg, front, i);
      NextMoves(cfg, i, op, run);
      NextConserved(i, j, run, Segments(cfg, front, run), AcceptedFrom(cfg, i, op, run));
    }
  }

  lemma NextConserved(j: Journal, k: Journal, run: RunId, segments: seq<string>, accepted: string)
    requires Moves(j, k, run, accepted)
    ensures Concat(segments + (if Emptied(j, k, run) then [Buffer(j.output, run)] else [])) + Buffer(k.output, run)
         == Concat(segments) + Buffer(j.output, run) + accepted
  {
    var held := Buffer(j.output, run);
    ConcatAppend(segments, [held]);
    assert Concat([held]) == held + Concat([]);
    assert segments + [] == segments;
    assert Concat(segments) + (held + accepted) == Concat(segments) + held + accepted;
  }

  lemma {:induction false} OutboxKeepsPosted(outbox: seq<OutRow>, after: seq<OutRow>, conv: ConvKey, segments: seq<string>, before: nat, later: nat)
    requires PostedInOrder(outbox, conv, segments, before) && OutboxGrows(outbox, after) && before <= later
    ensures PostedInOrder(after, conv, segments, later)
    decreases |segments|
  {
    if segments != [] {
      var front, last := segments[..|segments| - 1], segments[|segments| - 1];
      if Blank(last) {
        OutboxKeepsPosted(outbox, after, conv, front, before, later);
      } else {
        var n: nat :| n + |Chunks(last)| <= before && ChunksAt(outbox, conv, last, n) && PostedInOrder(outbox, conv, front, n);
        OutboxKeepsPosted(outbox, after, conv, front, n, n);
        RowsStayAt(outbox, after, conv, Chunks(last), n);
      }
    }
  }

  /** The segments of a run stand in the outbox, in order. */
  ghost predicate AllPosted(j: Journal, run: RunId, segments: seq<string>) {
    IsRun(j.runs, run) && PostedInOrder(j.outbox, j.runs[run].conv, segments, |j.outbox|)
  }

  /** Every segment that says anything stands in the outbox as consecutive chunks of 1 to 6000 characters, in order. */
  lemma {:induction false} WordsPosted(cfg: Config, ops: seq<Op>, j: Journal, run: RunId)
    requires Lives(cfg, ops, j) && IsRun(j.runs, run)
    ensures AllPosted(j, run, Segments(cfg, ops, run))
    decreases |ops|
  {
    if ops != [] {
      var front, op := ops[..|ops| - 1], ops[|ops| - 1];
      var i := After(cfg, front);
      Reachable(cfg, front, i);
      NextGood(cfg, i, op);
      NextMoves(cfg, i, op, run);
      if IsRun(i.runs, run) {
        WordsPosted(cfg, front, i, run);
        NextPosted(i, j, run, Segments(cfg, front, run), AcceptedFrom(cfg, i, op, run));
      } else {
        NoSegments(cfg, front, i, run);
        NothingBuffered(i.runs, i.output, run);
      }
    }
  }

  lemma NextPosted(j: Journal, k: Journal, run: RunId, segments: seq<string>, accepted: string)
    requires IsRun(j.runs, run) && Grows(j, k) && OutboxGrows(j.outbox, k.outbox) && Moves(j, k, run, accepted)
    requires PostedInOrder(j.outbox, j.runs[run].conv, segments, |j.outbox|)
    ensures PostedInOrder(k.outbox, k.runs[run].conv, segments + (if Emptied(j, k, run) then [Buffer(j.output, run)] else []), |k.outbox|)
  {
    var conv, text := j.runs[run].conv, Buffer(j.output, run);
    if !Emptied(j, k, run) {
      OutboxKeepsPosted(j.outbox, k.outbox, conv, segments, |j.outbox|, |k.outbox|);
      assert segments + [] == segments;
    } else {
      var all := segments + [text];
      assert all[..|all| - 1] == segments;
      if Blank(text) {
        OutboxKeepsPosted(j.outbox, k.outbox, conv, segments, |j.outbox|, |k.outbox|);
      } else {
        var n :| |j.outbox| <= n && ChunksAt(k.outbox, conv, text, n);
        OutboxKeepsPosted(j.outbox, k.outbox, conv, segments, |j.outbox|, n);
      }
    }
  }

  lemma {:induction false} NothingBuffered(runs: seq<RunRow>, output: seq<OutputRow>, run: RunId)
    requires forall i :: 0 <= i < |output| ==> output[i].run != run
    ensures Buffer(output, run) == []
  {
    if output != [] { NothingBuffered(runs, output[..|output| - 1], run); }
  }

  lemma {:induction false} NoSegments(cfg: Config, ops: seq<Op>, j: Journal, run: RunId)
    requires Lives(cfg, ops, j) && !IsRun(j.runs, run)
    ensures Segments(cfg, ops, run) == []
    decreases |ops|
  {
    if ops != [] {
      var front := ops[..|ops| - 1];
      var i := After(cfg, front);
      Reachable(cfg, front, i);
      NextGood(cfg, i, ops[|ops| - 1]);
      NoSegments(cfg, front, i, run);
      NothingBuffered(i.runs, i.output, run);
    }
  }

  predicate Ended(j: Journal, run: RunId) {
    IsRun(j.runs, run) && !j.runs[run].status.Active()
  }

  /** A run that has ended keeps nothing back: its segments are everything accepted from it. */
  lemma NothingKeptBack(cfg: Config, ops: seq<Op>, j: Journal, run: RunId)
    requires Lives(cfg, ops, j) && Ended(j, run)
    ensures Concat(Segments(cfg, ops, run)) == Accepted(cfg, ops, run)
  {
    WordsConserved(cfg, ops, j, run);
    Reachable(cfg, ops, j);
    NothingBuffered(j.runs, j.output, run);
    assert Concat(Segments(cfg, ops, run)) + [] == Concat(Segments(cfg, ops, run));
  }
}
