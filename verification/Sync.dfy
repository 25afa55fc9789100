/** Following timelines: staging, decoding, ingesting, checkpointing, with crashes possible anywhere. */
module Sync {
  import opened Model

  // ---------------------------------------------------------------- the server

  /** A timeline event: an encrypted message as it was sent, or anything else. */
  datatype Raw = Raw(id: EventId, encrypted: bool)

  type Timelines = map<RoomId, seq<Raw>>

  /** A sync token stands for a position in every room's timeline. */
  type Token = map<RoomId, nat>

  function At(token: Token, room: RoomId): nat {
    if room in token then token[room] else 0
  }

  datatype Window = Window(limited: bool, from: Option<nat>, events: seq<Raw>)

  datatype Batch = Batch(since: Option<Token>, next: Token, rooms: seq<RoomId>, windows: map<RoomId, Window>)

  datatype Page = Page(chunk: seq<Raw>, end: Option<nat>)

  ghost predicate Distinct(tl: seq<Raw>) {
    forall i, k :: 0 <= i < |tl| && 0 <= k < |tl| && tl[i].id == tl[k].id ==> i == k
  }

  /** The window is the end of the timeline up to `n`; unless it is limited it starts where the last sync ended. */
  ghost predicate HonestWindow(tl: seq<Raw>, w: Window, since: Option<nat>, n: nat) {
    && |w.events| <= n <= |tl| && w.events == tl[n - |w.events|..n]
    && (since.Some? && !w.limited ==> n - |w.events| == since.value)
    && (w.limited && w.from.Some? ==> w.from.value == n - |w.events|)
  }

  ghost predicate Honest(server: Timelines, b: Batch) {
    && (forall room :: room in b.rooms <==> room in b.windows)
    && (forall i, k :: 0 <= i < k < |b.rooms| ==> b.rooms[i] != b.rooms[k])
    && (forall room :: room in b.windows ==> room in server)
    && (forall room :: room in server ==>
          && At(b.next, room) <= |server[room]|
          && (b.since.Some? ==> At(b.since.value, room) <= At(b.next, room))
          && (room in b.windows ==>
                HonestWindow(server[room], b.windows[room], if b.since.Some? then Some(At(b.since.value, room)) else None, At(b.next, room)))
          && (room !in b.windows && b.since.Some? ==> At(b.since.value, room) == At(b.next, room)))
  }

  const PAGE: nat := 50
  const PAGES: nat := 10

  /** Backward pages: the events just before a token, newest first, and the token before them. */
  ghost predicate HonestPages(tl: seq<Raw>, page: nat -> Page) {
    forall p: nat :: p <= |tl| ==>
      && |page(p).chunk| <= p && |page(p).chunk| <= PAGE
      && (forall i :: 0 <= i < |page(p).chunk| ==> page(p).chunk[i] == tl[p - 1 - i])
      && (page(p).end.Some? ==> page(p).end.value == p - |page(p).chunk|)
  }

  /** How far back a number of pages reaches, if an empty page or the end of history does not stop it. */
  function Lowest(page: nat -> Page, from: nat, pages: nat): int
    decreases pages
  {
    var read := |page(from).chunk|;
    if pages == 0 || read == 0 then from
    else if page(from).end.None? || read > from then from - read
    else Lowest(page, from - read, pages - 1)
  }

  /** The server fills its pages and always says where the next one starts. */
  ghost predicate FullPages(tl: seq<Raw>, page: nat -> Page) {
    forall p: nat :: p <= |tl| ==> |page(p).chunk| == (if p < PAGE then p else PAGE) && page(p).end.Some?
  }

  /** With full pages the walk covers the last 500 events. */
  lemma {:induction false} FullReach(tl: seq<Raw>, page: nat -> Page, from: nat, pages: nat)
    requires FullPages(tl, page) && from <= |tl|
    ensures Lowest(page, from, pages) == if from < PAGE * pages then 0 else from - PAGE * pages
    decreases pages
  {
    if pages > 0 && from > 0 {
      FullReach(tl, page, from - |page(from).chunk|, pages - 1);
    }
  }

  /** So what can be found is what is among them. */
  lemma FoundRecently(tl: seq<Raw>, page: nat -> Page, from: nat, anchor: EventId)
    requires FullPages(tl, page) && from <= |tl|
    ensures Found(tl, anchor, Lowest(page, from, PAGES), from) <==> Found(tl, anchor, from - PAGE * PAGES, from)
  {
    FullReach(tl, page, from, PAGES);
  }

  predicate Found(tl: seq<Raw>, anchor: EventId, from: int, to: nat) {
    exists a :: from <= a < to && 0 <= a < |tl| && tl[a].id == anchor
  }

  datatype SyncError = NoAnchor | NoToken | EmptyPage | HistoryEnd | TooLong | AwaitingKey | Undecodable | NotOffered | Mismatch

  // ---------------------------------------------------------------- closing a gap

  /** Walk back from a limited window until the last event already processed. */
  method BackfillToAnchor(ghost tl: seq<Raw>, start: nat, anchor: EventId, page: nat -> Page) returns (r: Result<seq<Raw>, SyncError>)
    requires start <= |tl| && HonestPages(tl, page)
    ensures r.Success? ==> exists a :: 0 <= a < start && tl[a].id == anchor && r.value == tl[a + 1..start]
    ensures r.Success? <==> Found(tl, anchor, Lowest(page, start, PAGES), start)
  {
    var token: nat := start;
    var reversed: seq<Raw> := [];
    for n := 0 to PAGES
      invariant token + |reversed| == start
      invariant forall i :: 0 <= i < |reversed| ==> reversed[i] == tl[start - 1 - i]
      invariant forall i :: token <= i < start ==> tl[i].id != anchor
      invariant Lowest(page, token, PAGES - n) == Lowest(page, start, PAGES)
    {
      var chunk := page(token).chunk;
      if chunk == [] {
        return Failure(EmptyPage);
      }
      LowestBelow(page, token, PAGES - n);
      for k := 0 to |chunk|
        invariant token - k + |reversed| == start
        invariant forall i :: 0 <= i < |reversed| ==> reversed[i] == tl[start - 1 - i]
        invariant forall i :: token - k <= i < start ==> tl[i].id != anchor
      {
        if chunk[k].id == anchor {
          ghost var a := token - 1 - k;
          var missing := seq(|reversed|, i requires 0 <= i < |reversed| => reversed[|reversed| - 1 - i]);
          assert tl[a].id == anchor && missing == tl[a + 1..start];
          return Success(missing);
        }
        reversed := reversed + [chunk[k]];
      }
      if page(token).end.None? {
        return Failure(HistoryEnd);
      }
      token := page(token).end.value;
    }
    r := Failure(TooLong);
  }

  lemma {:induction false} LowestBelow(page: nat -> Page, from: nat, pages: nat)
    ensures Lowest(page, from, pages) <= from
    ensures pages > 0 ==> Lowest(page, from, pages) <= from - |page(from).chunk|
    decreases pages
  {
    var read := |page(from).chunk|;
    if !(pages == 0 || read == 0 || page(from).end.None? || read > from) { LowestBelow(page, from - read, pages - 1); }
  }

  // ---------------------------------------------------------------- what a crash may leave

  datatype Ready = Ready(room: RoomId, event: EventId)

  type Key = (RoomId, EventId)

  /** Everything committed, and what has become of every event so far; `admitted` lists the messages let in, as it happened. */
  datatype Snapshot = Snapshot(
    cursor: Option<Token>,
    staged: Option<Batch>,
    anchors: map<RoomId, EventId>,
    archived: set<EventId>,
    inbox: set<Key>,
    baseline: Token,
    offered: set<EventId>,
    dismissed: set<EventId>,
    admitted: seq<Key>)
  {
    /** Offered for admission, archived as unreadable, or found to be no message. */
    predicate Settled(e: EventId) {
      e in offered || e in archived || e in dismissed
    }
  }

  /** Encrypted events of a stretch of a timeline that nothing has become of. */
  ghost predicate Lost(s: Snapshot, tl: seq<Raw>, from: int, to: int, i: int) {
    from <= i < to && 0 <= i < |tl| && tl[i].encrypted && !s.Settled(tl[i].id)
  }

  /** Nothing between the baseline and the cursor is lost, and the next stretch is still staged. */
  ghost predicate Safe(server: Timelines, s: Snapshot) {
    && (s.cursor.Some? ==>
          forall room :: room in server ==>
            && At(s.cursor.value, room) <= |server[room]|
            && forall i :: !Lost(s, server[room], At(s.baseline, room), At(s.cursor.value, room), i))
    && (s.cursor.None? ==> s.anchors == map[])
    && (forall room :: room in s.anchors && s.cursor.Some? ==>
          room in server && Found(server[room], s.anchors[room], 0, At(s.cursor.value, room)))
    && (s.staged.Some? ==> Honest(server, s.staged.value) && s.staged.value.since == s.cursor)
  }

  ghost predicate GrownServer(server: Timelines, later: Timelines) {
    && server.Keys == later.Keys
    && forall room :: room in server ==> server[room] <= later[room]
  }

  /** What was safe stays so while timelines grow. */
  lemma SafeGrows(server: Timelines, later: Timelines, s: Snapshot)
    requires Safe(server, s) && GrownServer(server, later)
    ensures Safe(later, s)
  {
    forall room, i | s.cursor.Some? && room in later
      ensures !Lost(s, later[room], At(s.baseline, room), At(s.cursor.value, room), i)
    {
      assert server[room] <= later[room];
      assert !Lost(s, server[room], At(s.baseline, room), At(s.cursor.value, room), i);
    }
    forall room | room in s.anchors && s.cursor.Some?
      ensures Found(later[room], s.anchors[room], 0, At(s.cursor.value, room))
    {
      var a :| 0 <= a < At(s.cursor.value, room) && 0 <= a < |server[room]| && server[room][a].id == s.anchors[room];
      assert server[room] <= later[room] && later[room][a].id == s.anchors[room];
    }
    if s.staged.Some? { HonestGrows(server, later, s.staged.value); }
  }

  lemma HonestGrows(server: Timelines, later: Timelines, b: Batch)
    requires Honest(server, b) && GrownServer(server, later)
    ensures Honest(later, b)
  {
    forall room | room in later && room in b.windows
      ensures HonestWindow(later[room], b.windows[room], if b.since.Some? then Some(At(b.since.value, room)) else None, At(b.next, room))
    {
      var tl, w, n := server[room], b.windows[room], At(b.next, room);
      assert tl <= later[room];
      assert later[room][n - |w.events|..n] == tl[n - |w.events|..n];
    }
  }

  /** What the next checkpoint still owes: every event of the staged stretch is settled or about to be offered. */
  ghost predicate Covers(server: Timelines, s: Snapshot, b: Batch, ready: seq<Ready>) {
    b.since.Some? ==>
      forall room, i :: room in server && Lost(s, server[room], At(b.since.value, room), At(b.next, room), i) ==>
        Ready(room, server[room][i].id) in ready
  }

  /** The next checkpoint owes nothing. */
  ghost predicate Paid(server: Timelines, s: Snapshot, b: Batch) {
    b.since.Some? ==>
      forall room, i :: room in server ==> !Lost(s, server[room], At(b.since.value, room), At(b.next, room), i)
  }

  /** Messages of one room are offered in the order of its timeline. */
  ghost predicate InOrder(server: Timelines, ready: seq<Ready>) {
    forall p, q :: 0 <= p < q < |ready| && ready[p].room == ready[q].room ==> Earlier(server, ready[p].room, ready[p].event, ready[q].event)
  }

  ghost predicate Earlier(server: Timelines, room: RoomId, e: EventId, o: EventId) {
    room in server ==> forall i, k :: EventAt(server[room], i, e) && EventAt(server[room], k, o) ==> i < k
  }

  predicate EventAt(tl: seq<Raw>, i: int, e: EventId) {
    0 <= i < |tl| && tl[i].id == e
  }

  /** Deciding what an event is needs its key: keys may be missing now and arrive later. */
  datatype Decoded = Spoken | Nothing | MissingKey | Hard

  /** What the checkpoint makes of a batch: the cursor moves on, and each room's newest event becomes its anchor. */
  function NewAnchors(b: Batch, n: nat): map<RoomId, EventId>
    requires n <= |b.rooms| && forall room :: room in b.rooms ==> room in b.windows
  {
    if n == 0 then map[]
    else
      var room := b.rooms[n - 1];
      var events := b.windows[room].events;
      var front := NewAnchors(b, n - 1);
      if events == [] then front else front[room := events[|events| - 1].id]
  }

  function Checkpointed(s: Snapshot, b: Batch): Snapshot
    requires forall room :: room in b.rooms ==> room in b.windows
  {
    s.(cursor := Some(b.next), staged := None, anchors := s.anchors + NewAnchors(b, |b.rooms|),
       baseline := if b.since.None? then b.next else s.baseline)
  }

  lemma {:induction false} AnchorsFound(server: Timelines, b: Batch, n: nat)
    requires Honest(server, b) && n <= |b.rooms|
    ensures forall room :: room in NewAnchors(b, n) ==> room in server && Found(server[room], NewAnchors(b, n)[room], 0, At(b.next, room))
  {
    if n > 0 {
      AnchorsFound(server, b, n - 1);
      var room := b.rooms[n - 1];
      var w := b.windows[room];
      if w.events != [] {
        var last := At(b.next, room) - 1;
        assert HonestWindow(server[room], w, if b.since.Some? then Some(At(b.since.value, room)) else None, At(b.next, room));
        assert server[room][last] == w.events[|w.events| - 1];
      }
    }
  }

  /** Moving the cursor is safe once everything due has been settled. */
  lemma CheckpointSafe(server: Timelines, s: Snapshot)
    requires Safe(server, s) && s.staged.Some? && Paid(server, s, s.staged.value)
    ensures Safe(server, Checkpointed(s, s.staged.value))
  {
    var b := s.staged.value;
    var t := Checkpointed(s, b);
    AnchorsFound(server, b, |b.rooms|);
    forall room, i | room in server
      ensures !Lost(t, server[room], At(t.baseline, room), At(b.next, room), i)
    {
      if b.since.Some? {
        assert !Lost(s, server[room], At(b.since.value, room), At(b.next, room), i);
        assert !Lost(s, server[room], At(s.baseline, room), At(s.cursor.value, room), i);
      }
    }
    forall room | room in t.anchors
      ensures room in server && Found(server[room], t.anchors[room], 0, At(b.next, room))
    {
      if room !in NewAnchors(b, |b.rooms|) {
        assert Found(server[room], s.anchors[room], 0, At(s.cursor.value, room));
      }
    }
  }

  /** Settling more never loses anything. */
  lemma SettleSafe(server: Timelines, s: Snapshot, t: Snapshot)
    requires Safe(server, s)
    requires t == s.(archived := t.archived, offered := t.offered, dismissed := t.dismissed, inbox := t.inbox, admitted := t.admitted)
    requires s.archived <= t.archived && s.offered <= t.offered && s.dismissed <= t.dismissed
    ensures Safe(server, t)
  {
    forall room, i | s.cursor.Some? && room in server
      ensures !Lost(t, server[room], At(t.baseline, room), At(t.cursor.value, room), i)
    {
      assert !Lost(s, server[room], At(s.baseline, room), At(s.cursor.value, room), i);
    }
  }

  lemma StageSafe(server: Timelines, s: Snapshot, b: Batch)
    requires Safe(server, s) && Honest(server, b) && b.since == s.cursor
    ensures Safe(server, s.(staged := Some(b)))
  {
    var t := s.(staged := Some(b));
    forall room, i | s.cursor.Some? && room in server
      ensures !Lost(t, server[room], At(t.baseline, room), At(t.cursor.value, room), i)
    {
      assert !Lost(s, server[room], At(s.baseline, room), At(s.cursor.value, room), i);
    }
  }

  // ---------------------------------------------------------------- commits

  /** The transactions of the loop. */
  datatype Commit = Staging(batch: Batch) | Archiving(event: EventId) | Dismissing(event: EventId) | Offering(message: Ready, admit: bool) | Moving

  const FRESH := Snapshot(None, None, map[], {}, {}, map[], {}, {}, [])

  /** No message is let in twice, and the inbox remembers exactly those let in. */
  ghost predicate AdmittedOnce(s: Snapshot) {
    && (forall m :: m in s.admitted <==> m in s.inbox)
    && (forall i, k :: 0 <= i < k < |s.admitted| ==> s.admitted[i] != s.admitted[k])
  }

  ghost predicate Sound(server: Timelines, s: Snapshot) {
    Safe(server, s) && AdmittedOnce(s)
  }

  ghost predicate MayCommit(server: Timelines, s: Snapshot, c: Commit) {
    match c
    case Staging(batch) => s.staged.None? && Honest(server, batch) && batch.since == s.cursor
    case Moving => s.staged.Some? && Honest(server, s.staged.value) && Paid(server, s, s.staged.value)
    case _ => true
  }

  function Offered(s: Snapshot, message: Ready, admit: bool): Snapshot {
    var key := (message.room, message.event);
    s.(offered := s.offered + {message.event},
       inbox := if admit then s.inbox + {key} else s.inbox,
       admitted := if admit && key !in s.inbox then s.admitted + [key] else s.admitted)
  }

  function Committed(s: Snapshot, c: Commit): Snapshot {
    match c
    case Staging(batch) => s.(staged := Some(batch))
    case Archiving(e) => s.(archived := s.archived + {e})
    case Dismissing(e) => s.(dismissed := s.dismissed + {e})
    case Offering(message, admit) => Offered(s, message, admit)
    case Moving => if s.staged.Some? && WellFormed(s.staged.value) then Checkpointed(s, s.staged.value) else s
  }

  predicate WellFormed(b: Batch) {
    forall room :: room in b.rooms ==> room in b.windows
  }

  ghost predicate CommitsBy(server: Timelines, s: Snapshot, c: Commit, t: Snapshot) {
    MayCommit(server, s, c) && t == Committed(s, c)
  }

  lemma CommitSound(server: Timelines, s: Snapshot, c: Commit, t: Snapshot)
    requires Sound(server, s) && CommitsBy(server, s, c, t)
    ensures Sound(server, t)
  {
    match c
    case Staging(batch) => StageSafe(server, s, batch);
    case Moving => CheckpointSafe(server, s);
    case _ => SettleSafe(server, s, t);
  }

  ghost predicate Continues(server: Timelines, s: Snapshot, t: Snapshot) {
    exists c :: CommitsBy(server, s, c, t)
  }

  /** Each snapshot is the one before it with one more transaction. */
  ghost predicate Chain(server: Timelines, commits: seq<Snapshot>) {
    commits != [] && forall n, m :: 0 <= n < |commits| && m == n + 1 && m < |commits| ==> Continues(server, commits[n], commits[m])
  }

  lemma ChainMore(server: Timelines, commits: seq<Snapshot>, c: Commit, t: Snapshot)
    requires Chain(server, commits) && CommitsBy(server, commits[|commits| - 1], c, t)
    ensures Chain(server, commits + [t])
  {
    var all := commits + [t];
    forall n, m | 0 <= n < |all| && m == n + 1 && m < |all| ensures Continues(server, all[n], all[m]) {
      if m == |commits| {
        assert all[n] == commits[|commits| - 1] && all[m] == t;
      } else {
        assert all[n] == commits[n] && all[m] == commits[m];
      }
    }
  }

  /** Wherever a process that began soundly ends, what it leaves is sound. */
  lemma {:induction false} ChainSound(server: Timelines, commits: seq<Snapshot>, n: nat)
    requires Chain(server, commits) && Sound(server, commits[0]) && n < |commits|
    ensures Sound(server, commits[n])
  {
    if n > 0 {
      ChainSound(server, commits, n - 1);
      assert Continues(server, commits[n - 1], commits[n]);
      var c :| CommitsBy(server, commits[n - 1], c, commits[n]);
      CommitSound(server, commits[n - 1], c, commits[n]);
    }
  }

  /** Lives of the process, one after the other: each starts from the last commit of the one before, wherever that was. */
  ghost predicate Lives(server: Timelines, lives: seq<seq<Snapshot>>) {
    && (forall n :: 0 <= n < |lives| ==> Chain(server, lives[n]))
    && (lives != [] ==> lives[0] != [] && lives[0][0] == FRESH)
    && (forall n, m :: 0 <= n < |lives| && m == n + 1 && m < |lives| ==> Reopens(lives[n], lives[m]))
  }

  predicate Reopens(life: seq<Snapshot>, next: seq<Snapshot>) {
    life != [] && next != [] && next[0] == life[|life| - 1]
  }

  /** So a process may always start from what it finds. */
  lemma {:induction false} EveryLifeSound(server: Timelines, lives: seq<seq<Snapshot>>, n: nat, k: nat)
    requires Lives(server, lives) && n < |lives| && k < |lives[n]|
    ensures Sound(server, lives[n][k])
    decreases n
  {
    if n == 0 {
      FreshSound(server);
    } else {
      assert Reopens(lives[n - 1], lives[n]);
      EveryLifeSound(server, lives, n - 1, |lives[n - 1]| - 1);
    }
    ChainSound(server, lives[n], k);
  }

  // ---------------------------------------------------------------- whole runs, through any number of crashes

  /** What a process remembers between a poll and its checkpoint, and no crash leaves: what it is offering, and how far it got. */
  datatype Work = Work(ready: seq<Ready>, done: nat)

  /** The server, what is on disk, and what the running process remembers. */
  datatype World = World(server: Timelines, disk: Snapshot, memory: Option<Work>)

  datatype Step =
    | Save(commit: Commit)
    | Collect(ready: seq<Ready>)
    | Crash
    | Grow(later: Timelines)

  /**
   A poll stages a batch, settles what it decodes and collects the rest; collected messages are offered in turn; the
   cursor moves when all have been offered. The process may end at any point, and timelines grow meanwhile.
   */
  ghost predicate MayStep(w: World, step: Step) {
    match step
    case Save(Staging(batch)) => w.memory.None? && w.disk.staged.None? && Honest(w.server, batch) && batch.since == w.disk.cursor
    case Save(Offering(message, _)) => w.memory.Some? && w.memory.value.done < |w.memory.value.ready| && message == w.memory.value.ready[w.memory.value.done]
    case Save(Moving) => w.memory.Some? && w.memory.value.done == |w.memory.value.ready|
    case Save(_) => w.memory.None?
    case Collect(ready) => w.memory.None? && w.disk.staged.Some? && Covers(w.server, w.disk, w.disk.staged.value, ready)
    case Crash => true
    case Grow(later) => GrownServer(w.server, later)
  }

  /** What is still to be offered covers what is still owed. */
  ghost predicate MemoryOk(w: World) {
    w.memory.Some? ==>
      && w.disk.staged.Some? && Covers(w.server, w.disk, w.disk.staged.value, w.memory.value.ready)
      && w.memory.value.done <= |w.memory.value.ready|
      && forall n :: 0 <= n < w.memory.value.done ==> w.memory.value.ready[n].event in w.disk.offered
  }

  ghost predicate WorldOk(w: World) {
    Sound(w.server, w.disk) && MemoryOk(w)
  }

  lemma MayMove(w: World)
    requires WorldOk(w) && MayStep(w, Save(Moving))
    ensures MayCommit(w.server, w.disk, Moving)
  {
    NothingOwed(w.server, w.disk, w.disk, w.disk.staged.value, w.memory.value.ready);
  }

  ghost function After(w: World, step: Step): World
    requires MayStep(w, step)
  {
    match step
    case Save(c) =>
      World(w.server, Committed(w.disk, c),
            match c
            case Offering(_, _) => Some(Work(w.memory.value.ready, w.memory.value.done + 1))
            case Moving => None
            case _ => w.memory)
    case Collect(ready) => w.(memory := Some(Work(ready, 0)))
    case Crash => w.(memory := None)
    case Grow(later) => w.(server := later)
  }

  lemma MayMoveIf(w: World, c: Commit)
    requires WorldOk(w) && MayStep(w, Save(c))
    ensures MayCommit(w.server, w.disk, c)
  {
    if c.Moving? { MayMove(w); }
  }

  lemma CoversGrows(server: Timelines, later: Timelines, s: Snapshot, b: Batch, ready: seq<Ready>)
    requires Covers(server, s, b, ready) && Honest(server, b) && GrownServer(server, later)
    ensures Covers(later, s, b, ready)
  {
    forall room, i | b.since.Some? && room in later && Lost(s, later[room], At(b.since.value, room), At(b.next, room), i)
      ensures Ready(room, later[room][i].id) in ready
    {
      assert server[room] <= later[room] && At(b.next, room) <= |server[room]|;
      assert Lost(s, server[room], At(b.since.value, room), At(b.next, room), i);
    }
  }

  lemma SaveOk(w: World, c: Commit)
    requires WorldOk(w) && MayStep(w, Save(c))
    ensures WorldOk(After(w, Save(c)))
  {
    MayMoveIf(w, c);
    CommitSound(w.server, w.disk, c, Committed(w.disk, c));
  }

  lemma StepOk(w: World, step: Step)
    requires WorldOk(w) && MayStep(w, step)
    ensures WorldOk(After(w, step))
  {
    match step
    case Save(c) => SaveOk(w, c);
    case Grow(later) =>
      SafeGrows(w.server, later, w.disk);
      if w.memory.Some? { CoversGrows(w.server, later, w.disk, w.disk.staged.value, w.memory.value.ready); }
    case _ =>
  }

  ghost predicate Steps(v: World, step: Step, w: World) {
    MayStep(v, step) && w == After(v, step)
  }

  /** Steps that can follow one another, from a first start with nothing on disk. */
  ghost predicate Runs(server: Timelines, steps: seq<Step>, w: World)
    decreases |steps|
  {
    if steps == [] then w == World(server, FRESH, None)
    else
      var front, last := steps[..|steps| - 1], steps[|steps| - 1];
      exists v {:trigger Steps(v, last, w)} :: Runs(server, front, v) && Steps(v, last, w)
  }

  /** Every encrypted message after the baseline that the cursor has passed has been offered, archived or found to be none. */
  ghost predicate NothingLost(server: Timelines, s: Snapshot) {
    s.cursor.Some? ==>
      forall room, i :: room in server && At(s.baseline, room) <= i < At(s.cursor.value, room) && i < |server[room]| && server[room][i].encrypted ==>
        s.Settled(server[room][i].id)
  }

  /**
   Through any number of crashes, restarts and retries: nothing between the baseline and the cursor is ever lost, and
   no message is admitted twice over all lives of the process.
   */
  lemma NeverLost(server: Timelines, steps: seq<Step>, w: World)
    requires Runs(server, steps, w)
    ensures NothingLost(w.server, w.disk) && AdmittedOnce(w.disk)
  {
    RunOk(server, steps, w);
    forall room, i | w.disk.cursor.Some? && room in w.server && At(w.disk.baseline, room) <= i < At(w.disk.cursor.value, room)
                     && i < |w.server[room]| && w.server[room][i].encrypted
      ensures w.disk.Settled(w.server[room][i].id)
    {
      assert !Lost(w.disk, w.server[room], At(w.disk.baseline, room), At(w.disk.cursor.value, room), i);
    }
  }

  lemma {:induction false} RunOk(server: Timelines, steps: seq<Step>, w: World)
    requires Runs(server, steps, w)
    ensures WorldOk(w)
    decreases |steps|
  {
    if steps == [] {
      FreshSound(server);
    } else {
      var front, last := steps[..|steps| - 1], steps[|steps| - 1];
      var v :| Runs(server, front, v) && Steps(v, last, w);
      RunOk(server, steps[..|steps| - 1], v);
      StepOk(v, steps[|steps| - 1]);
    }
  }

  lemma FreshSound(server: Timelines)
    ensures Sound(server, FRESH)
  {}

  // ---------------------------------------------------------------- the loop

  ghost predicate Before(tl: seq<Raw>, room: RoomId, ready: seq<Ready>, lo: int) {
    forall x, i :: x in ready && x.room == room && EventAt(tl, i, x.event) ==> i < lo
  }

  /** Every encrypted event of a stretch is settled or about to be offered. */
  ghost predicate Accounted(s: Snapshot, tl: seq<Raw>, room: RoomId, from: int, to: int, ready: seq<Ready>) {
    forall i :: Lost(s, tl, from, to, i) ==> Ready(room, tl[i].id) in ready
  }

  lemma AppendInOrder(server: Timelines, room: RoomId, ready: seq<Ready>, at: int)
    requires room in server && Distinct(server[room]) && 0 <= at < |server[room]|
    requires InOrder(server, ready) && Before(server[room], room, ready, at)
    ensures InOrder(server, ready + [Ready(room, server[room][at].id)])
    ensures Before(server[room], room, ready + [Ready(room, server[room][at].id)], at + 1)
  {
    var last := Ready(room, server[room][at].id);
    var all := ready + [last];
    forall p, q | 0 <= p < q < |all| && all[p].room == all[q].room
      ensures Earlier(server, all[p].room, all[p].event, all[q].event)
    {
      if q == |ready| { assert ready[p] in ready; }
    }
  }

  /** A room's share of a batch starts where the last sync ended, overlaps the anchor, or follows it directly. */
  ghost predicate Joins(tl: seq<Raw>, n: nat, w: Window, anchor: Option<EventId>, lo: nat) {
    || (!w.limited && lo == n - |w.events|)
    || (anchor.Some? && lo == n - |w.events| && exists i :: 0 <= i < |w.events| && w.events[i].id == anchor.value)
    || (anchor.Some? && 0 < lo <= |tl| && tl[lo - 1].id == anchor.value)
  }

  /** So there is no gap before it. */
  lemma Joined(server: Timelines, s: Snapshot, b: Batch, room: RoomId, lo: nat)
    requires Safe(server, s) && s.staged == Some(b) && b.since.Some? && room in b.windows
    requires Distinct(server[room])
    requires Joins(server[room], At(b.next, room), b.windows[room], if room in s.anchors then Some(s.anchors[room]) else None, lo)
    ensures lo <= At(b.since.value, room)
  {
    var tl, w, n := server[room], b.windows[room], At(b.next, room);
    assert HonestWindow(tl, w, Some(At(b.since.value, room)), n);
    if room in s.anchors {
      var a :| 0 <= a < At(b.since.value, room) && a < |tl| && tl[a].id == s.anchors[room];
      if i :| 0 <= i < |w.events| && w.events[i].id == s.anchors[room] {
        assert tl[n - |w.events| + i] == w.events[i];
      }
    }
  }

  class Follower {
    var cursor: Option<Token>
    var staged: Option<Batch>
    var anchors: map<RoomId, EventId>
    var archived: set<EventId>
    var inbox: set<Key>

    ghost var baseline: Token
    ghost var offered: set<EventId>
    ghost var dismissed: set<EventId>
    ghost var admitted: seq<Key>
    /** What was on disk when the process began and after each commit: what a crash at that point leaves. */
    ghost var commits: seq<Snapshot>

    ghost function View(): Snapshot
      reads this
    {
      Snapshot(cursor, staged, anchors, archived, inbox, baseline, offered, dismissed, admitted)
    }

    /** The process has only made commits the loop may make; what is in its fields is the last of them. */
    ghost predicate Valid(server: Timelines)
      reads this
    {
      Sound(server, View()) && Chain(server, commits) && commits[|commits| - 1] == View()
    }

    /** A process starts from what the one before it left on disk, wherever that one ended; the first from nothing. */
    constructor (ghost server: Timelines, s: Snapshot)
      requires Sound(server, s)
      ensures Valid(server) && View() == s && commits == [s]
    {
      cursor, staged, anchors, archived, inbox := s.cursor, s.staged, s.anchors, s.archived, s.inbox;
      baseline, offered, dismissed, admitted, commits := s.baseline, s.offered, s.dismissed, s.admitted, [s];
    }

    /** One more commit. */
    ghost method Record(server: Timelines, before: Snapshot, c: Commit)
      requires Sound(server, before) && Chain(server, commits) && commits[|commits| - 1] == before && CommitsBy(server, before, c, View())
      modifies this`commits
      ensures Valid(server) && old(commits) <= commits
    {
      CommitSound(server, before, c, View());
      ChainMore(server, commits, c, View());
      commits := commits + [View()];
    }

    /** Put a fresh response aside before anything is done with it; an unfinished one is taken up again instead. */
    method Stage(ghost server: Timelines, response: Batch)
      requires Valid(server)
      requires staged.None? ==> Honest(server, response) && response.since == cursor
      modifies this`staged, this`commits
      ensures Valid(server) && staged == Some(if old(staged).Some? then old(staged).value else response)
      ensures old(commits) <= commits
    {
      if staged.None? {
        ghost var before := View();
        staged := Some(response);
        Record(server, before, Staging(response));
      }
    }

    /** Decode one encrypted event; `true` means it is a message to offer. */
    method Decode(ghost server: Timelines, room: RoomId, raw: Raw, decode: EventId -> Decoded, quarantine: bool)
      returns (r: Result<bool, SyncError>)
      requires Valid(server)
      modifies this`archived, this`dismissed, this`commits
      ensures Valid(server) && old(archived) <= archived && old(dismissed) <= dismissed && old(commits) <= commits
      ensures r.Success? <==> !decode(raw.id).Hard? && (decode(raw.id).MissingKey? ==> quarantine)
      ensures r.Success? ==> (r.value <==> decode(raw.id).Spoken?) && (!r.value ==> View().Settled(raw.id))
      ensures !(decode(raw.id).MissingKey? && quarantine) ==> archived == old(archived)
    {
      ghost var before := View();
      match decode(raw.id) {
        case Spoken => r := Success(true);
        case Nothing =>
          dismissed := dismissed + {raw.id};
          Record(server, before, Dismissing(raw.id));
          r := Success(false);
        case MissingKey =>
          if quarantine {
            archived := archived + {raw.id};
            Record(server, before, Archiving(raw.id));
            r := Success(false);
          } else {
            r := Failure(AwaitingKey);
          }
        case Hard => r := Failure(Undecodable);
      }
    }

    /** Decode a stretch of one room's timeline, in order. */
    method DecodeAll(ghost server: Timelines, room: RoomId, events: seq<Raw>, ghost lo: nat, decode: EventId -> Decoded, quarantine: bool, before: seq<Ready>)
      returns (r: Result<seq<Ready>, SyncError>)
      requires Valid(server) && room in server && Distinct(server[room])
      requires lo + |events| <= |server[room]| && events == server[room][lo..lo + |events|]
      requires InOrder(server, before) && Before(server[room], room, before, lo)
      modifies this`archived, this`dismissed, this`commits
      ensures Valid(server) && old(archived) <= archived && old(dismissed) <= dismissed && old(commits) <= commits
      ensures r.Success? ==>
        && before <= r.value && InOrder(server, r.value) && Before(server[room], room, r.value, lo + |events|)
        && (forall x :: x in r.value ==> x in before || x.room == room)
        && Accounted(View(), server[room], room, lo, lo + |events|, r.value)
    {
      var ready := before;
      for k := 0 to |events|
        invariant Valid(server) && old(archived) <= archived && old(dismissed) <= dismissed && old(commits) <= commits
        invariant before <= ready && InOrder(server, ready) && Before(server[room], room, ready, lo + k)
        invariant forall x :: x in ready ==> x in before || x.room == room
        invariant Accounted(View(), server[room], room, lo, lo + k, ready)
      {
        var raw := events[k];
        assert server[room][lo + k] == raw;
        if !raw.encrypted {
          continue;
        }
        ghost var was := View();
        var d := Decode(server, room, raw, decode, quarantine);
        if d.Failure? {
          return Failure(d.error);
        }
        ghost var now, here, next := View(), lo + k, lo + k + 1;
        forall i | Lost(now, server[room], lo, next, i) ensures i == here || Lost(was, server[room], lo, here, i) {}
        if d.value {
          AppendInOrder(server, room, ready, lo + k);
          ready := ready + [Ready(room, raw.id)];
        }
      }
      r := Success(ready);
    }

    /** The events between the anchor and the window, when the window is limited and does not reach the anchor. */
    static method Missing(ghost tl: seq<Raw>, ghost n: nat, window: Window, anchor: Option<EventId>, page: nat -> Page)
      returns (r: Result<seq<Raw>, SyncError>, ghost lo: nat)
      requires HonestPages(tl, page) && |window.events| <= n <= |tl|
      requires window.limited && window.from.Some? ==> window.from.value == n - |window.events|
      ensures r.Success? ==> lo <= n - |window.events| && r.value == tl[lo..n - |window.events|] && Joins(tl, n, window, anchor, lo)
    {
      lo := n - |window.events|;
      var joined := anchor.Some? && exists i :: 0 <= i < |window.events| && window.events[i].id == anchor.value;
      if !window.limited || joined {
        return Success([]), lo;
      }
      if anchor.None? {
        return Failure(NoAnchor), lo;
      }
      if window.from.None? {
        return Failure(NoToken), lo;
      }
      r := BackfillToAnchor(tl, window.from.value, anchor.value, page);
      if r.Success? {
        ghost var a :| 0 <= a < window.from.value && tl[a].id == anchor.value && r.value == tl[a + 1..window.from.value];
        lo := a + 1;
      }
    }

    /** One room of a batch: what is missing before its window, then the window. */
    method PollRoom(ghost server: Timelines, room: RoomId, decode: EventId -> Decoded, quarantine: bool, page: nat -> Page, before: seq<Ready>)
      returns (r: Result<seq<Ready>, SyncError>)
      requires Valid(server) && staged.Some? && staged.value.since.Some? && room in staged.value.windows
      requires Distinct(server[room]) && HonestPages(server[room], page)
      requires InOrder(server, before) && forall x :: x in before ==> x.room != room
      modifies this`archived, this`dismissed, this`commits
      ensures Valid(server) && old(archived) <= archived && old(dismissed) <= dismissed && old(commits) <= commits
      ensures r.Success? ==>
        && before <= r.value && InOrder(server, r.value)
        && (forall x :: x in r.value ==> x in before || x.room == room)
        && Accounted(View(), server[room], room, At(staged.value.since.value, room), At(staged.value.next, room), r.value)
    {
      ghost var tl, n := server[room], At(staged.value.next, room);
      var events := staged.value.windows[room].events;
      ghost var mid: nat := n - |events|;
      ghost var since := At(staged.value.since.value, room);
      assert HonestWindow(tl, staged.value.windows[room], Some(since), n);
      var gap, lo := Missing(tl, n, staged.value.windows[room], if room in anchors then Some(anchors[room]) else None, page);
      if gap.Failure? {
        return Failure(gap.error);
      }
      Joined(server, View(), staged.value, room, lo);
      r := DecodeAll(server, room, gap.value, lo, decode, quarantine, before);
      if r.Failure? {
        return;
      }
      ghost var was, first := View(), r.value;
      r := DecodeAll(server, room, events, mid, decode, quarantine, r.value);
      if r.Success? {
        Together(was, View(), tl, room, lo, At(staged.value.since.value, room), mid, n, first, r.value);
      }
    }

    /**
     One poll: stage a response, or take up the one left staged, and decode what it brings. The first response only
     sets the baseline. A failure leaves the batch staged for the next poll.
     */
    method Poll(ghost server: Timelines, response: Batch, decode: EventId -> Decoded, quarantine: bool, pages: RoomId -> nat -> Page)
      returns (r: Result<seq<Ready>, SyncError>)
      requires Valid(server)
      requires staged.None? ==> Honest(server, response) && response.since == cursor
      requires forall room :: room in server ==> Distinct(server[room]) && HonestPages(server[room], pages(room))
      modifies this`staged, this`archived, this`dismissed, this`commits
      ensures Valid(server) && staged == Some(if old(staged).Some? then old(staged).value else response)
      ensures old(archived) <= archived && old(commits) <= commits
      ensures r.Success? ==> InOrder(server, r.value) && Covers(server, View(), staged.value, r.value)
    {
      Stage(server, response);
      if staged.value.since.None? {
        return Success([]);
      }
      r := PollRooms(server, decode, quarantine, pages);
    }

    method PollRooms(ghost server: Timelines, decode: EventId -> Decoded, quarantine: bool, pages: RoomId -> nat -> Page)
      returns (r: Result<seq<Ready>, SyncError>)
      requires Valid(server) && staged.Some? && staged.value.since.Some?
      requires forall room :: room in server ==> Distinct(server[room]) && HonestPages(server[room], pages(room))
      modifies this`archived, this`dismissed, this`commits
      ensures Valid(server) && old(archived) <= archived && old(commits) <= commits
      ensures r.Success? ==> InOrder(server, r.value) && Covers(server, View(), staged.value, r.value)
    {
      var batch := staged.value;
      var ready: seq<Ready> := [];
      for n := 0 to |batch.rooms|
        invariant Valid(server) && old(archived) <= archived && old(commits) <= commits
        invariant InOrder(server, ready)
        invariant forall x :: x in ready ==> x.room in batch.rooms[..n]
        invariant RoomsAccounted(server, View(), batch, n, ready)
      {
        var room := batch.rooms[n];
        assert room in batch.rooms;
        ghost var was, first := View(), ready;
        var polled := PollRoom(server, room, decode, quarantine, pages(room), ready);
        if polled.Failure? {
          return Failure(polled.error);
        }
        ready := polled.value;
        OneMoreRoom(server, was, View(), batch, n, first, ready);
      }
      AllCovered(server, View(), batch, ready);
      r := Success(ready);
    }

    /** Offer one message: new to the inbox, it may be admitted; seen before, it cannot be. */
    method Offer(ghost server: Timelines, message: Ready, admit: bool)
      requires Valid(server)
      modifies this`inbox, this`offered, this`admitted, this`commits
      ensures Valid(server) && offered == old(offered) + {message.event} && old(commits) <= commits
      ensures inbox == if admit then old(inbox) + {(message.room, message.event)} else old(inbox)
      ensures admitted == if admit && (message.room, message.event) !in old(inbox) then old(admitted) + [(message.room, message.event)] else old(admitted)
    {
      ghost var before := View();
      if admit && (message.room, message.event) !in inbox {
        inbox := inbox + {(message.room, message.event)};
        admitted := admitted + [(message.room, message.event)];
      }
      offered := offered + {message.event};
      Record(server, before, Offering(message, admit));
    }

    /** Offer what a poll brought, in order; only when all of it has been handled does the cursor move. */
    method Ingest(ghost server: Timelines, ready: seq<Ready>, handled: nat -> bool, admit: nat -> bool) returns (ok: bool)
      requires Valid(server) && staged.Some? && Covers(server, View(), staged.value, ready)
      modifies this
      ensures Valid(server) && old(commits) <= commits && old(inbox) <= inbox && old(admitted) <= admitted
      ensures ok ==> cursor == Some(old(staged).value.next) && staged.None?
      ensures !ok ==> cursor == old(cursor) && staged == old(staged)
      ensures ok <==> forall n :: 0 <= n < |ready| ==> handled(n)
    {
      ghost var start := View();
      for n := 0 to |ready|
        invariant Valid(server) && old(commits) <= commits && old(inbox) <= inbox && old(admitted) <= admitted
        invariant cursor == old(cursor) && staged == old(staged) && archived == old(archived) && baseline == old(baseline)
        invariant anchors == old(anchors) && dismissed == old(dismissed) && old(offered) <= offered
        invariant forall m :: 0 <= m < n ==> ready[m].event in offered
        invariant forall m :: 0 <= m < n ==> handled(m)
      {
        if !handled(n) {
          return false;
        }
        Offer(server, ready[n], admit(n));
      }
      Checkpoint(server, ready, start);
      ok := true;
    }

    static method Newest(batch: Batch) returns (newest: map<RoomId, EventId>)
      requires forall room :: room in batch.rooms ==> room in batch.windows
      ensures newest == NewAnchors(batch, |batch.rooms|)
    {
      newest := map[];
      for n := 0 to |batch.rooms|
        invariant newest == NewAnchors(batch, n)
      {
        var room := batch.rooms[n];
        var events := batch.windows[room].events;
        if events != [] {
          newest := newest[room := events[|events| - 1].id];
        }
      }
    }

    /** Commit the cursor and each room's newest event as one unit. */
    method Checkpoint(ghost server: Timelines, ghost ready: seq<Ready>, ghost start: Snapshot)
      requires Valid(server) && staged.Some? && Covers(server, start, staged.value, ready)
      requires View() == start.(offered := offered, inbox := inbox, admitted := admitted) && start.offered <= offered
      requires forall n :: 0 <= n < |ready| ==> ready[n].event in offered
      modifies this`cursor, this`staged, this`anchors, this`baseline, this`commits
      ensures Valid(server) && View() == Checkpointed(old(View()), old(staged).value) && old(commits) <= commits
    {
      ghost var before := View();
      var batch := staged.value;
      NothingOwed(server, start, before, batch, ready);
      var newest := Newest(batch);
      if batch.since.None? {
        baseline := batch.next;
      }
      cursor, staged, anchors := Some(batch.next), None, anchors + newest;
      Record(server, before, Moving);
    }
  }

  lemma StillAccounted(was: Snapshot, now: Snapshot, tl: seq<Raw>, room: RoomId, from: int, to: int, first: seq<Ready>, all: seq<Ready>)
    requires Accounted(was, tl, room, from, to, first) && first <= all
    requires was.archived <= now.archived && was.dismissed <= now.dismissed && was.offered <= now.offered
    ensures Accounted(now, tl, room, from, to, all)
  {
    forall i | Lost(now, tl, from, to, i) ensures Ready(room, tl[i].id) in all {
      assert Lost(was, tl, from, to, i);
      assert Ready(room, tl[i].id) in first;
    }
  }

  ghost predicate RoomAccounted(server: Timelines, s: Snapshot, b: Batch, room: RoomId, ready: seq<Ready>) {
    b.since.Some? && room in server && Accounted(s, server[room], room, At(b.since.value, room), At(b.next, room), ready)
  }

  ghost predicate RoomsAccounted(server: Timelines, s: Snapshot, b: Batch, n: nat, ready: seq<Ready>) {
    forall m :: 0 <= m < n && m < |b.rooms| ==> RoomAccounted(server, s, b, b.rooms[m], ready)
  }

  lemma OneMoreRoom(server: Timelines, was: Snapshot, now: Snapshot, b: Batch, n: nat, first: seq<Ready>, all: seq<Ready>)
    requires RoomsAccounted(server, was, b, n, first) && n < |b.rooms| && RoomAccounted(server, now, b, b.rooms[n], all)
    requires first <= all && was.archived <= now.archived && was.dismissed <= now.dismissed && was.offered <= now.offered
    ensures RoomsAccounted(server, now, b, n + 1, all)
  {
    forall m | 0 <= m < n ensures RoomAccounted(server, now, b, b.rooms[m], all) {
      var room := b.rooms[m];
      StillAccounted(was, now, server[room], room, At(b.since.value, room), At(b.next, room), first, all);
    }
  }

  lemma AllCovered(server: Timelines, s: Snapshot, b: Batch, ready: seq<Ready>)
    requires Honest(server, b) && b.since.Some? && RoomsAccounted(server, s, b, |b.rooms|, ready)
    ensures Covers(server, s, b, ready)
  {
    forall room, i | room in server && Lost(s, server[room], At(b.since.value, room), At(b.next, room), i)
      ensures Ready(room, server[room][i].id) in ready
    {
      assert room in b.rooms;
      var m :| 0 <= m < |b.rooms| && b.rooms[m] == room;
      assert RoomAccounted(server, s, b, b.rooms[m], ready);
    }
  }

  /** Once everything ready has been offered, the batch owes nothing. */
  lemma NothingOwed(server: Timelines, start: Snapshot, s: Snapshot, b: Batch, ready: seq<Ready>)
    requires Covers(server, start, b, ready) && s == start.(offered := s.offered, inbox := s.inbox, admitted := s.admitted) && start.offered <= s.offered
    requires forall n :: 0 <= n < |ready| ==> ready[n].event in s.offered
    ensures Paid(server, s, b)
  {
    forall room, i | b.since.Some? && room in server
      ensures !Lost(s, server[room], At(b.since.value, room), At(b.next, room), i)
    {
      if Lost(start, server[room], At(b.since.value, room), At(b.next, room), i) {
        assert Ready(room, server[room][i].id) in ready;
      }
    }
  }

  lemma Together(was: Snapshot, now: Snapshot, tl: seq<Raw>, room: RoomId, lo: int, since: int, mid: int, hi: int, first: seq<Ready>, all: seq<Ready>)
    requires Accounted(was, tl, room, lo, mid, first) && Accounted(now, tl, room, mid, hi, all) && lo <= since
    requires first <= all && was.archived <= now.archived && was.dismissed <= now.dismissed && was.offered <= now.offered
    ensures Accounted(now, tl, room, since, hi, all)
  {
    forall i | Lost(now, tl, since, hi, i) ensures Ready(room, tl[i].id) in all {
      if i < mid {
        assert Lost(was, tl, lo, mid, i);
        assert Ready(room, tl[i].id) in first;
      } else {
        assert Lost(now, tl, mid, hi, i);
      }
    }
  }
}
