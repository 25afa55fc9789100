/** Filtered search over a room's history, newest first, resumable from a cursor. */
module Search {
  import opened Model

  datatype Hit = Hit(event: EventId, sender: UserId, body: string, root: Option<EventId>, time: Option<int>)

  /** What decoding makes of a history event: unreadable, no message, or a message. */
  datatype Item = Undecryptable | Nothing | Message(hit: Hit)

  datatype Query = Query(text: string, sender: Option<UserId>, root: Option<EventId>, after: Option<int>, before: Option<int>)

  datatype Tok = Tok(name: string)

  datatype Page = Page(start: Tok, chunk: seq<Item>, end: Option<Tok>)

  /** Where to go on: a page token and how many of that page's events have been dealt with. */
  datatype Cursor = Cursor(from: Option<Tok>, skip: nat)

  datatype Found = Found(messages: seq<Hit>, next: Option<Cursor>, exhausted: bool, complete: bool, scanned: nat, undecryptable: nat)

  datatype SearchError = EmptyInterval | NoLimit

  // ---------------------------------------------------------------- matching

  predicate Contains(s: string, part: string) {
    part <= s || (s != [] && Contains(s[1..], part))
  }

  /** `q.text` is already in lower case. */
  predicate Matches(lower: string -> string, q: Query, hit: Hit) {
    && Contains(lower(hit.body), q.text)
    && (q.sender.Some? ==> hit.sender == q.sender.value)
    && (q.root.Some? ==> hit.root == q.root || hit.event == q.root.value)
    && (q.after.Some? ==> hit.time.Some? && hit.time.value >= q.after.value)
    && (q.before.Some? ==> hit.time.Some? && hit.time.value < q.before.value)
  }

  predicate Wanted(lower: string -> string, q: Query, item: Item) {
    item.Message? && Matches(lower, q, item.hit)
  }

  /** The messages of a stretch of history that match, in its order. */
  function Matching(lower: string -> string, q: Query, h: seq<Item>, from: nat, end: nat): (r: seq<Hit>)
    requires end <= |h|
    ensures from <= end ==> |r| <= end - from
    decreases end
  {
    if end <= from then []
    else Matching(lower, q, h, from, end - 1) + (if Wanted(lower, q, h[end - 1]) then [h[end - 1].hit] else [])
  }

  function Unreadable(h: seq<Item>, from: nat, end: nat): nat
    requires end <= |h|
    decreases end
  {
    if end <= from then 0 else Unreadable(h, from, end - 1) + (if h[end - 1].Undecryptable? then 1 else 0)
  }

  lemma {:induction false} MatchingJoin(lower: string -> string, q: Query, h: seq<Item>, a: nat, b: nat, c: nat)
    requires a <= b <= c <= |h|
    ensures Matching(lower, q, h, a, c) == Matching(lower, q, h, a, b) + Matching(lower, q, h, b, c)
    decreases c
  {
    if b < c { MatchingJoin(lower, q, h, a, b, c - 1); }
  }

  // ---------------------------------------------------------------- the server

  /**
   A fixed history, newest first, served by deterministic page tokens: a token stands for a place, a page starts at
   its token's place and can be had again from its own start token, and only the end of history yields an empty page
   or one without an end token.
   */
  ghost predicate Honest(h: seq<Item>, serve: Option<Tok> -> Page, place: Tok -> nat) {
    forall from: Option<Tok> {:trigger HonestPage(h, serve, place, from)} :: PlaceOf(place, from) <= |h| ==> HonestPage(h, serve, place, from)
  }

  ghost predicate HonestPage(h: seq<Item>, serve: Option<Tok> -> Page, place: Tok -> nat, from: Option<Tok>) {
    var page, p := serve(from), PlaceOf(place, from);
    && p + |page.chunk| <= |h| && page.chunk == h[p..p + |page.chunk|]
    && place(page.start) == p && serve(Some(page.start)) == page
    && (page.end.Some? ==> place(page.end.value) == p + |page.chunk|)
    && (page.end.None? || page.chunk == [] ==> p + |page.chunk| == |h|)
  }

  ghost function PlaceOf(place: Tok -> nat, from: Option<Tok>): nat {
    if from.Some? then place(from.value) else 0
  }

  ghost function Reached(place: Tok -> nat, c: Cursor): nat {
    PlaceOf(place, c.from) + c.skip
  }

  /** A cursor this search has handed out, or the one to begin with. */
  ghost predicate Usable(h: seq<Item>, serve: Option<Tok> -> Page, place: Tok -> nat, c: Cursor) {
    PlaceOf(place, c.from) <= |h| && c.skip <= |serve(c.from).chunk|
  }

  // ---------------------------------------------------------------- one call

  /** The call scanned the history from its cursor to `to`. */
  ghost predicate Scanned(h: seq<Item>, lower: string -> string, q: Query, from: nat, to: nat, messages: seq<Hit>, scanned: nat, undecryptable: nat) {
    && from <= to <= |h| && scanned == to - from
    && messages == Matching(lower, q, h, from, to) && undecryptable == Unreadable(h, from, to)
  }

  /** Scan one page from `skip` on, until it ends or enough messages have been found. */
  method ScanPage(ghost h: seq<Item>, lower: string -> string, q: Query, limit: nat, chunk: seq<Item>, skip: nat, ghost p: nat, ghost begin: nat,
                  messages0: seq<Hit>, scanned0: nat, undecryptable0: nat)
    returns (messages: seq<Hit>, scanned: nat, undecryptable: nat, index: nat)
    requires p + |chunk| <= |h| && chunk == h[p..p + |chunk|] && skip <= |chunk|
    requires Scanned(h, lower, q, begin, p + skip, messages0, scanned0, undecryptable0) && |messages0| < limit
    ensures skip <= index <= |chunk|
    ensures Scanned(h, lower, q, begin, p + index, messages, scanned, undecryptable)
    ensures |messages| <= limit && (|messages| < limit ==> index == |chunk|)
  {
    messages, scanned, undecryptable, index := messages0, scanned0, undecryptable0, skip;
    while index < |chunk|
      invariant skip <= index <= |chunk|
      invariant Scanned(h, lower, q, begin, p + index, messages, scanned, undecryptable) && |messages| < limit
    {
      assert chunk[index] == h[p + index];
      messages, undecryptable := ScanItem(h, lower, q, begin, p + index, chunk[index], messages, scanned, undecryptable);
      index, scanned := index + 1, scanned + 1;
      if |messages| >= limit {
        return;
      }
    }
  }

  method ScanItem(ghost h: seq<Item>, lower: string -> string, q: Query, ghost begin: nat, ghost at: nat, item: Item,
                  messages0: seq<Hit>, ghost scanned0: nat, undecryptable0: nat)
    returns (messages: seq<Hit>, undecryptable: nat)
    requires Scanned(h, lower, q, begin, at, messages0, scanned0, undecryptable0) && at < |h| && item == h[at]
    ensures Scanned(h, lower, q, begin, at + 1, messages, scanned0 + 1, undecryptable) && |messages| <= |messages0| + 1
  {
    messages, undecryptable := messages0, undecryptable0;
    match item
    case Undecryptable => undecryptable := undecryptable + 1;
    case Nothing =>
    case Message(hit) =>
      if Matches(lower, q, hit) {
        messages := messages + [hit];
      }
  }

  /** Where to go on after `index` events of a page, if anywhere. */
  function After(page: Page, index: nat): Option<Cursor> {
    if index < |page.chunk| then Some(Cursor(Some(page.start), index))
    else if page.end.Some? then Some(Cursor(page.end, 0))
    else None
  }

  lemma PageFacts(h: seq<Item>, serve: Option<Tok> -> Page, place: Tok -> nat, c: Cursor)
    requires Honest(h, serve, place) && Usable(h, serve, place, c)
    ensures var page, p := serve(c.from), PlaceOf(place, c.from);
      && p + |page.chunk| <= |h| && page.chunk == h[p..p + |page.chunk|] && Reached(place, c) == p + c.skip
      && (page.chunk == [] ==> p == |h|)
      && (page.end.Some? ==> place(page.end.value) == p + |page.chunk|)
  {
    assert HonestPage(h, serve, place, c.from);
  }

  lemma StartUsable(h: seq<Item>, serve: Option<Tok> -> Page, place: Tok -> nat)
    ensures Usable(h, serve, place, Cursor(None, 0)) && Reached(place, Cursor(None, 0)) == 0
  {}

  lemma NothingScanned(h: seq<Item>, lower: string -> string, q: Query, at: nat)
    requires at <= |h|
    ensures Scanned(h, lower, q, at, at, [], 0, 0)
  {}

  lemma AfterPage(h: seq<Item>, serve: Option<Tok> -> Page, place: Tok -> nat, from: Option<Tok>, index: nat)
    requires Honest(h, serve, place) && PlaceOf(place, from) <= |h| && index <= |serve(from).chunk|
    ensures var next := After(serve(from), index);
      && (next.Some? ==> Usable(h, serve, place, next.value) && Reached(place, next.value) == PlaceOf(place, from) + index)
      && (next.None? ==> PlaceOf(place, from) + index == |h|)
  {
    assert HonestPage(h, serve, place, from);
  }

  ghost predicate Returned(h: seq<Item>, serve: Option<Tok> -> Page, place: Tok -> nat, lower: string -> string, q: Query, limit: nat, begin: nat, to: nat, f: Found) {
    && Scanned(h, lower, q, begin, to, f.messages, f.scanned, f.undecryptable)
    && |f.messages| <= limit
    && (f.next.Some? ==> |f.messages| == limit && Usable(h, serve, place, f.next.value) && Reached(place, f.next.value) == to)
    && (f.next.None? ==> to == |h|)
    && (f.exhausted <==> f.next.None?)
    && (f.complete <==> f.next.None? && f.undecryptable == 0)
  }

  predicate EmptySpan(q: Query) {
    q.after.Some? && q.before.Some? && q.after.value >= q.before.value
  }

  /**
   One call scans on from the cursor until it has found as many messages as asked for, or history ends. What it
   returns is exactly what matches in between, and its cursor, if any, stands where it stopped. The page tokens it
   meets never repeat, so it always ends.
   */
  method SearchFrom(ghost h: seq<Item>, serve: Option<Tok> -> Page, ghost place: Tok -> nat, lower: string -> string, q: Query, limit: nat, from: Option<Cursor>)
    returns (r: Result<Found, SearchError>, ghost to: nat)
    requires Honest(h, serve, place) && (from.Some? ==> Usable(h, serve, place, from.value))
    ensures r.Failure? <==> EmptySpan(q) || limit == 0
    ensures r.Success? ==> Returned(h, serve, place, lower, q, limit, if from.Some? then Reached(place, from.value) else 0, to, r.value)
  {
    to := 0;
    if EmptySpan(q) {
      return Failure(EmptyInterval), to;
    }
    if limit == 0 {
      return Failure(NoLimit), to;
    }
    StartUsable(h, serve, place);
    var found;
    found, to := ScanFrom(h, serve, place, lower, q, limit, if from.Some? then from.value else Cursor(None, 0));
    r := Success(found);
  }

  method ScanFrom(ghost h: seq<Item>, serve: Option<Tok> -> Page, ghost place: Tok -> nat, lower: string -> string, q: Query, limit: nat, start: Cursor)
    returns (found: Found, ghost to: nat)
    requires Honest(h, serve, place) && Usable(h, serve, place, start) && limit > 0
    ensures Returned(h, serve, place, lower, q, limit, Reached(place, start), to, found)
  {
    var cursor := start;
    var messages, scanned, undecryptable := [], 0, 0;
    ghost var tokens: set<Tok> := {};
    ghost var begin := Reached(place, cursor);
    PageFacts(h, serve, place, cursor);
    NothingScanned(h, lower, q, begin);
    while true
      invariant Usable(h, serve, place, cursor)
      invariant Scanned(h, lower, q, begin, Reached(place, cursor), messages, scanned, undecryptable) && |messages| < limit
      invariant forall t :: t in tokens ==> place(t) <= PlaceOf(place, cursor.from)
      decreases |h| - PlaceOf(place, cursor.from)
    {
      var page := serve(cursor.from);
      var next;
      PageFacts(h, serve, place, cursor);
      messages, scanned, undecryptable, next, to := ScanOnce(h, serve, place, lower, q, limit, cursor, begin, messages, scanned, undecryptable);
      if |messages| >= limit {
        return Give(messages, next, scanned, undecryptable), to;
      }
      if page.end.None? || page.chunk == [] {
        return Give(messages, None, scanned, undecryptable), to;
      }
      assert page.end.value !in tokens;
      tokens := tokens + {page.end.value};
      cursor := next.value;
    }
  }

  /** One page: what it adds, and where to go on. */
  method ScanOnce(ghost h: seq<Item>, serve: Option<Tok> -> Page, ghost place: Tok -> nat, lower: string -> string, q: Query, limit: nat,
                  cursor: Cursor, ghost begin: nat, messages0: seq<Hit>, scanned0: nat, undecryptable0: nat)
    returns (messages: seq<Hit>, scanned: nat, undecryptable: nat, next: Option<Cursor>, ghost to: nat)
    requires Honest(h, serve, place) && Usable(h, serve, place, cursor)
    requires Scanned(h, lower, q, begin, Reached(place, cursor), messages0, scanned0, undecryptable0) && |messages0| < limit
    ensures Scanned(h, lower, q, begin, to, messages, scanned, undecryptable) && |messages| <= limit
    ensures next.Some? ==> Usable(h, serve, place, next.value) && Reached(place, next.value) == to
    ensures next.None? ==> to == |h|
    ensures var page := serve(cursor.from);
            |messages| < limit ==>
              && to == PlaceOf(place, cursor.from) + |page.chunk|
              && (page.end.Some? ==> next == Some(Cursor(page.end, 0)))
              && (page.end.None? || page.chunk == [] ==> to == |h|)
  {
    var page := serve(cursor.from);
    ghost var p := PlaceOf(place, cursor.from);
    var index;
    PageFacts(h, serve, place, cursor);
    messages, scanned, undecryptable, index :=
      ScanPage(h, lower, q, limit, page.chunk, cursor.skip, p, begin, messages0, scanned0, undecryptable0);
    to := p + index;
    AfterPage(h, serve, place, cursor.from, index);
    next := After(page, index);
    assert HonestPage(h, serve, place, cursor.from);
  }

  function Give(messages: seq<Hit>, next: Option<Cursor>, scanned: nat, undecryptable: nat): Found {
    Found(messages, next, next.None?, next.None? && undecryptable == 0, scanned, undecryptable)
  }

  // ---------------------------------------------------------------- following the cursor

  /**
   A client that follows the cursor to the end, with any positive limit for each call, gets exactly the matching
   messages of the whole history, each once, newest first.
   */
  method FollowCursors(ghost h: seq<Item>, serve: Option<Tok> -> Page, ghost place: Tok -> nat, lower: string -> string, q: Query, limit: nat -> nat)
    returns (all: seq<Hit>)
    requires Honest(h, serve, place) && !EmptySpan(q) && forall n :: limit(n) > 0
    ensures all == Matching(lower, q, h, 0, |h|)
  {
    all := [];
    var cursor: Option<Cursor> := None;
    var calls: nat := 0;
    ghost var reached: nat := 0;
    while true
      invariant reached <= |h| && all == Matching(lower, q, h, 0, reached)
      invariant cursor.Some? ==> Usable(h, serve, place, cursor.value)
      invariant reached == if cursor.Some? then Reached(place, cursor.value) else 0
      decreases |h| - reached, cursor.None?
    {
      var r, to := SearchFrom(h, serve, place, lower, q, limit(calls), cursor);
      var found := r.value;
      MatchingJoin(lower, q, h, 0, reached, to);
      all := all + found.messages;
      if found.next.None? {
        return;
      }
      cursor, calls, reached := found.next, calls + 1, to;
    }
  }
}
