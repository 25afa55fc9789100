/** Attributed agent input: a baseline once, then only unseen messages. */
module Context {
  import opened Model
  import opened Text

  datatype Prepared = Prepared(prompt: string, events: seq<Mark>, initial: bool, delivery: Delivery)

  /** What one pass over the history adds: prompt lines and ledger marks. */
  datatype Gathered = Gathered(lines: seq<string>, events: seq<Mark>)

  const INDENT := "    "

  /** Every line break of a body is followed by four spaces. */
  function Indent(body: string): string {
    if body == [] then []
    else if body[0] == '\n' then "\n" + INDENT + Indent(body[1..])
    else [body[0]] + Indent(body[1..])
  }

  function MessageLine(event: Incoming): string {
    event.sender.name + ": " + Indent(event.body)
    + (if event.attachment.Some? then "\n" + INDENT + "[attachment " + event.attachment.value.json + "]" else "")
  }

  predicate OfThread(event: Incoming, root: Option<EventId>) {
    root.Some? ==> event.event == root.value || event.threadRoot == root
  }

  /** History entries that may be quoted at all: encrypted, from a permitted sender, not the request. */
  predicate Quotable(policy: RoomPolicy, request: Incoming, event: Incoming) {
    event.event != request.event && event.encrypted && policy.PermitsContextSender(event.sender)
  }

  function MarkOf(event: Incoming): Mark {
    if event.unavailable then Gap(event.event) else Said(event.event)
  }

  function ContextLine(cfg: Config, event: Incoming): string {
    if event.unavailable then cfg.text(Unreadable(event.event, event.sender))
    else "[context] " + MessageLine(event)
  }

  function Gather(cfg: Config, policy: RoomPolicy, request: Incoming, history: seq<Incoming>, seen: set<Mark>)
    : (r: Result<Gathered, Error>)
    ensures r.Success? ==>
      && |r.value.lines| == |r.value.events|
      && (forall m :: m in r.value.events ==> m !in seen && m != Said(request.event))
      && (forall i, k :: 0 <= i < k < |r.value.events| ==> r.value.events[i] != r.value.events[k])
      && (forall i :: 0 <= i < |history| && Quotable(policy, request, history[i]) ==>
            MarkOf(history[i]) in seen || MarkOf(history[i]) in r.value.events)
  {
    if history == [] then Success(Gathered([], []))
    else
      var event := history[0];
      if event.room != request.room then Failure(WrongRoom)
      else if !Quotable(policy, request, event) then Gather(cfg, policy, request, history[1..], seen)
      else if !OfThread(event, request.threadRoot) then Failure(WrongThread)
      else if MarkOf(event) in seen then Gather(cfg, policy, request, history[1..], seen)
      else
        match Gather(cfg, policy, request, history[1..], seen + {MarkOf(event)})
        case Failure(e) => Failure(e)
        case Success(rest) =>
          Success(Gathered([ContextLine(cfg, event)] + rest.lines, [MarkOf(event)] + rest.events))
  }

  function Header(cfg: Config, policy: RoomPolicy, request: Incoming): seq<string> {
    [ cfg.text(Introduction(policy.delivery)) + "\n",
      "Matrix room: " + request.room.name + "\nThread: "
      + (if request.threadRoot.Some? then request.threadRoot.value else request.event).name ]
  }

  function Prepare(cfg: Config, request: Incoming, history: seq<Incoming>, known: set<Mark>, initial: bool)
    : (r: Result<Prepared, Error>)
  {
    if request.room !in cfg.rooms then Failure(UnknownRoom) else
      var policy := cfg.rooms[request.room];
      match Gather(cfg, policy, request, history, known)
      case Failure(e) => Failure(e)
      case Success(g) =>
        var header := if initial then Header(cfg, policy, request) else [];
        Success(Prepared(
                  JoinLines(header + g.lines + [MessageLine(request)]),
                  g.events + [Said(request.event)],
                  initial,
                  policy.delivery))
  }

  /** A gathered suffix behind what was already collected. */
  ghost function Behind(lines: seq<string>, events: seq<Mark>, rest: Result<Gathered, Error>): Result<Gathered, Error> {
    if rest.Failure? then rest
    else Success(Gathered(lines + rest.value.lines, events + rest.value.events))
  }

  lemma BehindOne(lines: seq<string>, events: seq<Mark>, line: string, mark: Mark, rest: Result<Gathered, Error>)
    ensures Behind(lines, events, Behind([line], [mark], rest)) == Behind(lines + [line], events + [mark], rest)
  {
    if rest.Success? {
      assert lines + ([line] + rest.value.lines) == lines + [line] + rest.value.lines;
      assert events + ([mark] + rest.value.events) == events + [mark] + rest.value.events;
    }
  }

  /** The printer as the bridge runs it: one pass, three accumulators. */
  method PreparePrompt(cfg: Config, request: Incoming, history: seq<Incoming>, known: set<Mark>, initial: bool)
    returns (r: Result<Prepared, Error>)
    ensures r == Prepare(cfg, request, history, known, initial)
  {
    if request.room !in cfg.rooms {
      return Failure(UnknownRoom);
    }
    var policy := cfg.rooms[request.room];
    var seen, events, lines := known, [], [];
    if initial {
      lines := Header(cfg, policy, request);
    }
    ghost var header := lines;
    ghost var all := Behind(header, [], Gather(cfg, policy, request, history, known));
    assert history[0..] == history;
    for i := 0 to |history|
      invariant all == Behind(lines, events, Gather(cfg, policy, request, history[i..], seen))
    {
      var event := history[i];
      assert history[i..][0] == event && history[i..][1..] == history[i + 1..];
      if event.room != request.room {
        return Failure(WrongRoom);
      }
      if event.event == request.event || !event.encrypted || !policy.PermitsContextSender(event.sender) {
        continue;
      }
      if request.threadRoot.Some? && event.event != request.threadRoot.value && event.threadRoot != request.threadRoot {
        return Failure(WrongThread);
      }
      var mark := if event.unavailable then Gap(event.event) else Said(event.event);
      if mark in seen {
        continue;
      }
      BehindOne(lines, events, ContextLine(cfg, event), mark, Gather(cfg, policy, request, history[i + 1..], seen + {mark}));
      seen := seen + {mark};
      lines := lines + [ContextLine(cfg, event)];
      events := events + [mark];
    }
    assert Gather(cfg, policy, request, history[|history|..], seen) == Success(Gathered([], []));
    assert lines + [] == lines && events + [] == events;
    assert all == Success(Gathered(lines, events));
    ghost var g := Gather(cfg, policy, request, history, known).value;
    assert header + g.lines == lines && [] + g.events == g.events == events;
    lines := lines + [MessageLine(request)];
    events := events + [Said(request.event)];
    r := Success(Prepared(JoinLines(lines), events, initial, policy.delivery));
  }
}
