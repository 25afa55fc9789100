/** A prompt can be taken apart again: whatever a body says, it cannot pass for another sender's message. */
module PromptBlocks {
  import opened Model
  import opened Text
  import opened Context
  import opened Journal
  import opened Rules

  /** Cut a text at every newline that is not followed by four spaces. */
  function Split(s: string): (r: seq<string>)
    ensures r != []
  {
    if s == [] then [[]]
    else
      var rest := Split(s[1..]);
      if s[0] == '\n' && !(INDENT <= s[1..]) then [[]] + rest else [[s[0]] + rest[0]] + rest[1..]
  }

  /** One block: every newline in it is followed by four spaces. */
  predicate Solid(s: string) {
    forall i :: 0 <= i < |s| && s[i] == '\n' ==> INDENT <= s[i + 1..]
  }

  predicate OneLine(s: string) {
    '\n' !in s
  }

  predicate Unindented(s: string) {
    !(INDENT <= s)
  }

  // ---------------------------------------------------------------- joining and splitting

  lemma IndentIs(s: string)
    ensures INDENT <= s <==> |s| >= 4 && s[0] == ' ' && s[1] == ' ' && s[2] == ' ' && s[3] == ' '
  {}

  lemma IndentBehind(a: string, b: string)
    ensures INDENT <= a + "\n" + b <==> INDENT <= a
  {
    IndentIs(a);
    IndentIs(a + "\n" + b);
  }

  lemma SplitCons(c: char, t: string)
    ensures Split([c] + t) == if c == '\n' && Unindented(t) then [[]] + Split(t) else [[c] + Split(t)[0]] + Split(t)[1..]
  {
    assert ([c] + t)[1..] == t;
  }

  lemma HeadJoin(c: char, front: seq<string>, rest: seq<string>)
    requires front != []
    ensures [[c] + (front + rest)[0]] + (front + rest)[1..] == ([[c] + front[0]] + front[1..]) + rest
  {
    assert (front + rest)[1..] == front[1..] + rest;
  }

  /** Texts joined by a newline split into the blocks of both, unless the second looks like a continuation. */
  lemma {:induction false} SplitJoined(a: string, b: string)
    requires Unindented(b)
    ensures Split(a + "\n" + b) == Split(a) + Split(b)
  {
    if a == [] {
      assert [] + "\n" + b == ['\n'] + b;
      SplitCons('\n', b);
    } else {
      var t := a[1..];
      SplitJoined(t, b);
      IndentBehind(t, b);
      ConsJoined(a[0], t, t + "\n" + b, Split(b));
      assert a == [a[0]] + t && a + "\n" + b == [a[0]] + (t + "\n" + b);
    }
  }

  lemma ConsJoined(c: char, t: string, u: string, rest: seq<string>)
    requires Split(u) == Split(t) + rest && (Unindented(u) <==> Unindented(t))
    ensures Split([c] + u) == Split([c] + t) + rest
  {
    SplitCons(c, t);
    SplitCons(c, u);
    HeadJoin(c, Split(t), rest);
    assert [[]] + (Split(t) + rest) == ([[]] + Split(t)) + rest;
  }

  function SplitEach(parts: seq<string>): seq<string> {
    if parts == [] then [] else Split(parts[0]) + SplitEach(parts[1..])
  }

  lemma {:induction false} SplitLines(parts: seq<string>)
    requires parts != [] && forall i :: 1 <= i < |parts| ==> Unindented(parts[i])
    ensures Split(JoinLines(parts)) == SplitEach(parts)
  {
    if |parts| == 1 {
      assert SplitEach(parts[1..]) == [];
    } else {
      var rest := parts[1..];
      assert forall i :: 1 <= i < |rest| ==> rest[i] == parts[i + 1];
      SplitLines(rest);
      assert rest[0] == parts[1];
      JoinedFlush(rest);
      SplitJoined(parts[0], JoinLines(rest));
    }
  }

  lemma JoinedFlush(parts: seq<string>)
    requires parts != [] && Unindented(parts[0])
    ensures Unindented(JoinLines(parts))
  {
    if |parts| > 1 { IndentBehind(parts[0], JoinLines(parts[1..])); }
  }

  lemma {:induction false} SplitSolid(s: string)
    requires Solid(s)
    ensures Split(s) == [s]
  {
    if s != [] {
      forall i | 0 <= i < |s[1..]| && s[1..][i] == '\n' ensures INDENT <= s[1..][i + 1..] {
        assert s[i + 1] == '\n' && s[i + 1 + 1..] == s[1..][i + 1..];
      }
      SplitSolid(s[1..]);
      assert s == [s[0]] + s[1..];
    }
  }

  lemma {:induction false} SplitSolids(parts: seq<string>)
    requires forall i :: 0 <= i < |parts| ==> Solid(parts[i])
    ensures SplitEach(parts) == parts
  {
    if parts != [] {
      SplitSolid(parts[0]);
      SplitSolids(parts[1..]);
    }
  }

  // ---------------------------------------------------------------- indentation

  function Unindent(s: string): string {
    if s == [] then []
    else if s[0] == '\n' && INDENT <= s[1..] then "\n" + Unindent(s[5..])
    else [s[0]] + Unindent(s[1..])
  }

  lemma {:induction false} UnindentIndent(body: string)
    ensures Unindent(Indent(body)) == body
  {
    if body != [] {
      UnindentIndent(body[1..]);
      var s := Indent(body);
      if body[0] == '\n' {
        assert s == "\n" + INDENT + Indent(body[1..]);
        assert s[1..] == INDENT + Indent(body[1..]) && s[5..] == Indent(body[1..]);
      } else {
        assert s[1..] == Indent(body[1..]);
      }
    }
  }

  lemma {:induction false} IndentSolid(body: string)
    ensures Solid(Indent(body))
  {
    if body != [] {
      IndentSolid(body[1..]);
      var rest := Indent(body[1..]);
      if body[0] == '\n' {
        assert Indent(body) == ("\n" + INDENT) + rest;
        SolidJoin("\n" + INDENT, rest);
      } else {
        assert Indent(body) == [body[0]] + rest;
        SolidJoin([body[0]], rest);
      }
    }
  }

  lemma SolidJoin(a: string, b: string)
    requires Solid(a) && Solid(b)
    ensures Solid(a + b)
  {
    var all := a + b;
    forall i | 0 <= i < |all| && all[i] == '\n' ensures INDENT <= all[i + 1..] {
      if i < |a| {
        assert INDENT <= a[i + 1..];
        assert all[i + 1..] == a[i + 1..] + b;
      } else {
        assert all[i + 1..] == b[i - |a| + 1..];
      }
    }
  }

  lemma OneLineSolid(s: string)
    requires OneLine(s)
    ensures Solid(s)
  {}

  // ---------------------------------------------------------------- messages

  /** Sender ids and attachment lines are single lines, and sender ids do not look like continuations. */
  predicate Plain(event: Incoming) {
    && OneLine(event.sender.name) && Unindented(event.sender.name + ": ")
    && (event.attachment.Some? ==> OneLine(event.attachment.value.json))
  }

  lemma LineSolid(event: Incoming)
    requires Plain(event)
    ensures Solid(MessageLine(event)) && Unindented(MessageLine(event))
  {
    var front, body := event.sender.name + ": ", Indent(event.body);
    OneLineSolid(front);
    IndentSolid(event.body);
    SolidJoin(front, body);
    LabelFlush(front, body + (if event.attachment.Some? then "\n" + INDENT + "[attachment " + event.attachment.value.json + "]" else ""));
    if event.attachment.Some? {
      AttachmentSolid(front, body, event.attachment.value.json);
    } else {
      assert MessageLine(event) == front + (body + "") == front + body;
    }
  }

  lemma AttachmentSolid(front: string, body: string, json: string)
    requires Solid(front + body) && OneLine(json)
    ensures var tail := "\n" + INDENT + "[attachment " + json + "]"; Solid(front + body + tail) && front + body + tail == front + (body + tail)
  {
    var tail := "[attachment " + json + "]";
    OneLineSolid(tail);
    SolidJoin("\n" + INDENT, tail);
    assert "\n" + INDENT + "[attachment " + json + "]" == ("\n" + INDENT) + tail;
    SolidJoin(front + body, ("\n" + INDENT) + tail);
  }

  /** A front that ends in a colon and a space is not four spaces, whatever follows. */
  lemma LabelFlush(front: string, rest: string)
    requires Unindented(front) && |front| >= 2 && front[|front| - 2] == ':'
    ensures Unindented(front + rest)
  {
    IndentIs(front);
    IndentIs(front + rest);
  }

  /** Read a block back: what stands before the first colon and space is the sender, the rest is the body. */
  function ParseLabel(s: string): (r: Option<(string, string)>)
  {
    if |s| < 2 then None
    else if s[0] == ':' && s[1] == ' ' then Some(([], s[2..]))
    else
      match ParseLabel(s[1..])
      case None => None
      case Some((sender, rest)) => Some(([s[0]] + sender, rest))
  }

  predicate NoLabelEnd(s: string) {
    forall i :: 0 <= i < |s| - 1 ==> !(s[i] == ':' && s[i + 1] == ' ')
  }

  lemma {:induction false} ParseLabelled(sender: string, rest: string)
    requires NoLabelEnd(sender)
    ensures ParseLabel(sender + ": " + rest) == Some((sender, rest))
  {
    var all := sender + ": " + rest;
    if sender == [] {
      assert all == ": " + rest && all[2..] == rest;
    } else {
      assert all[1..] == sender[1..] + ": " + rest;
      assert all[0] == sender[0];
      assert all[1] == if |sender| > 1 then sender[1] else ':';
      ParseLabelled(sender[1..], rest);
      assert [sender[0]] + sender[1..] == sender;
    }
  }

  /** A message without an attachment can be read back from its block: its sender and its whole body. */
  lemma MessageReadBack(event: Incoming)
    requires Plain(event) && event.attachment.None? && NoLabelEnd(event.sender.name)
    ensures Split(MessageLine(event)) == [MessageLine(event)]
    ensures var read := ParseLabel(MessageLine(event));
            read.Some? && read.value.0 == event.sender.name && Unindent(read.value.1) == event.body
  {
    LineSolid(event);
    SplitSolid(MessageLine(event));
    assert MessageLine(event) == event.sender.name + ": " + Indent(event.body);
    ParseLabelled(event.sender.name, Indent(event.body));
    UnindentIndent(event.body);
  }

  // ---------------------------------------------------------------- prompts

  /** The bridge's own lines are not indented, and what stands between blocks is one of them. */
  ghost predicate PlainNotices(cfg: Config) {
    && (forall event, sender :: var text := cfg.text(Unreadable(event, sender)); Solid(text) && Unindented(text))
    && (forall d :: var text := cfg.text(DeliveryChanged(d)); Solid(text) && Unindented(text))
    && (forall d :: Unindented(cfg.text(Introduction(d))))
  }

  predicate AllPlain(events: seq<Incoming>) {
    forall i :: 0 <= i < |events| ==> Plain(events[i])
  }

  lemma ContextLineSolid(cfg: Config, event: Incoming)
    requires Plain(event) && PlainNotices(cfg)
    ensures Solid(ContextLine(cfg, event)) && Unindented(ContextLine(cfg, event))
  {
    if event.unavailable {
      assert Solid(cfg.text(Unreadable(event.event, event.sender))) && Unindented(cfg.text(Unreadable(event.event, event.sender)));
    } else {
      LineSolid(event);
      OneLineSolid("[context] ");
      SolidJoin("[context] ", MessageLine(event));
      assert ("[context] " + MessageLine(event))[0] == '[';
    }
  }

  lemma {:induction false} GatheredSolid(cfg: Config, policy: RoomPolicy, request: Incoming, history: seq<Incoming>, seen: set<Mark>)
    requires PlainNotices(cfg) && AllPlain(history)
    requires Gather(cfg, policy, request, history, seen).Success?
    ensures var lines := Gather(cfg, policy, request, history, seen).value.lines;
            forall i :: 0 <= i < |lines| ==> Solid(lines[i]) && Unindented(lines[i])
    decreases |history|
  {
    if history != [] {
      var event := history[0];
      ContextLineSolid(cfg, event);
      if Quotable(policy, request, event) && MarkOf(event) !in seen {
        GatheredSolid(cfg, policy, request, history[1..], seen + {MarkOf(event)});
      } else {
        GatheredSolid(cfg, policy, request, history[1..], seen);
      }
    }
  }

  /**
   A prompt splits into its header's blocks, one block for each message quoted, in order, and the request, for
   arbitrary message bodies.
   */
  lemma PromptSplits(cfg: Config, request: Incoming, history: seq<Incoming>, known: set<Mark>, initial: bool)
    requires PlainNotices(cfg) && Plain(request) && AllPlain(history)
    requires Prepare(cfg, request, history, known, initial).Success?
    ensures var policy := cfg.rooms[request.room];
      var header := if initial then Header(cfg, policy, request) else [];
      Split(Prepare(cfg, request, history, known, initial).value.prompt)
      == SplitEach(header) + Gather(cfg, policy, request, history, known).value.lines + [MessageLine(request)]
  {
    var policy := cfg.rooms[request.room];
    var header := if initial then Header(cfg, policy, request) else [];
    var lines := Gather(cfg, policy, request, history, known).value.lines;
    GatheredSolid(cfg, policy, request, history, known);
    LineSolid(request);
    if initial { assert header[1][0] == 'M'; }
    BlocksSplit(header, lines, MessageLine(request));
  }

  lemma PromptFlush(cfg: Config, request: Incoming, history: seq<Incoming>, known: set<Mark>, initial: bool)
    requires PlainNotices(cfg) && Plain(request) && AllPlain(history)
    requires Prepare(cfg, request, history, known, initial).Success?
    ensures Unindented(Prepare(cfg, request, history, known, initial).value.prompt)
  {
    var policy := cfg.rooms[request.room];
    var header := if initial then Header(cfg, policy, request) else [];
    var lines := Gather(cfg, policy, request, history, known).value.lines;
    GatheredSolid(cfg, policy, request, history, known);
    LineSolid(request);
    if initial { IndentBehind(cfg.text(Introduction(policy.delivery)), ""); assert header[0] == cfg.text(Introduction(policy.delivery)) + "\n" + ""; }
    JoinedFlush(header + lines + [MessageLine(request)]);
  }

  /** The blocks of the prompt a run is given for a request: a changed way to answer, the header, the context, the request. */
  ghost function ContextBlocks(cfg: Config, j: Journal, request: Incoming, history: seq<Incoming>): seq<string> {
    if request.room !in cfg.rooms then [] else
      var policy, conv := cfg.rooms[request.room], ConversationOf(cfg, request);
      var initial := !Initialized(j, conv);
      var gathered := Gather(cfg, policy, request, history, Seen(j, conv));
      (if !initial && LastDelivery(j, conv) != Some(policy.delivery) then [cfg.text(DeliveryChanged(policy.delivery)), ""] else [])
      + SplitEach(if initial then Header(cfg, policy, request) else [])
      + (if gathered.Success? then gathered.value.lines else [])
      + [MessageLine(request)]
  }

  /** The context of a request was prepared, and this is its prompt. */
  ghost predicate Prepares(cfg: Config, j: Journal, request: Incoming, history: seq<Incoming>, prompt: string) {
    request.room in cfg.rooms && PrepareContext(cfg, j, request, history).Success? && PrepareContext(cfg, j, request, history).value.prompt == prompt
  }

  /** The prompt of every request splits into exactly its blocks, and does not itself look like a continuation of one. */
  lemma ContextSplits(cfg: Config, j: Journal, request: Incoming, history: seq<Incoming>, prompt: string)
    requires PlainNotices(cfg) && Plain(request) && AllPlain(history) && Prepares(cfg, j, request, history, prompt)
    ensures Split(prompt) == ContextBlocks(cfg, j, request, history) && Unindented(prompt)
  {
    var policy, conv := cfg.rooms[request.room], ConversationOf(cfg, request);
    var initial := !Initialized(j, conv);
    var inner := Prepare(cfg, request, history, Seen(j, conv), initial).value.prompt;
    PromptSplits(cfg, request, history, Seen(j, conv), initial);
    PromptFlush(cfg, request, history, Seen(j, conv), initial);
    var header := SplitEach(if initial then Header(cfg, policy, request) else []);
    var lines := Gather(cfg, policy, request, history, Seen(j, conv)).value.lines;
    if !initial && LastDelivery(j, conv) != Some(policy.delivery) {
      NoticeSplits(cfg.text(DeliveryChanged(policy.delivery)), inner);
      Regrouped([cfg.text(DeliveryChanged(policy.delivery)), ""], header, lines, [MessageLine(request)]);
    } else {
      Regrouped([], header, lines, [MessageLine(request)]);
    }
  }

  lemma Regrouped(a: seq<string>, b: seq<string>, c: seq<string>, d: seq<string>)
    ensures a + b + c + d == a + (b + c + d)
    ensures a == [] ==> a + b + c + d == b + c + d
  {}

  lemma NoticeSplits(notice: string, prompt: string)
    requires Solid(notice) && Unindented(notice) && Unindented(prompt)
    ensures Split(notice + "\n\n" + prompt) == [notice, ""] + Split(prompt) && Unindented(notice + "\n\n" + prompt)
  {
    assert notice + "\n\n" + prompt == notice + "\n" + ("\n" + prompt);
    IndentIs("\n" + prompt);
    SplitJoined(notice, "\n" + prompt);
    assert "\n" + prompt == [] + "\n" + prompt;
    SplitJoined([], prompt);
    SplitSolid(notice);
    IndentBehind(notice, "\n" + prompt);
  }

  lemma BlocksSplit(header: seq<string>, lines: seq<string>, last: string)
    requires forall i :: 0 <= i < |lines| ==> Solid(lines[i]) && Unindented(lines[i])
    requires Solid(last) && Unindented(last) && forall i :: 1 <= i < |header| ==> Unindented(header[i])
    ensures Split(JoinLines(header + lines + [last])) == SplitEach(header) + lines + [last]
  {
    var blocks := lines + [last];
    assert header + lines + [last] == header + blocks;
    assert forall i :: |header| <= i < |header + blocks| ==> (header + blocks)[i] == blocks[i - |header|];
    SplitLines(header + blocks);
    SplitEachJoin(header, blocks);
    SplitSolids(blocks);
  }

  lemma {:induction false} SplitEachJoin(a: seq<string>, b: seq<string>)
    ensures SplitEach(a + b) == SplitEach(a) + SplitEach(b)
  {
    if a == [] {
      assert a + b == b;
    } else {
      assert (a + b)[1..] == a[1..] + b;
      SplitEachJoin(a[1..], b);
    }
  }

  /** Prompts joined for one turn or one continuation keep all their blocks apart. */
  lemma JoinedPromptsSplit(prompts: seq<string>)
    requires prompts != [] && forall i :: 0 <= i < |prompts| ==> Unindented(prompts[i])
    ensures Split(JoinLines(prompts)) == SplitEach(prompts)
  {
    SplitLines(prompts);
  }
}
