/** Explicit sends: run-scoped capabilities, and receipts that are given only for what has really been sent. */
module Messaging {
  import opened Model
  import opened Text
  import opened Journal
  import opened Rules

  type Token = nat

  datatype SendError = NoSession | Refused(error: Error) | Blocked(alreadySent: nat)

  datatype Receipt = Receipt(room: RoomId, root: Option<EventId>, events: seq<EventId>)

  datatype Request = Request(id: nat, run: RunId, text: string)

  datatype PendingSend = PendingSend(request: Request, conv: ConvKey, ids: seq<Txn>)

  datatype Reply = Reply(request: Request, ids: seq<Txn>, outcome: Result<Receipt, SendError>)

  // ---------------------------------------------------------------- what a receipt means

  function Bodies(outbox: seq<OutRow>, ids: seq<Txn>): seq<string>
    requires forall i :: 0 <= i < |ids| ==> ids[i] < |outbox|
  {
    seq(|ids|, i requires 0 <= i < |ids| => outbox[ids[i]].body)
  }

  /** The text was queued under these transactions, one after the other, piece by piece. */
  predicate Queued(outbox: seq<OutRow>, ids: seq<Txn>, conv: ConvKey, text: string) {
    && ids != []
    && (forall i :: 0 <= i < |ids| ==> ids[i] < |outbox| && outbox[ids[i]].conv == conv && outbox[ids[i]].reaction.None?)
    && (forall i, k :: 0 <= i < k < |ids| ==> ids[i] < ids[k])
    && Concat(Bodies(outbox, ids)) == text
  }

  /** Every piece has been acknowledged, under these events in this order. */
  predicate Sent(outbox: seq<OutRow>, ids: seq<Txn>, events: seq<EventId>) {
    && |events| == |ids|
    && forall i :: 0 <= i < |ids| ==> ids[i] < |outbox| && outbox[ids[i]].delivered == Some(events[i])
  }

  predicate AnyBlocked(failures: set<Txn>, ids: seq<Txn>) {
    exists i :: 0 <= i < |ids| && ids[i] in failures
  }

  /** The acknowledged events among some transactions, in order. */
  function Acks(outbox: seq<OutRow>, ids: seq<Txn>): (r: seq<EventId>)
    requires forall i :: 0 <= i < |ids| ==> ids[i] < |outbox|
    ensures |r| <= |ids|
    ensures |r| == |ids| ==> Sent(outbox, ids, r)
  {
    if ids == [] then []
    else
      var last := ids[|ids| - 1];
      var rest := Acks(outbox, ids[..|ids| - 1]);
      if outbox[last].delivered.Some? then rest + [outbox[last].delivered.value] else rest
  }

  /** A given answer is right, and stays right. */
  ghost predicate Honoured(j: Journal, reply: Reply) {
    match reply.outcome
    case Success(receipt) =>
      exists conv :: Queued(j.outbox, reply.ids, conv, reply.request.text) && Sent(j.outbox, reply.ids, receipt.events)
                     && receipt.room == conv.room && receipt.root == conv.root
    case Failure(Blocked(_)) => AnyBlocked(j.failures, reply.ids)
    case Failure(_) => true
  }

  predicate Placed(j: Journal, send: PendingSend) {
    Queued(j.outbox, send.ids, send.conv, send.request.text)
  }

  ghost predicate AllPlaced(j: Journal, sends: seq<PendingSend>) {
    forall i :: 0 <= i < |sends| ==> Placed(j, sends[i])
  }

  /** What becomes of one pending send. */
  function Verdict(j: Journal, send: PendingSend): Option<Result<Receipt, SendError>> {
    if !Placed(j, send) then None
    else
      var events := Acks(j.outbox, send.ids);
      if AnyBlocked(j.failures, send.ids) then Some(Failure(Blocked(|events|)))
      else if |events| == |send.ids| then Some(Success(Receipt(send.conv.room, send.conv.root, events)))
      else None
  }

  lemma VerdictHonoured(j: Journal, send: PendingSend)
    requires Placed(j, send) && Verdict(j, send).Some?
    ensures Honoured(j, Reply(send.request, send.ids, Verdict(j, send).value))
  {}

  /** The sends that go on waiting. */
  function Kept(j: Journal, sends: seq<PendingSend>): seq<PendingSend> {
    if sends == [] then []
    else
      var last := sends[|sends| - 1];
      Kept(j, sends[..|sends| - 1]) + (if Verdict(j, last).None? then [last] else [])
  }

  function Answers(j: Journal, sends: seq<PendingSend>): seq<Reply> {
    if sends == [] then []
    else
      var last := sends[|sends| - 1];
      Answers(j, sends[..|sends| - 1])
      + (if Verdict(j, last).Some? then [Reply(last.request, last.ids, Verdict(j, last).value)] else [])
  }

  lemma OneMore(j: Journal, sends: seq<PendingSend>, send: PendingSend)
    ensures Kept(j, sends + [send]) == Kept(j, sends) + (if Verdict(j, send).None? then [send] else [])
    ensures Answers(j, sends + [send])
         == Answers(j, sends) + (if Verdict(j, send).Some? then [Reply(send.request, send.ids, Verdict(j, send).value)] else [])
  {
    assert (sends + [send])[..|sends|] == sends;
  }

  /** A send goes on waiting exactly while no piece is blocked and some piece is unacknowledged. */
  lemma {:induction false} KeptExactly(j: Journal, sends: seq<PendingSend>, send: PendingSend)
    requires forall i :: 0 <= i < |sends| ==> Placed(j, sends[i])
    ensures send in Kept(j, sends) <==>
      send in sends && !AnyBlocked(j.failures, send.ids) && exists i :: 0 <= i < |send.ids| && send.ids[i] < |j.outbox| && j.outbox[send.ids[i]].delivered.None?
  {
    if sends != [] {
      var front, last := sends[..|sends| - 1], sends[|sends| - 1];
      KeptExactly(j, front, send);
      assert sends == front + [last];
      AcksAll(j.outbox, last.ids);
    }
  }

  lemma {:induction false} KeptUndecided(j: Journal, sends: seq<PendingSend>, send: PendingSend)
    requires send in Kept(j, sends)
    ensures Verdict(j, send).None?
  {
    if send !in Kept(j, sends[..|sends| - 1]) {
      assert send == sends[|sends| - 1];
    } else {
      KeptUndecided(j, sends[..|sends| - 1], send);
    }
  }

  lemma {:induction false} AcksAll(outbox: seq<OutRow>, ids: seq<Txn>)
    requires forall i :: 0 <= i < |ids| ==> ids[i] < |outbox|
    ensures |Acks(outbox, ids)| == |ids| <==> forall i :: 0 <= i < |ids| ==> outbox[ids[i]].delivered.Some?
  {
    if ids != [] {
      AcksAll(outbox, ids[..|ids| - 1]);
      assert forall i :: 0 <= i < |ids| - 1 ==> ids[..|ids| - 1][i] == ids[i];
    }
  }

  /** Rows are only added or acknowledged, and a blocked transaction stays blocked. */
  ghost predicate OutboxMovesOn(j: Journal, k: Journal) {
    && |j.outbox| <= |k.outbox|
    && (forall t :: 0 <= t < |j.outbox| ==>
          && k.outbox[t].conv == j.outbox[t].conv && k.outbox[t].body == j.outbox[t].body && k.outbox[t].reaction == j.outbox[t].reaction
          && (j.outbox[t].delivered.Some? ==> k.outbox[t].delivered == j.outbox[t].delivered))
    && j.failures <= k.failures
  }

  lemma QueuedStays(j: Journal, k: Journal, ids: seq<Txn>, conv: ConvKey, text: string)
    requires OutboxMovesOn(j, k) && Queued(j.outbox, ids, conv, text)
    ensures Queued(k.outbox, ids, conv, text)
  {
    assert Bodies(k.outbox, ids) == Bodies(j.outbox, ids);
  }

  lemma HonouredStays(j: Journal, k: Journal, reply: Reply)
    requires OutboxMovesOn(j, k) && Honoured(j, reply)
    ensures Honoured(k, reply)
  {
    if reply.outcome.Success? {
      var conv :| Queued(j.outbox, reply.ids, conv, reply.request.text) && Sent(j.outbox, reply.ids, reply.outcome.value.events)
                  && reply.outcome.value.room == conv.room && reply.outcome.value.root == conv.root;
      QueuedStays(j, k, reply.ids, conv, reply.request.text);
      assert Sent(k.outbox, reply.ids, reply.outcome.value.events);
    }
  }

  /** What `explicit_message` queues is the text, in pieces. */
  lemma ExplicitQueues(cfg: Config, j: Journal, run: RunId, text: string)
    requires ExplicitMessage(cfg, j, run, text).Success?
    ensures var s := ExplicitMessage(cfg, j, run, text).value;
            && OutboxMovesOn(j, s.journal) && Queued(s.journal.outbox, s.value.1, s.value.0, text)
            && (forall i :: 0 <= i < |s.value.1| ==> s.value.1[i] in s.journal.explicit && s.value.1[i] >= |j.outbox|)
  {
    var s := ExplicitMessage(cfg, j, run, text).value;
    ExplicitTables(cfg, j, run, text);
    RowsQueued(j.outbox, s.value.0, text, s.value.1);
  }

  lemma RowsQueued(outbox: seq<OutRow>, conv: ConvKey, text: string, ids: seq<Txn>)
    requires text != [] && |ids| == |Chunks(text)| && forall i :: 0 <= i < |ids| ==> ids[i] == |outbox| + i
    ensures Queued(outbox + TextRows(conv, text), ids, conv, text)
  {
    assert Chunks(text) != [];
    PiecesQueued(outbox, conv, text, Chunks(text), TextRows(conv, text), ids);
  }

  lemma PiecesQueued(outbox: seq<OutRow>, conv: ConvKey, text: string, chunks: seq<string>, rows: seq<OutRow>, ids: seq<Txn>)
    requires chunks != [] && Concat(chunks) == text && |rows| == |chunks| == |ids|
    requires forall i :: 0 <= i < |rows| ==> rows[i] == OutRow(conv, chunks[i], None, None)
    requires forall i :: 0 <= i < |ids| ==> ids[i] == |outbox| + i
    ensures Queued(outbox + rows, ids, conv, text)
  {
    assert forall i :: 0 <= i < |ids| ==> (outbox + rows)[ids[i]] == rows[i];
    assert Bodies(outbox + rows, ids) == chunks;
  }

  lemma ExplicitTables(cfg: Config, j: Journal, run: RunId, text: string)
    requires ExplicitMessage(cfg, j, run, text).Success?
    ensures var s := ExplicitMessage(cfg, j, run, text).value;
            && s.journal.outbox == j.outbox + TextRows(s.value.0, text) && s.journal.failures == j.failures
            && s.value.1 == NewTxns(j, text) && text != []
            && (forall i :: 0 <= i < |s.value.1| ==> s.value.1[i] in s.journal.explicit)
  {}

  // ---------------------------------------------------------------- each request is in one place

  /** A request is asked, under way, or answered, and only one of these; ids are given out in order. */
  ghost predicate OnePlace(requests: seq<Request>, sends: seq<PendingSend>, replies: seq<Reply>, next: nat) {
    && (forall i :: 0 <= i < |requests| ==> requests[i].id < next)
    && (forall i, k :: 0 <= i < k < |requests| ==> requests[i].id < requests[k].id)
    && (forall i :: 0 <= i < |sends| ==> sends[i].request.id < next)
    && (forall i, k :: 0 <= i < k < |sends| ==> sends[i].request.id < sends[k].request.id)
    && (forall i, k :: 0 <= i < |sends| && 0 <= k < |requests| ==> sends[i].request.id < requests[k].id)
    && (forall i :: 0 <= i < |replies| ==> replies[i].request.id < next)
    && (forall i, k :: 0 <= i < k < |replies| ==> replies[i].request.id != replies[k].request.id)
    && (forall i, k :: 0 <= i < |replies| && 0 <= k < |requests| ==> replies[i].request.id != requests[k].id)
    && (forall i, k :: 0 <= i < |replies| && 0 <= k < |sends| ==> replies[i].request.id != sends[k].request.id)
  }

  lemma AskKeeps(requests: seq<Request>, sends: seq<PendingSend>, replies: seq<Reply>, next: nat, request: Request)
    requires OnePlace(requests, sends, replies, next) && request.id == next
    ensures OnePlace(requests + [request], sends, replies, next + 1)
  {}

  lemma StartKeeps(requests: seq<Request>, sends: seq<PendingSend>, replies: seq<Reply>, next: nat, send: PendingSend)
    requires OnePlace(requests, sends, replies, next) && requests != [] && send.request == requests[0]
    ensures OnePlace(requests[1..], sends + [send], replies, next)
  {}

  lemma RefuseKeeps(requests: seq<Request>, sends: seq<PendingSend>, replies: seq<Reply>, next: nat, reply: Reply)
    requires OnePlace(requests, sends, replies, next) && requests != [] && reply.request == requests[0]
    ensures OnePlace(requests[1..], sends, replies + [reply], next)
  {}

  lemma AnswerKeeps(requests: seq<Request>, a: seq<PendingSend>, send: PendingSend, b: seq<PendingSend>, replies: seq<Reply>, next: nat, reply: Reply)
    requires OnePlace(requests, a + [send] + b, replies, next) && reply.request == send.request
    ensures OnePlace(requests, a + b, replies + [reply], next)
  {
    var all, some := a + [send] + b, a + b;
    assert all[|a|] == send;
    assert forall i :: 0 <= i < |some| ==> some[i] == all[if i < |a| then i else i + 1];
  }

  /** After `n` of the sends have been looked at. */
  ghost predicate Underway(j: Journal, requests: seq<Request>, replies: seq<Reply>, next: nat, all: seq<PendingSend>, n: nat, waiting: seq<PendingSend>, given: seq<Reply>) {
    && n <= |all|
    && OnePlace(requests, waiting + all[n..], replies, next)
    && waiting == Kept(j, all[..n]) && replies == given + Answers(j, all[..n])
    && AllPlaced(j, waiting)
  }

  lemma Begun(j: Journal, all: seq<PendingSend>, replies: seq<Reply>)
    ensures [] + all[0..] == all && Kept(j, all[..0]) == [] && replies + Answers(j, all[..0]) == replies
  {}

  lemma NextSend(j: Journal, requests: seq<Request>, replies: seq<Reply>, next: nat, all: seq<PendingSend>, n: nat, waiting: seq<PendingSend>, given: seq<Reply>)
    requires Underway(j, requests, replies, next, all, n, waiting, given) && n < |all|
    ensures OnePlace(requests, waiting + ([all[n]] + all[n + 1..]), replies, next)
  {
    assert all[n..] == [all[n]] + all[n + 1..];
  }

  lemma Given1(j: Journal, requests: seq<Request>, was: seq<Reply>, replies: seq<Reply>, next: nat, all: seq<PendingSend>, n: nat, before: seq<PendingSend>, waiting: seq<PendingSend>, given: seq<Reply>)
    requires n < |all| && before == Kept(j, all[..n]) && was == given + Answers(j, all[..n])
    requires OnePlace(requests, waiting + all[n + 1..], replies, next) && AllPlaced(j, waiting)
    requires waiting == before + (if Verdict(j, all[n]).None? then [all[n]] else [])
    requires replies == was + (if Verdict(j, all[n]).Some? then [Reply(all[n].request, all[n].ids, Verdict(j, all[n]).value)] else [])
    ensures Underway(j, requests, replies, next, all, n + 1, waiting, given)
  {
    assert all[..n + 1] == all[..n] + [all[n]];
    OneMore(j, all[..n], all[n]);
  }

  // ---------------------------------------------------------------- the courier

  class Courier {
    const cfg: Config
    var j: Journal
    /** Which run a token speaks for. */
    var scopes: map<Token, RunId>
    /** The token a run holds; losing the lease takes the token back. */
    var leases: map<RunId, Token>
    var requests: seq<Request>
    var sends: seq<PendingSend>
    var nextToken: Token
    var nextRequest: nat

    ghost var replies: seq<Reply>

    ghost predicate ScopesOk()
      reads this
    {
      && (forall t :: t in scopes ==> t < nextToken && scopes[t] in leases && leases[scopes[t]] == t)
      && (forall r :: r in leases ==> leases[r] in scopes && scopes[leases[r]] == r)
    }

    ghost predicate Valid()
      reads this
    {
      && OnePlace(requests, sends, replies, nextRequest) && ScopesOk()
      && AllPlaced(j, sends)
      && (forall i :: 0 <= i < |replies| ==> Honoured(j, replies[i]))
    }

    constructor (cfg: Config, j: Journal)
      ensures Valid() && this.cfg == cfg && this.j == j && scopes == map[] && replies == [] && requests == [] && sends == []
    {
      this.cfg, this.j := cfg, j;
      scopes, leases, requests, sends, nextToken, nextRequest := map[], map[], [], [], 0, 0;
      replies := [];
    }

    /** A dispatched run gets a token nobody has had before; a lease it already held is dropped. */
    method Bind(run: RunId) returns (token: Token)
      requires Valid()
      modifies this`scopes, this`leases, this`nextToken
      ensures Valid() && token == old(nextToken) && nextToken == token + 1
      ensures scopes == (map t | t in old(scopes) && old(scopes)[t] != run :: old(scopes)[t])[token := run]
    {
      token := nextToken;
      nextToken := nextToken + 1;
      Release(run);
      scopes := scopes[token := run];
      leases := leases[run := token];
    }

    /** The end of a run takes its token back. */
    method Release(run: RunId)
      requires ScopesOk()
      modifies this`scopes, this`leases
      ensures ScopesOk() && leases == old(leases) - {run}
      ensures scopes == map t | t in old(scopes) && old(scopes)[t] != run :: old(scopes)[t]
    {
      if run in leases {
        scopes := scopes - {leases[run]};
        leases := leases - {run};
      }
    }

    method Finish(run: RunId)
      requires Valid()
      modifies this`scopes, this`leases
      ensures Valid() && forall t :: t in scopes <==> t in old(scopes) && old(scopes)[t] != run
    {
      Release(run);
    }

    predicate IsValid(token: Token)
      reads this
    {
      token in scopes
    }

    /** A send is a request of the run the token stands for, and of no other; without a scope there is none. */
    method Send(token: Token, text: string) returns (r: Result<nat, SendError>)
      requires Valid()
      modifies this`requests, this`nextRequest
      ensures Valid()
      ensures r.Success? <==> token in scopes
      ensures r.Success? ==> r.value == old(nextRequest) && requests == old(requests) + [Request(r.value, scopes[token], text)]
      ensures r.Failure? ==> requests == old(requests)
    {
      if token !in scopes {
        return Failure(NoSession);
      }
      AskKeeps(requests, sends, replies, nextRequest, Request(nextRequest, scopes[token], text));
      requests := requests + [Request(nextRequest, scopes[token], text)];
      r := Success(nextRequest);
      nextRequest := nextRequest + 1;
    }

    /** The journal moves on underneath: deliveries, blocks, other transactions. */
    method Journalled(k: Journal)
      requires Valid() && OutboxMovesOn(j, k)
      modifies this`j
      ensures Valid() && j == k
    {
      forall i | 0 <= i < |sends| ensures Placed(k, sends[i]) {
        QueuedStays(j, k, sends[i].ids, sends[i].conv, sends[i].request.text);
      }
      forall i | 0 <= i < |replies| ensures Honoured(k, replies[i]) { HonouredStays(j, k, replies[i]); }
      j := k;
    }

    /** Take in what has been asked: queue it, or answer why not. */
    method Accept()
      requires Valid()
      modifies this`j, this`requests, this`sends, this`replies
      ensures Valid() && requests == [] && OutboxMovesOn(old(j), j)
      ensures old(replies) <= replies && old(sends) <= sends
      ensures |replies| - |old(replies)| + |sends| - |old(sends)| == |old(requests)|
    {
      while requests != []
        invariant Valid() && OutboxMovesOn(old(j), j)
        invariant old(replies) <= replies && old(sends) <= sends
        invariant |replies| - |old(replies)| + |sends| - |old(sends)| + |requests| == |old(requests)|
        decreases |requests|
      {
        AcceptOne();
      }
    }

    method AcceptOne()
      requires Valid() && requests != []
      modifies this`j, this`requests, this`sends, this`replies
      ensures Valid() && requests == old(requests)[1..] && OutboxMovesOn(old(j), j)
      ensures match ExplicitMessage(cfg, old(j), old(requests)[0].run, old(requests)[0].text)
              case Success(step) =>
                j == step.journal && replies == old(replies)
                && sends == old(sends) + [PendingSend(old(requests)[0], step.value.0, step.value.1)]
              case Failure(error) =>
                j == old(j) && sends == old(sends)
                && replies == old(replies) + [Reply(old(requests)[0], [], Failure(SendError.Refused(error)))]
    {
      var request := requests[0];
      match ExplicitMessage(cfg, j, request.run, request.text)
      case Success(step) =>
        ExplicitQueues(cfg, j, request.run, request.text);
        Journalled(step.journal);
        Begin(PendingSend(request, step.value.0, step.value.1));
      case Failure(error) => Refuse(Reply(request, [], Failure(SendError.Refused(error))));
    }

    method Begin(send: PendingSend)
      requires Valid() && requests != [] && send.request == requests[0] && Placed(j, send)
      modifies this`requests, this`sends
      ensures Valid() && requests == old(requests)[1..] && sends == old(sends) + [send]
    {
      StartKeeps(requests, sends, replies, nextRequest, send);
      requests := requests[1..];
      sends := sends + [send];
    }

    method Refuse(reply: Reply)
      requires Valid() && requests != [] && reply.request == requests[0] && reply.outcome.Failure? && reply.outcome.error.Refused?
      modifies this`requests, this`replies
      ensures Valid() && requests == old(requests)[1..] && replies == old(replies) + [reply]
    {
      RefuseKeeps(requests, sends, replies, nextRequest, reply);
      requests := requests[1..];
      replies := replies + [reply];
    }

    /** Answer what can be answered: a blocked piece fails the send, all pieces acknowledged completes it. */
    method Settle()
      requires Valid()
      modifies this`sends, this`replies
      ensures Valid() && sends == Kept(j, old(sends)) && replies == old(replies) + Answers(j, old(sends))
    {
      var all, waiting := sends, [];
      Begun(j, all, replies);
      sends := [];
      ghost var given := replies;
      for n := 0 to |all|
        invariant Valid() && sends == [] && AllPlaced(j, all)
        invariant Underway(j, requests, replies, nextRequest, all, n, waiting, given)
      {
        NextSend(j, requests, replies, nextRequest, all, n, waiting, given);
        ghost var was, before := replies, waiting;
        waiting := SettleOne(all[n], waiting, all[n + 1..]);
        Given1(j, requests, was, replies, nextRequest, all, n, before, waiting, given);
      }
      assert all[..|all|] == all && waiting + all[|all|..] == waiting;
      sends := waiting;
    }

    method SettleOne(send: PendingSend, waiting: seq<PendingSend>, ghost rest: seq<PendingSend>) returns (still: seq<PendingSend>)
      requires Valid() && sends == [] && OnePlace(requests, waiting + ([send] + rest), replies, nextRequest)
      requires AllPlaced(j, waiting) && Placed(j, send)
      modifies this`replies
      ensures Valid() && OnePlace(requests, still + rest, replies, nextRequest)
      ensures still == waiting + (if Verdict(j, send).None? then [send] else [])
      ensures replies == old(replies) + (if Verdict(j, send).Some? then [Reply(send.request, send.ids, Verdict(j, send).value)] else [])
      ensures AllPlaced(j, still)
    {
      ghost var all := waiting + ([send] + rest);
      assert all == waiting + [send] + rest;
      var verdict := Verdict(j, send);
      if verdict.Some? {
        still := waiting;
        Give(Reply(send.request, send.ids, verdict.value), send, waiting, rest);
      } else {
        still := waiting + [send];
        assert still + rest == all;
      }
    }

    /** Answer one send. */
    method Give(reply: Reply, send: PendingSend, ghost waiting: seq<PendingSend>, ghost rest: seq<PendingSend>)
      requires Valid() && sends == [] && OnePlace(requests, waiting + [send] + rest, replies, nextRequest)
      requires Placed(j, send) && Verdict(j, send).Some? && reply == Reply(send.request, send.ids, Verdict(j, send).value)
      modifies this`replies
      ensures Valid() && replies == old(replies) + [reply] && OnePlace(requests, waiting + rest, replies, nextRequest)
    {
      VerdictHonoured(j, send);
      AnswerKeeps(requests, waiting, send, rest, replies, nextRequest, reply);
      replies := replies + [reply];
    }

    /** One poll: take in, then answer. Nothing is answered twice, and no success goes out before its last acknowledgement. */
    method PollMessages()
      requires Valid()
      modifies this`j, this`requests, this`sends, this`replies
      ensures Valid() && requests == [] && OutboxMovesOn(old(j), j) && old(replies) <= replies
      ensures forall send :: send in sends ==> Placed(j, send) && Verdict(j, send).None?
      ensures forall i :: 0 <= i < |replies| ==> Honoured(j, replies[i])
      ensures forall i, k :: 0 <= i < k < |replies| ==> replies[i].request.id != replies[k].request.id
    {
      Accept();
      ghost var accepted := sends;
      Settle();
      forall send | send in sends ensures Verdict(j, send).None? { KeptUndecided(j, accepted, send); }
    }

    /** Policy keeps one transaction from being sent; only an explicit send can fail this way. */
    method BlockMessage(txn: Txn)
      requires Valid()
      modifies this`j
      ensures Valid() && j == Block(old(j), txn)
      ensures txn in j.explicit ==> txn in j.failures && !Undelivered(j, txn)
      ensures forall t :: t != txn ==> (Undelivered(j, t) <==> Undelivered(old(j), t))
    {
      Journalled(Block(j, txn));
    }

    /** Every capability ends with the process; what was not answered stays unanswered. */
    method Shutdown()
      requires Valid()
      modifies this`scopes, this`leases, this`sends
      ensures Valid() && scopes == map[] && leases == map[] && sends == []
    {
      scopes, leases, sends := map[], map[], [];
    }
  }
}
