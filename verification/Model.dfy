/** Values shared by the journal, the turn loop and the transport. */
module Model {
  import T = Text

  datatype Option<+T> = None | Some(value: T)

  datatype Result<+T, +E> = Success(value: T) | Failure(error: E)

  datatype UserId = UserId(name: string)
  datatype RoomId = RoomId(name: string)
  datatype EventId = EventId(name: string)
  datatype SessionId = SessionId(name: string)
  datatype RequestId = RequestId(name: string)

  /** A run and an outbound transaction are named by their row number, so a new name is always unused. */
  type RunId = nat
  type Txn = nat

  /** The digest of bot, room and thread root, standing for the tuple it is taken over. */
  datatype ConvKey = ConvKey(room: RoomId, root: Option<EventId>)

  datatype Delivery = Automatic | Explicit
  datatype Steering = AfterTurn | ConcurrentPrompt | GrokInterject | SessionSteering

  datatype Status =
    | Queued | Running | WaitingApproval | Cancelling
    | Completed | Failed | Cancelled | Interrupted
  {
    predicate Active() {
      Queued? || Running? || WaitingApproval? || Cancelling?
    }

    /** A run whose leftover follow-ups may still become a continuation. */
    predicate Resumable() {
      Completed? || Cancelled?
    }
  }

  /** An attachment as the prompt shows it: one line of JSON. */
  datatype Attachment = Attachment(json: string)

  datatype Incoming = Incoming(
    unavailable: bool,
    event: EventId,
    room: RoomId,
    sender: UserId,
    body: string,
    attachment: Option<Attachment>,
    threadRoot: Option<EventId>,
    replyTo: Option<EventId>,
    mentions: set<UserId>,
    encrypted: bool,
    verifiedDevice: bool,
    knownSenderDevice: bool)

  datatype RoomSnapshot = RoomSnapshot(joined: bool, encrypted: bool, members: set<UserId>)

  datatype Choice = Choice(id: string, title: string, kind: string)

  datatype AgentEvent =
    | SessionReady(run: RunId, session: SessionId)
    | Text(run: RunId, text: string)
    | Tool(run: RunId)
    | Permission(run: RunId, request: RequestId, title: string, options: seq<Choice>)
    | Steered(run: RunId, event: EventId)
    | Finished(run: RunId, status: Status)

  datatype Effect =
    | Start(run: RunId)
    | Cancel(run: RunId)
    | Steer(run: RunId, event: EventId, prompt: string)
    | Decide(run: RunId, request: RequestId, option: Option<string>)

  datatype Disposition = Ignored | Denied | Duplicate | Accepted

  datatype Handled = Handled(disposition: Disposition, effects: seq<Effect>)

  datatype Emoji = Eyes | Check | Stop | Warning | Cross
  {
    predicate Terminal() { !Eyes? }
  }

  datatype Reaction = Reaction(event: EventId, emoji: Emoji)

  /** What the context ledger remembers of an event: that it was said, or that it could not be read. */
  datatype Mark = Said(event: EventId) | Gap(event: EventId)

  datatype Audience = AnyMembers | Exactly(members: set<UserId>)

  datatype RoomPolicy = RoomPolicy(
    operators: set<UserId>,
    accountTrust: bool,
    audience: set<UserId>,
    roomMembership: bool,
    threads: bool,
    automaticTools: bool,
    delivery: Delivery)
  {
    predicate PermitsMembers(members: set<UserId>) {
      roomMembership || members <= audience
    }

    predicate PermitsContextSender(sender: UserId) {
      roomMembership || sender in audience
    }

    function AudienceBinding(members: set<UserId>): Audience {
      if roomMembership then AnyMembers else Exactly(members)
    }
  }

  /** Everything the bridge says in its own voice; the wording is a parameter of the model. */
  datatype Notice =
    | Introduction(delivery: Delivery)
    | DeliveryChanged(delivery: Delivery)
    | Unreadable(event: EventId, sender: UserId)
    | NoRun
    | RunStatus(run: RunId, status: Status)
    | StopRequested
    | NothingToStop
    | ThreadAllowed
    | ManualRestored
    | ApprovalAccepted
    | NotOffered
    | ApprovalUnavailable
    | Usage
    | AtCapacity
    | ApprovalRequested(request: RequestId, title: string, options: seq<Choice>)
    | ApprovalExpired
    | RunInterrupted(run: RunId)

  /**
   A validated configuration. `binding` is the fingerprint a conversation is bound to; `text` words the
   bridge's own messages; `home` names the room of every event id, as the homeserver assigns them.
   */
  datatype Config = Config(
    bot: UserId,
    rooms: map<RoomId, RoomPolicy>,
    ttl: nat,
    maxRuns: nat,
    steering: Steering,
    binding: ConvKey -> string,
    text: Notice -> string,
    home: EventId -> RoomId)

  datatype Error =
    | UnknownRoom | WrongRoom | WrongThread
    | Conflict
    | UnknownRun | AlreadyDispatched
    | EmptySession | SessionChanged
    | NoOptions | UnsafeOptions
    | NotTerminal
    | EmptyText | Inactive | NotExplicit

  predicate SafeOptions(options: seq<Choice>)
  {
    && (forall i, k :: 0 <= i < k < |options| ==> options[i].id != options[k].id)
    && (forall i :: 0 <= i < |options| ==> T.CommandSafe(options[i].id))
  }

  function FirstOfKind(options: seq<Choice>, kind: string): (r: Option<string>)
    ensures r.Some? ==> exists i :: 0 <= i < |options| && options[i].kind == kind && options[i].id == r.value
    ensures r.None? ==> forall i :: 0 <= i < |options| ==> options[i].kind != kind
  {
    if options == [] then None
    else if options[0].kind == kind then Some(options[0].id)
    else
      var r := FirstOfKind(options[1..], kind);
      assert r.Some? ==> exists i :: 0 <= i < |options| && options[i].kind == kind && options[i].id == r.value by {
        if r.Some? {
          var i :| 0 <= i < |options| - 1 && options[1..][i].kind == kind && options[1..][i].id == r.value;
          assert options[i + 1].kind == kind;
        }
      }
      assert r.None? ==> forall i :: 1 <= i < |options| ==> options[i] == options[1..][i - 1];
      r
  }

  /** An offered one-time permission, else an offered permanent one, else nothing. */
  function AllowOption(options: seq<Choice>): Option<string> {
    var once := FirstOfKind(options, "allow_once");
    if once.Some? then once else FirstOfKind(options, "allow_always")
  }

  datatype BridgeCommand =
    | CmdStatus | CmdStop | CmdAllowThread | CmdManual
    | CmdApprove(request: RequestId, option: string)
    | CmdUnknown

  const PREFIX := "!bridge "

  predicate IsCommand(body: string) {
    PREFIX <= T.Trim(body)
  }

  function ParseCommand(body: string): BridgeCommand {
    var words := T.Words(body);
    if words == ["!bridge", "status"] then CmdStatus
    else if words == ["!bridge", "stop"] then CmdStop
    else if words == ["!bridge", "allow-thread"] then CmdAllowThread
    else if words == ["!bridge", "approvals", "manual"] then CmdManual
    else if |words| == 4 && words[0] == "!bridge" && words[1] == "approve" then
      CmdApprove(RequestId(words[2]), words[3])
    else CmdUnknown
  }
}
