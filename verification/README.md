# A verified model of the Matrix-to-ACP run protocol

The bridge lets people in an encrypted Matrix room talk to a coding agent. A message opens a *run* in its
conversation; later messages become *follow-ups* that steer the run or, if they come too late, its continuation. The
agent asks for permission, speaks, uses tools and ends its turn; the bridge journals everything in SQLite before it
acts, posts the agent's words and the runs' outcomes to the room through an outbox, and remembers in a ledger what
each agent session has been told. Processes crash, queues race, rooms change their members.

The project models that protocol and proves what it is for:

* `Text`, `Model`, `Context`, `Journal` and `Rules` are the data and the transactions: one component per table, one
  function per SQL statement or transaction of `src/core.rs`, `src/store.rs` and `src/context_ledger.rs`.
* `Bridge` is the object the program has: its handlers read and rewrite the tables statement by statement, and each is
  proved against its transaction in `Rules` and keeps every invariant.
* `Invariants` says what every reachable journal satisfies; `Lifecycle`, `Approvals`, `Reactions`, `Ledger`, `Steps`,
  `EventSteps` and `Recovery` show that every transaction keeps it, including a restart after a crash between two
  commits of one operation; `Frames` says which tables each transaction leaves alone. `History`, `Admission`,
  `Answers` and `Output` draw the conclusions for whole histories.
* `TurnLoop` is the loop of `src/acp.rs` that drives one agent run; `TurnSafety` proves what every trace of it does;
  `Turn` is the loop in its imperative form.
* `Protocol` puts journal, command queues, workers, update queue and runner together as one transition system. `Moves`
  says what each move comes to; `Handing`, `Delivery`, `SoftSteps`, `DeliverySteps`, `System`, `Capacity`, `Lines`,
  `Order` and `Wording` prove what holds in every interleaving, whatever crashes in between.
* `Sync`, `Search`, `PromptBlocks` and `Messaging` cover gap-free synchronisation, resumable search, the attributed
  prompt and run-scoped sending.

A history is any list of transactions, each started from what the one before left, with restarts anywhere; a restart
may find the journal in the middle of resuming leftovers, of answering requests by policy, or of stopping the runs of
a room, which commit row by row. `Lives(cfg, ops, j)` reads: these transactions can happen one after the other and
leave journal `j`. `Reaches(cfg, moves, s)` says the same of the whole system, and `System.HasHistory` that its journal
always has a history, so every result about histories holds under every interleaving too.

Runs and transactions are named by their row number, which stands for a fresh UUID; a conversation key is the tuple its
digest is taken over; the wording of the bridge's own messages is a parameter; `cfg.home` says to which room the
homeserver has assigned an event id.

## Model

| member | source | states |
|---|---|---|
| System.HandedAtMostOnce | src/acp.rs:244-348 | in every interleaving of journal, queues, workers and crashes, a message is put before an agent at most once, over all turns, continuations and restarts |
| System.CompletedAccounts | src/core.rs:562-571 | when a run has completed, its opening message was put before the agent once, and each follow-up either was, once, and is marked delivered, or was not and is still pending, unless it was dropped or cut off |
| System.SettledForGood | src/core.rs:680-733 | a follow-up keeps its row and its prompt, and belongs to one continuation for good once it is taken, or stays dropped once it is dropped |
| System.HasHistory | src/runner.rs:102-120 | under every interleaving the journal is the result of a history of transactions |
| Wording.HandedAsWritten | src/acp.rs:340-346 | each text put before an agent is the prompts, joined in order, of exactly the messages it is accounted to; a continuation opens with its leftovers' prompts |
| Wording.HandedTextSplits | src/acp.rs:341-341 | joined follow-ups come apart again into each one's own blocks |
| Wording.ContinuationSplits | src/core.rs:707-711 | a continuation's prompt splits into the block lists of the leftovers it continues, in order |
| Capacity.NeverOverLimit | src/runner.rs:102-120 | with a limit, the number of active runs never exceeds it in any execution, although resuming leftovers never checks it |
| Capacity.NothingOvertaken | src/runner.rs:111-118 | no active run has older leftovers of its conversation behind it, and none exists anywhere when a message is taken in |
| Order.HandedInArrivalOrder | src/acp.rs:307-310 | under after-turn steering the follow-ups of a conversation reach the agent in arrival order, across turns, continuations and restarts |
| TurnSafety.ReportIsNewestAnswer | src/acp.rs:244-348 | completion is reported only as the answer to the newest prompt, unstopped, with no steering request outstanding and a finished drain begun after every acknowledged interjection |
| TurnSafety.CancelOnce | src/acp.rs:326-337 | a cancellation that is read sends exactly one cancel notification, and the run then never reports completion |
| TurnSafety.PermissionsAnsweredOnce | src/acp.rs:188-218 | each permission request of the agent is answered at most once, and exactly once by the end of the run |
| Turn.Loop.Serve | src/acp.rs:244-348 | a whole run of the loop against any behaviour of its surroundings is the trace of its inputs, reports its newest answer, cancels once and answers each request at most once |
| Turn.Loop.Pass | src/acp.rs:262-339 | one pass, a select arm and then the check at the top, has the effect of one step of the loop |
| History.RunsOverHistory | src/store.rs:89-89 | in every history a conversation has at most one active run, every run keeps an input, terminal states absorb, and cancelling leads only to a terminal state |
| History.InsertsNeverConflict | src/core.rs:210-432 | whatever came before, handling a message, with context or without, never trips a unique index |
| History.ResumesNeverConflict | src/core.rs:680-733 | resuming any list of conversations keeps one active run each, so the insert never trips the unique index |
| History.ContextOnce | src/context_ledger.rs:116-208 | of two live batches of a conversation the later one quotes nothing the earlier one carries, and at most one carries the baseline |
| History.FadedForever | src/context_ledger.rs:141-141 | a batch that has stopped being live never becomes live again, through races, resets, crashes and restarts |
| History.KnownIsTold | src/context_ledger.rs:116-162 | with nothing under way in a conversation, what the ledger knows is exactly what was told in this session and, once initialised, the acknowledged bot messages |
| History.OfferedAgain | src/context_ledger.rs:141-162 | so the next request quotes exactly the quotable messages the session has not been told, whatever failed, was cancelled or was interrupted before |
| History.InFlightMeansActive | src/core.rs:572-581 | a batch in flight belongs to an active run of its conversation |
| History.ContextOnlyWhereNeeded | src/core.rs:172-185 | where no context is needed, a message has the same outcome with and without it, and opens no run, follow-up or batch |
| History.ReactionsOverHistory | src/core.rs:582-612 | a message gets at most one eyes reaction and at most one terminal one, and the terminal one says how the run that owns it ended |
| History.CleanupOverHistory | src/store.rs:214-247 | a cleanup row for eyes exists exactly when a later terminal reaction on the same message is acknowledged, once, and is due only if the eyes were delivered |
| History.AcknowledgementsCommute | src/store.rs:214-247 | two acknowledgements leave the same outbox and the same cleanups in either order |
| Admission.LetInOnce | src/core.rs:242-250 | however often a message is offered it is accepted at most once, and the inbox holds exactly the accepted messages |
| Admission.FailuresAreGivenUp | src/runner.rs:316-319 | the failures are exactly the explicit messages refused by policy, and none of them is ever pending again |
| Admission.GivenUpForGood | src/store.rs:193-212 | a message once given up stays given up |
| Answers.AnsweredOnce | src/core.rs:637-676 | each permission request yields at most one decision over the whole history, and an answered one stays consumed |
| Answers.AnswersJustified | src/core.rs:735-760 | a positive decision names an offered option of an open, unexpired request; a negative one comes exactly at or after the deadline of an open one |
| Answers.WaitingMeansUnanswered | src/core.rs:510-561 | a run waits for approval exactly when it has an unconsumed request |
| Output.WordsConserved | src/core.rs:491-508 | flushed segments followed by the buffer are exactly the text accepted from a run |
| Output.WordsPosted | src/store.rs:414-446 | each segment that is not blank stands in the outbox as consecutive chunks of 1 to 6000 scalars that concatenate to it, in order |
| Output.NothingKeptBack | src/core.rs:582-582 | an ended run keeps no text back: its segments are all that was accepted from it |
| Recovery.RecoverRestores | src/store.rs:363-403 | from any committed journal recovery re-establishes every invariant, leaves nothing active, pending, undelivered, unconsumed or buffered, and keeps every outbox row |
| Recovery.RecoverIdempotent | src/store.rs:363-403 | a second recovery changes nothing and interrupts nothing |
| Recovery.TornFollows | src/core.rs:806-829 | wherever an operation that commits row by row is cut short, what it leaves is committed and undoes nothing |
| Recovery.RestartGood | src/store.rs:363-403 | a restart after such a crash, and after any sessions were reset meanwhile, keeps every invariant and only moves history on |
| Recovery.CancellingFollows | src/core.rs:814-822 | a run marked as cancelling whose requests are still open is a state recovery repairs |
| Bridge.Store.HandleWithContext | src/core.rs:210-432 | handling a message with its history does exactly its transaction or, on an error, nothing, and keeps every invariant |
| Bridge.Store.KnownContext | src/context_ledger.rs:116-162 | the loop over the ledger computes what the session has been told, whether it has its baseline, and how it was last told to answer |
| Bridge.Store.StageBatch | src/context_ledger.rs:165-208 | staging drops a stale ledger, records one batch, and fails only on a repeated input |
| Bridge.Store.Stop | src/core.rs:267-285 | stopping drops what waits, marks an active run and its requests, and asks its worker to stop |
| Bridge.Store.Approve | src/core.rs:310-355 | a command answers an open request of its conversation with an offered option, or says why not |
| Bridge.Store.OnEvent | src/core.rs:447-616 | each worker event does exactly its transaction or, on an error, nothing |
| Bridge.Store.AnswerAutomatically | src/core.rs:637-676 | the loop over open requests answers each as policy allows |
| Bridge.Store.Expire | src/core.rs:735-760 | the loop over expired requests refuses each and lets its run go on when nothing else waits |
| Bridge.Store.ResumePendingSteers | src/core.rs:680-733 | the loop over conversations turns each one's leftovers into one run |
| Bridge.Store.Move | src/core.rs:722-728 | the row by row hand-over moves exactly the leftovers and their staged batches |
| Bridge.Store.Reconcile | src/core.rs:795-832 | the loop over engaged runs stops exactly those that may no longer be delivered |
| Bridge.Store.Recover | src/store.rs:363-403 | recovery of any committed journal leaves a valid one at rest |
| Bridge.Store.EnqueueIds | src/store.rs:432-446 | a text is queued in pieces under consecutive transactions |
| Bridge.Store.FlushOutput | src/store.rs:414-426 | a run's buffered text is posted, if it says anything, and the buffer emptied |
| Bridge.Store.Delivered | src/store.rs:214-247 | an acknowledgement is recorded once, together with the cleanups it makes due |
| Bridge.Store.PendingRows | src/store.rs:193-212 | what is pending is exactly what is neither delivered nor refused, oldest first |
| Bridge.Store.PendingRemovals | src/store.rs:249-269 | removals are due exactly for delivered eyes, oldest first |
| Bridge.Store.PostMessage | src/core.rs:17-49 | an explicit message of a running run in an explicit room is queued and owned by the run; anything else is refused |
| Context.PreparePrompt | src/context.rs:29-96 | the one-pass printer yields the header once, each unseen quotable message once, and the request last |
| PromptBlocks.ContextSplits | src/core.rs:187-204 | the prompt of every request splits at newlines without indent into exactly its labelled blocks, for arbitrary bodies, and starts a block of its own |
| PromptBlocks.MessageReadBack | src/context.rs:98-107 | the block of a message without attachment gives back its sender and its whole body |
| PromptBlocks.JoinedPromptsSplit | src/core.rs:707-711 | joining prompts concatenates their block lists |
| Sync.NeverLost | src/matrix.rs:119-258 | through any number of crashes, retries and restarts, every encrypted event between baseline and cursor has been offered, archived or found to be no message, and no message is admitted twice over all lives of the process |
| Sync.EveryLifeSound | src/store.rs:299-356 | whatever commit a process ends after, the next one may start from what it finds |
| Sync.BackfillToAnchor | src/matrix.rs:555-580 | the walk back yields exactly the events between anchor and window, in timeline order, and succeeds exactly when the anchor is within reach of the pages |
| Sync.FoundRecently | src/matrix.rs:555-580 | with full pages that reach is the last 500 events |
| Sync.Follower.Poll | src/matrix.rs:119-258 | a poll stages a response or takes up the staged one, and on success covers all that is owed, each room in timeline order; a failure leaves the batch staged |
| Sync.Follower.Ingest | src/matrix.rs:416-440 | messages are offered in order, and the cursor moves only when all have been handled |
| Sync.Follower.Checkpoint | src/store.rs:299-324 | the cursor, the anchors and the end of the staged batch are committed as one |
| Search.FollowCursors | src/matrix_tools.rs:153-234 | following the cursor with any positive limits returns exactly the matching messages, each once, newest first |
| Search.SearchFrom | src/matrix_tools.rs:153-234 | one call ends, returns what matches in the stretch it scanned, and hands out a cursor exactly when there may be more |
| Messaging.Courier.PollMessages | src/runner.rs:266-314 | a poll answers each request at most once, success only with the events of all its pieces in order, failure only with a blocked piece or a refusal |
| Messaging.Courier.Send | src/messaging.rs:70-91 | a send is a request of the run its token stands for, and impossible without one |
| Messaging.Courier.Bind | src/messaging.rs:53-63 | a token nobody had before speaks for the run, and the run's earlier token for nothing |
| Messaging.Courier.Finish | src/runner.rs:245-253 | the end of a run takes its token back and no other |
| Messaging.Courier.BlockMessage | src/runner.rs:316-319 | a refusal blocks one part of one explicit message and no other row |
| Messaging.KeptExactly | src/runner.rs:285-314 | a send goes on waiting exactly while no piece is blocked and some piece is unacknowledged |
| Messaging.HonouredStays | src/runner.rs:266-314 | a receipt once given stays true while the journal moves on |
| Messaging.ExplicitQueues | src/core.rs:17-49 | the pieces of an explicit message concatenate to its text, under increasing transactions |

## Left out

- SQLite itself: transactions are atomic and rows are numbered in order; file permissions, locking, schema creation and
  the migration of prompts and workspaces from older versions are not modelled.
- The subprocess, its handshakes, JSON-RPC framing, time-outs of single requests and capacities of channels: the agent is
  an environment that may answer, refuse, ask or break off at any time; its permission handler's check and insert are one step.
- Liveness: nothing is said about what eventually happens if the network or the agent never answers.
- The Matrix SDK, cryptography, media, rendering and decoding: decoding is a function of the event that yields a
  message, no message, a missing key or a failure, and may change from one attempt to the next.
- HTTP, sockets, MCP serving, attachment download, command line, setup and validation of the configuration, which is
  taken to stay the same, across restarts too.
- Notices: the bridge's notices are a parameter; taking prompts apart assumes that they, sender ids and attachment lines
  are single lines that do not start with four spaces, which they are.
- `SELECT DISTINCT` order: conversations resumed or flushed together are taken in order of first occurrence.
- Plain handling: `handle` without history is modelled for one call, and shown never to conflict; histories handle each
  message with the history fetched for it, as `ingest_live_batch` does whenever it matters.
- Order.HandedInArrivalOrder: claims nothing for session steering and interjections, which the program sends through
  unordered futures.
- Messaging.Courier.Journalled: stands for any transactions of the bridge between two polls by what they leave of the
  outbox, rather than by running them.
- Search decode errors that abort a call, the text encoding of cursors, `thread` and `context_for` pagination: the
  cursor is a pair of page token and offset.
- The tie between `Sync` and the journal is by contract: what the follower calls admission is `Admission.LetInOnce`.
