# Flow Healer coordination, modelled and proved

Flow Healer runs AI repair attempts on GitHub issues. This project models the code that coordinates those
attempts and proves what it guarantees and where it does not. `dafny verify dfyconfig.toml` checks it.

| module | what it models |
|---|---|
| `AppServer`, `RequestRounds`, `HonestServers`, `AppServerStuck`, `Connector` | the JSON-RPC client of `codex app-server`: an interleaved step machine of caller and reader threads, the rounds of a request and a turn, which server a reply comes from, what holding the lock costs, and the blocks of code between two waits as methods on the shared fields |
| `TurnFold`, `TurnAnswers` | how one turn's answer is assembled from the notification stream, and what it is |
| `LockScopes`, `PathShape`, `LockKeys`, `LockCoverage`, `LockTable` | lock keys over repository paths, escalation, how much they cover, conflict, the lock table and the dispatcher's use of it |
| `SwarmBackend`, `SwarmRecovery`, `SwarmPlans` | the parallel fan-out of subagents, the staged recovery, and its plans and outcomes |
| `TaskFields`, `IssueForm` | the issue-contract parser and the form printer that feeds it |
| `BrowserSteps` | the browser step parser and printer |
| `ControlPlane`, `Scan`, `Reconciler` | at-most-once commands, the repository scan, workspace reconciliation, over whole histories |
| `SmokeMath` | half-up rounding of fractions and its error |
| `Text`, `Wrappers` | string operations and result types the others share |

Code that updates state step by step is modelled as methods and classes, each proved equal to a specification
function; the theorems are about those functions, over every input, run or history. Time, thread schedules,
deadlines, process deaths, replies of agents, failing removals and the order of unordered results are free
choices: the theorems hold for all of them. Every lemma switches automatic induction off, so its proof is the one
written in its body.

## What the proofs brought out

The models follow the code; these are places where it does something other than its names and messages say.

- A turn that ends with a status other than `completed` never reports the server's error message. The code passes
  the result object to a function that wants a string, and the attribute error replaces the message
  (`TurnFold.FailedTurnLosesItsMessage`).
- The two branches that report that the server "exited unexpectedly" are never taken when a server exits: a reader
  needs the lock to announce the end of its stream, and a waiting caller holds it, so a dead server shows as a
  time-out. Only an object that a live server prints with an `__eof__` key of its own takes them
  (`AppServer.MarkersAreNeverRead`, `AppServer.ExitsExactlyOnEofKey`, `AppServerStuck.StuckIsReachable`,
  `AppServerStuck.StuckUntilTimeout`).
- When the first delta of the final item arrives after the item's completion, the final answer is doubled
  (`TurnFold.LateDeltaDoublesAnswer`).
- Two path lists that share `a/../...` or `x /y` can get lock keys that do not conflict
  (`LockKeys.DotsOnlyPath`, `LockKeys.UntidyPathEscapes`; the exact condition is `LockKeys.AlwaysConflictsIff`).
- `upgrade_locks` can report success without holding all keys: its listing still shows expired rows
  (`LockTable.UpgradeLocks`).
- A recovery run emits no `swarm_finished` when a turn that it reaches raises: the connector factory in the sequential
  fan-out, in the manager's turn or in the repair turn, or the evaluation, then with the repair already made
  (`SwarmRecovery.Recover`, `SwarmRecovery.CrashLeaves`).
- One-line form values with an edge backtick, or with a list mark, do not come back (`IssueForm.SurvivesIff`).
- A command that meets a duplicate in a later repository leaves open records in the earlier ones, which then refuse
  the command for good (`ControlPlane.DuplicateStrands`).
- Rows in a state that neither state list names, such as `needs_clarification`, and leased failed rows lose their
  directory but keep pointing to it (`Reconciler.LoneRowDanglesIff`).

## Model

| member | source | states |
|---|---|---|
| `AppServer.StepKeeps` | src/flow_healer/codex_app_server_connector.py:57-449 | Every step of every caller or reader thread keeps the invariant: exactly the lock holder is inside a lock block; the pending table is the open request of the lock holder or empty; response queues hold only messages with their own id; no end-of-stream marker is queued during a turn; the history of sent and answered ids is well formed |
| `AppServer.RunKeeps` | src/flow_healer/codex_app_server_connector.py:57-449 | The invariant holds after every schedule: any interleaving of any number of callers and readers, with any time-outs, failed writes, restarts and server output |
| `AppServer.OnePendingRequest` | src/flow_healer/codex_app_server_connector.py:374-404 | In every reachable state at most one request is pending, it is the latest id and belongs to the thread that holds the lock, and none is pending while the lock is free |
| `AppServer.AnswersMatchRequests` | src/flow_healer/codex_app_server_connector.py:374-449 | Over every run, ids are sent once and in increasing order, every reply a request takes carries the id of that request, which was sent before, and no request takes two (section 5 of the JSON-RPC 2.0 specification) |
| `HonestServers.RunFrom` | src/flow_healer/codex_app_server_connector.py:374-449 | If at every step a server process prints objects with an id only for requests it has been sent, every message of it that a reader holds, a response queue holds or a request has taken answers a request that was sent to it |
| `HonestServers.AnswersComeFromTheirServer` | src/flow_healer/codex_app_server_connector.py:374-449 | Then every reply taken from it belongs to the very request that was written to it, over every run with any time-outs and restarts: a late reply of an earlier process never answers a later request |
| `AppServer.MarkersAreNeverRead` | src/flow_healer/codex_app_server_connector.py:304-319 | In no run does a marker that the client put end a request or a turn, and none is queued between a turn's drain and its return: whatever ends one as "exited unexpectedly" is an object a server printed with an `__eof__` key |
| `AppServer.ExitsExactlyOnEofKey` | src/flow_healer/codex_app_server_connector.py:316-319 | A request or turn that takes such an object ends so, and one that takes anything else does not |
| `RequestRounds.RequestRound` | src/flow_healer/codex_app_server_connector.py:374-404 | With a live server and a free reader, the schedule write, read the object with the id of the request, put, take, close gives exactly that object to that request: one sent and one answered (or exited) event, the id no longer pending, success exactly when the object is neither an error nor carries an `__eof__` key |
| `RequestRounds.WaitingTakesHead` | src/flow_healer/codex_app_server_connector.py:391-392 | A waiting request with a non-empty response queue takes the head and nothing else, unless its time-out comes first |
| `RequestRounds.AwaitingTakesHead` | src/flow_healer/codex_app_server_connector.py:313-322 | A turn with a non-empty notification queue takes the head; the message decides whether it goes on, returns, or raises and stops the server |
| `RequestRounds.TimedOutRound` | src/flow_healer/codex_app_server_connector.py:383-404 | A request that times out or cannot be written is closed all the same: it has failed, nothing is pending, and no answer is recorded |
| `RequestRounds.FailedRequestStops` | src/flow_healer/codex_app_server_connector.py:143-166 | A failed `initialize` or `turn/start` stops the server, a failed `thread/start` does not |
| `RequestRounds.LaunchStartsServer` | src/flow_healer/codex_app_server_connector.py:208-253 | A launch makes a new process the current server, with a reader of its own, and asks it to initialize |
| `RequestRounds.OperationsStart` | src/flow_healer/codex_app_server_connector.py:57-131 | What each entry point does once it has the free lock: whether it asks for a thread or drains and starts a turn, stops, restarts or leaves |
| `RequestRounds.LockBlocks` | src/flow_healer/codex_app_server_connector.py:57-131 | A caller or reader at a taken lock stays where it is |
| `RequestRounds.TurnCanComplete` | src/flow_healer/codex_app_server_connector.py:112-166 | From every reachable state with a live server, a free reader and a free lock, a turn can run to its end: the reply with the id of its `turn/start` is given to it and the lock is free again |
| `RequestRounds.PostsNote` | src/flow_healer/codex_app_server_connector.py:438-448 | An object with a method that answers no pending request goes to the end of the notifications |
| `RequestRounds.StopForgetsServer` | src/flow_healer/codex_app_server_connector.py:406-421 | Stopping forgets the server, empties the pending table and puts one marker among the notifications, whoever asked for it |
| `RequestRounds.ShutdownStops` | src/flow_healer/codex_app_server_connector.py:69-72 | A shutdown leaves no server, no pending request and a free lock |
| `AppServerStuck.StuckUntilTimeout` | src/flow_healer/codex_app_server_connector.py:423-449 | Once a caller waits and every reader stands at the lock, nothing but that caller's own time-out can ever happen to it |
| `AppServerStuck.NoiseLineSticks` | src/flow_healer/codex_app_server_connector.py:428-449 | One line that is not JSON, or the end of the stream, read by the only free reader while a request waits for its response or a turn for a notification, leads into that state |
| `AppServerStuck.StuckIsReachable` | src/flow_healer/codex_app_server_connector.py:57-67 | A fresh client gets there in twelve steps: one caller starts a server whose first line is not JSON |
| `Connector.CodexAppServerConnector.OpenRequest` | src/flow_healer/codex_app_server_connector.py:374-382 | Without a live server the head of a request raises and uses up no id; else it changes the shared fields as two steps of the machine do and returns the id that is now registered with an empty response queue |
| `Connector.CodexAppServerConnector.CloseRequest` | src/flow_healer/codex_app_server_connector.py:402-404 | The `finally` of a request changes the shared fields as one machine step does |
| `Connector.CodexAppServerConnector.NotifyEof` | src/flow_healer/codex_app_server_connector.py:415-421 | The notification loop is a run of machine steps of one thread: it empties the table, puts one marker into each response queue and one among the notifications |
| `Connector.CodexAppServerConnector.DrainNotifications` | src/flow_healer/codex_app_server_connector.py:532-537 | The drain loop is as many machine steps as there were notifications, and leaves none |
| `Connector.CodexAppServerConnector.Deliver` | src/flow_healer/codex_app_server_connector.py:438-448 | A JSON object goes to the response queue of the pending request with its id, where the put waits while the queue is full, else among the notifications if it has a method, else nowhere, as two machine steps do it |
| `TurnFold.AwaitTurnCompletion` | src/flow_healer/codex_app_server_connector.py:304-372 | The notification loop gives the outcome decided by the first note that ends the wait and, for a completed turn, by closed forms over the notes before it: delta chunks, last text, last phase and order of each item |
| `TurnFold.RenderAgentOutput` | src/flow_healer/codex_app_server_connector.py:540-573 | The loops over the ids compute the answer of the list of item bodies, without which item is answered being left open: `TurnAnswers` says that; the last strip changes nothing |
| `TurnFold.RenderTexts` | src/flow_healer/codex_app_server_connector.py:552-559 | The loop over the candidate items collects their stripped texts that are not blank, in order |
| `TurnFold.CommentaryTail` | src/flow_healer/codex_app_server_connector.py:560-568 | The backward search finds the last text that is not blank among the items that are not final |
| `TurnFold.OnlyOwnNotesMatter` | src/flow_healer/codex_app_server_connector.py:304-372 | Leaving out every note that is not of the awaited thread and turn, an `error` note or the end of the stream leaves the outcome unchanged |
| `TurnFold.Noninterference` | src/flow_healer/codex_app_server_connector.py:304-372 | Two streams that agree on those notes have one outcome: foreign notes can be put in or taken out anywhere |
| `TurnFold.ErrorsEndAnyTurn` | src/flow_healer/codex_app_server_connector.py:370-372 | An `error` note ends the turn it arrives in, whichever turn it belongs to, with its message or the default text |
| `TurnFold.FailedTurnLosesItsMessage` | src/flow_healer/codex_app_server_connector.py:357-369 | A turn that ends with any status but `completed`, and only such a turn, is reported with one internal attribute error: neither the server's message nor the output reaches the caller |
| `TurnFold.OrderDistinct` | src/flow_healer/codex_app_server_connector.py:324-348 | Every item stands once in the order, by first appearance, exactly when no item's first delta comes after its completion |
| `TurnFold.OrderMembers` | src/flow_healer/codex_app_server_connector.py:324-348 | An item is in the order exactly when it had a delta or a completion |
| `TurnFold.ChunkingIrrelevant` | src/flow_healer/codex_app_server_connector.py:540-573 | Without such late deltas the answer depends only on the order of first appearance and on each item's joined deltas, last text and last phase |
| `TurnFold.SplitDelta` | src/flow_healer/codex_app_server_connector.py:324-331 | Cutting any delta in two, anywhere and late or not, changes no outcome |
| `TurnFold.OrderOccurs` | src/flow_healer/codex_app_server_connector.py:324-348 | In every stream an item stands in the order twice exactly when its first delta comes after its completion, else once if it appeared at all |
| `TurnFold.LateDeltaDoublesAnswer` | src/flow_healer/codex_app_server_connector.py:324-348 | A completed turn whose only final item has a text answers with that text, and with the text twice exactly when the item's first delta came after its completion |
| `TurnFold.LateIsAboutTheFirstDelta` | src/flow_healer/codex_app_server_connector.py:324-348 | A delta after the completion is late without an earlier delta, and not late with one |
| `TurnAnswers.CompletedTurnAnswers` | src/flow_healer/codex_app_server_connector.py:540-573 | A completed turn has a final answer exactly when some item of the order is final; its output then is the final texts that are not blank, in order, joined by blank lines, and without a final item the text of the last item of the order |
| `TurnAnswers.CompletedTurnTail` | src/flow_healer/codex_app_server_connector.py:560-568 | Its commentary tail is the text at the greatest place of the order that is neither final nor blank, or nothing |
| `TurnAnswers.LatestCompletionWins` | src/flow_healer/codex_app_server_connector.py:333-348 | The text of an item is that of its latest completion, its phase that of the latest completion that names one |
| `TurnAnswers.WhatNotesSpeakOf` | src/flow_healer/codex_app_server_connector.py:324-348 | Which item a note speaks of: deltas and agent-message completions of the own thread and turn speak of the stripped id they carry, all else of none |
| `TurnAnswers.EofEndsTurn` | src/flow_healer/codex_app_server_connector.py:312-319 | An object with a true `__eof__` key ends the turn it arrives in with that message, whatever follows, and running out of notes is a time-out |
| `PathShape.NormalizedShape` | src/flow_healer/healer_locks.py:112-120 | A usable normal form has only plain components, or is `..`, and holds no backslash |
| `PathShape.NormalizeAgain` | src/flow_healer/healer_locks.py:112-120 | What normalizing a trimmed normal form again gives: only leading dots and slashes are lost, so normalization is not idempotent |
| `PathShape.KeyScope` | src/flow_healer/healer_locks.py:153-166 | Parsing the key made from a kind and a normal form gives that kind and the form without leading dots and slashes, or nothing when only those are there |
| `PathShape.NormPathResolves` | src/flow_healer/healer_locks.py:112-120 | `a/x/../b` normalizes as `a/b`, and so do `a/./b` and `a//b` |
| `PathShape.UnusableIff` | src/flow_healer/healer_locks.py:112-120 | A path is unusable exactly when no component is left of it, or when it still climbs out and more than the parent segment is left |
| `PathShape.CleanedAlike` | src/flow_healer/healer_locks.py:112-120 | White space around a path, `./` before it and the kind of its slashes make no difference |
| `LockScopes.ParentIffComponents` | src/flow_healer/healer_locks.py:181-182 | The string test for ancestors is true exactly when the components of the one are a prefix of the components of the other |
| `LockScopes.ContainsIffCovers` | src/flow_healer/healer_locks.py:169-174 | A scope contains a path, as the code tests it, exactly when it covers the path by components |
| `LockScopes.ScopesConflictIffCommonPath` | src/flow_healer/healer_locks.py:85-96 | Two scopes conflict exactly when some path is covered by both |
| `LockScopes.ConflictIffCommonPath` | src/flow_healer/healer_locks.py:85-96 | `lock_keys_conflict` is true exactly when some path is covered by both parsed keys, for every pair of strings; keys that do not parse cover nothing |
| `LockScopes.ConflictSymmetric` | src/flow_healer/healer_locks.py:85-96 | Conflict is symmetric |
| `LockScopes.ParseCanonical` | src/flow_healer/healer_locks.py:62-63 | The canonical form of a key, which is what the table stores, means what the key means |
| `Text.SortedIncreasing` | src/flow_healer/healer_locks.py:62-63 | The sorted listing of a set of keys is increasing |
| `Text.IncreasingUnique` | src/flow_healer/healer_locks.py:62-63 | A set has only one increasing listing, so no other result of sorting is possible |
| `LockKeys.DiffKeysLock` | src/flow_healer/healer_locks.py:76-82 | Whatever the threshold, the keys of a path list lock each usable path of it: by its path, by its directory, or with everything |
| `LockCoverage.DirectoryLockIs` | src/flow_healer/healer_locks.py:123-129 | An escalated lock keeps one component as a module lock, the first of two as a directory, and the first two of more |
| `LockCoverage.DiffKeysCoverOnly` | src/flow_healer/healer_locks.py:76-82 | Locks are no larger than they must be: above the threshold every path a key covers lies below the kept directory of a listed path, else it is a listed path |
| `LockCoverage.ConflictsAreNear` | src/flow_healer/healer_locks.py:76-96 | Two path lists get a conflicting pair of keys only if the kept directories of a path of each lie one below the other, whatever the thresholds: work apart is never refused |
| `LockCoverage.NoUsablePathLocksAll` | src/flow_healer/healer_locks.py:76-82 | Without a usable path everything is locked |
| `LockKeys.AlwaysConflictsIff` | src/flow_healer/healer_locks.py:76-129 | For every usable path: all pairs of path lists that share its file, in whatever spellings, under all pairs of thresholds, get a conflicting pair of keys exactly when the path key and the directory key of the file conflict |
| `LockKeys.SharedPathConflicts` | src/flow_healer/healer_locks.py:76-129 | For paths whose blanks survive in keys, that is so exactly when the directory part is more than dots and slashes |
| `LockKeys.OrdinaryPathsConflict` | src/flow_healer/healer_locks.py:76-129 | It is so for every usable path without white space and without a `..` segment |
| `LockKeys.NamelessEscapes` | src/flow_healer/healer_locks.py:123-129 | A path whose directory part is only dots escalates to a key that conflicts with nothing |
| `LockKeys.DotsOnlyPath` | src/flow_healer/healer_locks.py:76-129 | `a/../...` normalizes to such a path: some lists that share it get no conflicting keys |
| `LockKeys.UntidyPathEscapes` | src/flow_healer/healer_locks.py:76-129 | `x /y` is a normal form for which the overlap theorem fails, because its directory key loses the blank |
| `LockKeys.SelectPaths` | src/flow_healer/healer_locks.py:39-50 | The selection loop keeps the first usable normal forms in the order of first appearance, up to the limit |
| `LockKeys.SelectIs` | src/flow_healer/healer_locks.py:39-50 | The selection holds usable forms that were read, each once, at most the limit, and all of them unless the limit cut it short |
| `LockKeys.PredictLockSet` | src/flow_healer/healer_locks.py:39-59 | The prediction is the one for the selected paths |
| `LockKeys.PredictionLocksExactly` | src/flow_healer/healer_locks.py:52-59 | It locks every selected path and nothing else: everything when no path was selected, the directories of the selected paths when there are more than ten, and else the selected paths |
| `LockCoverage.PredictionCoversOnly` | src/flow_healer/healer_locks.py:52-59 | The keys of a prediction cover only its selected paths or, above ten, only what lies below their kept directories |
| `LockKeys.PredictionMeetsDiff` | src/flow_healer/healer_locks.py:39-82 | Predicted locks conflict with the diff locks of a list that shares one of the predicted files, in any spelling, wherever the overlap theorem holds for that file |
| `LockTable.LockStore.CleanupExpired` | src/flow_healer/store.py:1117-1122 | Exactly the rows whose lease is over go |
| `LockTable.LockStore.FirstConflict` | src/flow_healer/store.py:1192-1195 | The scan finds a blocked key exactly when one of the wanted keys conflicts with a row of another issue |
| `LockTable.LockStore.Acquire` | src/flow_healer/store.py:1124-1166 | One lock: refused exactly on a conflict with a live row of another issue, else granted or renewed; the whole new table; no two issues ever hold conflicting keys |
| `LockTable.LockStore.AcquireBatch` | src/flow_healer/store.py:1168-1228 | A batch: refused exactly when a wanted key is blocked, and then nothing is taken; else all wanted keys are held; other rows stay; no two issues ever hold conflicting keys |
| `LockTable.LockStore.InsertAll` | src/flow_healer/store.py:1219-1226 | The inserted rows, where no key is there already |
| `LockTable.BlockedIff` | src/flow_healer/store.py:1192-1195 | A key is blocked for an issue exactly when a row of another issue and the key cover a common path |
| `LockTable.ExclusiveIff` | src/flow_healer/store.py:1124-1228 | Apart from each other means that no path is covered by rows of two issues, and nothing else |
| `LockTable.ReleasedIs` | src/flow_healer/store.py:1230-1242 | A release takes exactly the issue's rows of the named keys or, without names, all its rows |
| `LockTable.GranularityIs` | src/flow_healer/healer_locks.py:66-73 | The granularity of a key is its kind |
| `LockTable.LeaseRuns` | src/flow_healer/store.py:1124-1140 | A lease runs for the seconds asked for, but for one at least |
| `LockTable.LiveIs` | src/flow_healer/store.py:1117-1122 | A row is live until its expiry and no longer |
| `LockTable.RenewExclusive` | src/flow_healer/store.py:1209-1218 | Renewing keeps conflicting keys apart and blocks nothing new |
| `LockTable.ReleaseExclusive` | src/flow_healer/store.py:1230-1242 | Releasing keeps conflicting keys apart; without names the issue holds nothing afterwards |
| `LockTable.AcquirePredictionLocks` | src/flow_healer/healer_dispatcher.py:41-51 | A granted request holds every canonical key with a live lease; live rows of other keys stay as they are |
| `LockTable.UpgradeLocks` | src/flow_healer/healer_dispatcher.py:53-58 | An upgrade that reports success holds all its keys exactly when none of the keys it held before had expired |
| `LockTable.NoSharedFile` | src/flow_healer/store.py:1124-1228 | Two issues that hold the diff locks of what they changed never changed one and the same file, in whatever spellings, for every file the overlap theorem covers |
| `SwarmBackend.TimedOutIsTimeout` | src/flow_healer/healer_swarm.py:266-278 | The result made for a request that timed out is recognised as a time-out |
| `SwarmBackend.TableIsWinners` | src/flow_healer/healer_swarm.py:150-157 | The table of results holds for each role the first time-out reported for it or, without one, the first result |
| `SwarmBackend.KeptTimeout` | src/flow_healer/healer_swarm.py:150-157 | The kept result of a role is a time-out exactly when some result reported for the role was one |
| `SwarmBackend.OrderIrrelevant` | src/flow_healer/healer_swarm.py:150-157 | With one report a role, the table does not depend on the order of the reports |
| `SwarmBackend.ListingIs` | src/flow_healer/healer_swarm.py:136-231 | The returned list is sorted by role, has one entry for each reported role and no other, and an entry is a time-out exactly when one was reported for its role |
| `SwarmBackend.OneEntryEachRole` | src/flow_healer/healer_swarm.py:136-231 | Once every request is reported, the list has exactly one entry for each requested role |
| `SwarmBackend.EntriesAccounted` | src/flow_healer/healer_swarm.py:150-231 | Every entry of the list is the time-out of a request of its role or carries what the run of such a request gave: raw text, parsed reply, success and error, or the message of its exception on an empty failed result |
| `SwarmBackend.OwnEntry` | src/flow_healer/healer_swarm.py:150-231 | With distinct roles and no deadline an entry carries exactly what the run of its role's own request gave |
| `SwarmBackend.TimeoutIff` | src/flow_healer/healer_swarm.py:277-278 | A result is a time-out exactly when its error says "timed out" somewhere, in capitals or not |
| `SwarmBackend.RunParallel` | src/flow_healer/healer_swarm.py:136-231 | For every completion order and deadline each request is reported exactly once, and the list has exactly one entry for each requested role, in the order of roles, each a time-out or with the whole result of a run of its role; with distinct roles and no deadline each entry is that of its own request, and both branches return the list of the sequential run; an exception gets through exactly when the sequential branch reaches a run that raises, and it is that of the first such run, with the requests before it reported |
| `SwarmBackend.RunInTurn` | src/flow_healer/healer_swarm.py:159-170 | The sequential branch: every request reported once, or the exception of the first run that raises before the deadline |
| `SwarmBackend.RunPool` | src/flow_healer/healer_swarm.py:171-231 | The thread-pool branch: every request reported once, whatever each wait gives back; the loop over roles without a result finds none |
| `SwarmBackend.TimeOutRest` | src/flow_healer/healer_swarm.py:203-212 | What is pending after the last wait is reported as timed out, each request once |
| `SwarmRecovery.UniquePreserveOrder` | src/flow_healer/healer_swarm.py:979-988 | The loop keeps each value once, stripped and not blank, in the order of first appearance |
| `SwarmRecovery.UniqueIs` | src/flow_healer/healer_swarm.py:979-988 | Those values are distinct and are exactly the stripped ones that are not blank |
| `SwarmRecovery.FallbackRecoveryPlan` | src/flow_healer/healer_swarm.py:883-914 | The fallback plan repairs unless a scope-guard result objects, and collects scope, tests, surfaces and the first two causes from all analyzers |
| `SwarmPlans.FallbackStrategyIff` | src/flow_healer/healer_swarm.py:883-893 | For every analyzer list the fallback quarantines exactly when some scope-guard result has a reply that asks for quarantine or disallows repair |
| `SwarmPlans.FallbackListsAre` | src/flow_healer/healer_swarm.py:894-914 | The members of its edit scope, tests and validation focus are exactly the stripped texts that are not blank of the reply fields it collects: the scope guard's edit scope and the other roles' likely paths, all targeted tests, all failing surfaces |
| `SwarmPlans.FallbackCauseIs` | src/flow_healer/healer_swarm.py:894-914 | Its root cause is nothing, the only cause, or the first two with a blank between |
| `SwarmPlans.ManagerPlanIs` | src/flow_healer/healer_swarm.py:564-602 | A usable manager reply is the plan: a strategy it names, stripped and in lower case, if it is one of the four and else repair, and its own texts |
| `SwarmPlans.FallbackIsThePlan` | src/flow_healer/healer_swarm.py:869-880 | Without a usable manager reply the plan is the fallback |
| `SwarmRecovery.StrategyIsKnown` | src/flow_healer/healer_swarm.py:869-880 | Every plan has one of the four strategies; with an unusable manager reply it is quarantine exactly when some scope-guard reply asks for quarantine or disallows repair, and else repair |
| `SwarmRecovery.PlanIsClean` | src/flow_healer/healer_swarm.py:564-602 | The plan, whether the manager's or the fallback, never has a blank summary, and its lists hold only stripped texts that are not blank |
| `SwarmRecovery.PhaseTells` | src/flow_healer/healer_swarm.py:304-562 | What each phase of the event protocol says about the events so far |
| `SwarmRecovery.FinishedTrace` | src/flow_healer/healer_swarm.py:304-562 | Every run that ends emits `swarm_started` first and once and `swarm_finished` last and once; no prefix has more evaluations than repairs and no run more than one; a time-out of a role or of the recovery rules out evaluation and recovery; recovery needs an evaluation |
| `SwarmRecovery.Recover` | src/flow_healer/healer_swarm.py:304-562 | Every run that returns keeps the event protocol, and reports recovery exactly when no deadline passed, no analyzer, manager or repair result was a time-out, the plan was to repair and the evaluation succeeded; plan, failure class and output are those of the stage it ended in. An exception leaves it, without `swarm_finished`, exactly when a turn that is reached raises: the first analyzer run that raises in the sequential fan-out, the manager's or the repair turn, or the evaluation |
| `SwarmPlans.RecoversIff` | src/flow_healer/healer_swarm.py:304-562 | When a run recovers, spelled out over deadlines, results, plan and evaluation |
| `SwarmPlans.CrashesIff` | src/flow_healer/healer_swarm.py:304-562 | When each turn raises, spelled out: only where every deadline and result before it allows, and after a plan to repair for the two last turns |
| `SwarmPlans.OutcomeTells` | src/flow_healer/healer_swarm.py:431-562 | The outcome carries what the turns gave: the plan of the manager's own result, the raw output of the repair run, the verdict of the evaluation; after a recovery time-out the quarantined fallback plan |
| `SwarmPlans.TurnResultsAre` | src/flow_healer/healer_swarm.py:304-562 | The results of the manager and the repair turn carry their roles and exactly what the runs gave |
| `SwarmRecovery.CrashLeaves` | src/flow_healer/healer_swarm.py:304-562 | The events such a run leaves behind: `swarm_started`, no `swarm_finished`, no evaluation, and a repair that has run exactly when it was the evaluation that raised |
| `SwarmRecovery.TimeOut` | src/flow_healer/healer_swarm.py:355-385 | A run out of time ends with the two closing events and the quarantine outcome |
| `SwarmRecovery.RepairAndEvaluate` | src/flow_healer/healer_swarm.py:493-562 | From the repair turn on: the outcome that repair, deadline and evaluation decide, or the exception of the one that raises |
| `SwarmRecovery.Evaluate` | src/flow_healer/healer_swarm.py:532-562 | From the evaluation on: its outcome, or its exception after a repair that has run |
| `SwarmRecovery.PlanAndRepair` | src/flow_healer/healer_swarm.py:431-562 | From the manager's turn on: the plan, repair only for a repair plan with time left, and the exception of the first turn that raises |
| `SwarmRecovery.VetoPreventsRepair` | src/flow_healer/healer_swarm.py:883-893 | When the manager's reply is unusable, a scope-guard reply that asks for quarantine or disallows repair rules out repair, evaluation and recovery |
| `SwarmRecovery.VetoPreventsLateCrash` | src/flow_healer/healer_swarm.py:883-893 | Such a run can raise in the manager's turn only |
| `SwarmRecovery.TimeoutQuarantines` | src/flow_healer/healer_swarm.py:355-385 | A run with any time-out ends in quarantine with failure class `swarm_timeout` and without an evaluation |
| `TaskFields.SplitLinesJoin` | src/flow_healer/healer_task_spec.py:654-655 | Lines without breaks, joined and ended, split into themselves |
| `TaskFields.CollectScalarSectionValue` | src/flow_healer/healer_task_spec.py:686-694 | The value of a section is its first line that is not blank, without a list mark, unless another section starts first |
| `TaskFields.ScalarSectionIs` | src/flow_healer/healer_task_spec.py:686-694 | Blank lines are skipped, the next section ends the search, and the first other line is the value |
| `TaskFields.CollectListSectionValues` | src/flow_healer/healer_task_spec.py:697-710 | The items of a section run to a blank line after the first item or to the next section |
| `TaskFields.ExtractExplicitScalarField` | src/flow_healer/healer_task_spec.py:653-667 | The field is read at the first line that opens it |
| `TaskFields.ExtractExplicitListField` | src/flow_healer/healer_task_spec.py:670-683 | The list is read at the first line that opens it |
| `TaskFields.HeadingOpens` | src/flow_healer/healer_task_spec.py:713-740 | A heading of any depth opens the contract field its title names and no other, and bounds the section before it |
| `TaskFields.ContractFields` | src/flow_healer/healer_task_spec.py:82-95 | The nine fields that lines can open |
| `TaskFields.FieldNameIs` | src/flow_healer/healer_task_spec.py:747-749 | Whatever stands between two words of a label, other than letters and digits, becomes one underscore of the field name |
| `TaskFields.FieldNameWord` | src/flow_healer/healer_task_spec.py:747-749 | Case does not count in labels, and a word of lower-case letters and digits names its own field |
| `TaskFields.LabelIs` | src/flow_healer/healer_task_spec.py:713-722 | What counts as a label before a colon, by its characters; white space before the colon does not count |
| `TaskFields.CleanItemIs` | src/flow_healer/healer_task_spec.py:743-744 | A list item is read without its bullet, or its number with a period or bracket |
| `TaskFields.LinesBreak` | src/flow_healer/healer_task_spec.py:654-655 | Every kind of line break ends a line, and a carriage return with a line feed is one |
| `IssueForm.IssueFormValue` | scripts/validate_repro_contract_examples.py:21-37 | A field prints the value given under its id, else under its label, else its first option, placeholder or preset |
| `IssueForm.CaptionIs` | scripts/validate_repro_contract_examples.py:40-59 | The caption of a field is its label or, without a label attribute, its id |
| `IssueForm.RenderIssueFormBody` | scripts/validate_repro_contract_examples.py:40-59 | The body is the blocks of the fields that have a label and a value, stripped and ended by a line break |
| `IssueForm.DashOpensNothing` | src/flow_healer/healer_task_spec.py:713-744 | A line that starts with a dash or a star opens no field and bounds no section, whatever else it says |
| `IssueForm.CaptionOpens` | src/flow_healer/healer_task_spec.py:713-740 | The line of a printed label opens the field it names and no other, with the value after the colon; it bounds the section before it exactly when the parser takes it for a label |
| `IssueForm.BodyLines` | scripts/validate_repro_contract_examples.py:56-59 | The printed body splits into the printed lines |
| `IssueForm.PrintedFormReads` | src/flow_healer/healer_task_spec.py:653-710 | Reading any contract field of any printed form, as one value or as a list, gives the content of the first entry that names it, or nothing; only for a value of nothing but backticks are the lines after it read |
| `IssueForm.SurvivesIff` | src/flow_healer/healer_task_spec.py:713-744 | A one-line value is read back unchanged exactly when it has no edge backtick or, starting with a dash or star, no white space after that |
| `IssueForm.TextKept` | scripts/validate_repro_contract_examples.py:21-37 | A bullet list or a one-line value of the domain is printed as it was put in, as a placeholder too |
| `IssueForm.PutInIsPrinted` | scripts/validate_repro_contract_examples.py:21-37 | A text put in under the id, the label, as first option, placeholder or preset is what the field prints |
| `IssueForm.PrintsForm` | scripts/validate_repro_contract_examples.py:40-59 | The printer prints exactly the fields that have something to print, put in or preset, with their contents |
| `IssueForm.RoundTrip` | scripts/validate_repro_contract_examples.py:21-59 | From the values put into the printer and the presets of its fields: with distinct names every bullet list reads back item by item, or as its first item where one value is read, and a one-line value exactly when it survives |
| `IssueForm.AbsentReadsEmpty` | scripts/validate_repro_contract_examples.py:21-59 | A contract field that no printed field names reads as empty |
| `BrowserSteps.ParseReproSteps` | src/flow_healer/browser_harness.py:609-639 | The loop parses the lines that are not blank, in order |
| `BrowserSteps.ParseNormalises` | src/flow_healer/browser_harness.py:609-639 | Every parsed step is normalised |
| `BrowserSteps.OneStepALine` | src/flow_healer/browser_harness.py:609-616 | There is exactly one step for each line that is not blank, in the order of the lines |
| `BrowserSteps.StepOfLine` | src/flow_healer/browser_harness.py:617-639 | The first word, in lower case and with underscores for dashes, is the kind, and the rest the subject unless the kind is `fill` or `fetch` |
| `BrowserSteps.RoundTrip` | src/flow_healer/browser_harness.py:689-695 | A step survives printing and reading exactly when it is normalised, `fill` values with `=` and `fetch` payloads included |
| `BrowserSteps.ReadPrintRead` | src/flow_healer/browser_harness.py:609-695 | For every list of lines, reading, printing and reading again gives what reading once gave |
| `BrowserSteps.PartitionAt` | src/flow_healer/browser_harness.py:617-633 | Cutting at the first separator undoes joining with it, when the first piece does not hold it |
| `ControlPlane.CreateAddsOne` | src/flow_healer/store.py:1344-1379 | Creating a record adds one key in one repository, changes no other record, and gives it an id no record has |
| `ControlPlane.UpdateHitsOne` | src/flow_healer/store.py:1381-1408 | An update by the id of a record changes that record and nothing else in any repository |
| `ControlPlane.IdsNeverRepeat` | src/flow_healer/store.py:1344-1408 | Over every history no two records of any repositories have one id |
| `ControlPlane.ControlRouter.Execute` | src/flow_healer/control_plane.py:81-152 | The call, with its two loops, changes the stores and replies as the specification of one call says |
| `ControlPlane.RegisterIs` | src/flow_healer/control_plane.py:98-119 | The registration loop stops at the first target that clashes, with an open record in every target before it and nothing else changed |
| `ControlPlane.EffectIs` | src/flow_healer/control_plane.py:81-152 | A call is dispatched exactly when no target clashes, and then every target has one more record with the common end status; on a clash the targets before it keep an open record; a refused call changes nothing |
| `ControlPlane.DispatchEnds` | src/flow_healer/control_plane.py:121-152 | Every record of a dispatched call ends as failed, with at most 500 characters of the exception's text, exactly when the action raised, and else as succeeded |
| `ControlPlane.KeyIs` | src/flow_healer/control_plane.py:81-97 | The key of a call: source in lower case, stripped, `unknown` when blank, and stripped id, cut to 40 and 200 characters |
| `ControlPlane.TargetsAre` | src/flow_healer/control_plane.py:192-198 | A call targets every configured repository of its stripped name, or all when it names none |
| `ControlPlane.AtMostOnce` | src/flow_healer/control_plane.py:81-152 | Over every history two dispatches of one key share no repository, and all records of a dispatched call have one final status |
| `ControlPlane.RecordsAreFinal` | src/flow_healer/control_plane.py:123-146 | No later call changes or removes a record, open ones included |
| `ControlPlane.DuplicateStrands` | src/flow_healer/control_plane.py:98-119 | A call that meets a duplicate dispatches nothing, and the records it made before stay open through every later history |
| `Scan.UpsertKnown` | src/flow_healer/store.py:1630-1656 | A record keeps its issue number where no new one comes, and no other record changes |
| `Scan.RecordsPointHome` | src/flow_healer/healer_scan.py:76-164 | Over every history every issue number in the records is that of an issue created for the fingerprint of the record |
| `Scan.FlowHealerScanner.Handle` | src/flow_healer/healer_scan.py:76-164 | What becomes of one finding, and the whole new state |
| `Scan.FlowHealerScanner.RunScan` | src/flow_healer/healer_scan.py:58-180 | The run is the specified one on the findings over the threshold, and the summary counts its verdicts |
| `Scan.ThresholdIs` | src/flow_healer/healer_scan.py:319-322 | Which findings pass each threshold: a finding at the threshold always does |
| `Scan.IncludedIs` | src/flow_healer/healer_scan.py:67-70 | The findings that pass are kept, all of them and in order |
| `Scan.VerdictIff` | src/flow_healer/healer_scan.py:76-164 | When each verdict is given, in terms of open issues, records, budget and switches |
| `Scan.SettleIs` | src/flow_healer/healer_scan.py:76-164 | What record and tracker hold after each verdict; other fingerprints keep theirs |
| `Scan.CandidateTargets` | src/flow_healer/healer_scan.py:334-357 | The loop keeps the targets that are not blank, each once up to case |
| `Scan.Partition` | src/flow_healer/healer_scan.py:58-180 | Every finding over the threshold lands in exactly one of five kinds; created ones stay within the budget, and there are none in a dry run, without a tracker or with creation off; no issue is lost and no known number forgotten |
| `Scan.ScopedIff` | src/flow_healer/healer_scan.py:324-362 | A finding is sandbox-scoped exactly when it names some target and every target it names is in the sandbox |
| `Scan.InSandboxIff` | src/flow_healer/healer_scan.py:359-362 | A target is in the sandbox exactly when it lies below one of the two sandbox directories, in capitals or not |
| `Scan.TargetIs` | src/flow_healer/healer_scan.py:334-357 | The target of a selector is the path before its first `::`, without `./` before it |
| `Scan.NoSecondIssue` | src/flow_healer/healer_scan.py:76-164 | Over all sequences of scans, under any configurations, and of closings, no fingerprint gets a second issue while one is open |
| `Scan.FindOpenIs` | src/flow_healer/healer_tracker.py:256-288 | The search finds an issue exactly when an open one has the fingerprint, and finds such a one |
| `Scan.FingerprintStripped` | src/flow_healer/healer_scan.py:378-380 | A fingerprint is never blank and has nothing to strip, so the search looks for what the issue body shows |
| `Reconciler.HealerReconciler.ListWorkspaceRefs` | src/flow_healer/store.py:451-473 | Some of the matching rows, all of them up to the limit |
| `Reconciler.RequeuedIs` | src/flow_healer/store.py:790-805 | After requeueing every row still at work has a live lease; the others that were at work are queued, unleased and keep their workspace; all other rows are as before |
| `Reconciler.HealerReconciler.RecoverStaleActiveIssues` | src/flow_healer/healer_reconciler.py:216-259 | The listed rows of other worker sessions go back to the queue without a workspace |
| `Reconciler.HealerReconciler.CleanupInactiveIssueWorkspaces` | src/flow_healer/healer_reconciler.py:188-214 | The listed inactive rows without a lease lose their workspace, and their directories go, in any order of the rows |
| `Reconciler.HealerReconciler.SweepOrphanWorkspaces` | src/flow_healer/healer_reconciler.py:384-406 | The directories that no listed preserved row points to go |
| `Reconciler.HealerReconciler.Reconcile` | src/flow_healer/healer_reconciler.py:66-92 | A pass is the four steps in turn and, with at most 2000 rows, the specified pass |
| `Reconciler.PassIs` | src/flow_healer/healer_reconciler.py:66-92 | What a pass makes of every row and of every directory |
| `Reconciler.OwnRowIsLeftAlone` | src/flow_healer/healer_reconciler.py:216-259 | A row at work with a live lease of the current worker session, or of nobody, is left alone by a whole pass |
| `Reconciler.StaleRowIsQueued` | src/flow_healer/healer_reconciler.py:216-259 | A row at work of another session, with a workspace, is queued without workspace and lease |
| `Reconciler.InactiveRowIs` | src/flow_healer/healer_reconciler.py:188-214 | An inactive row keeps everything while leased; unleased it loses exactly its workspace, and that exactly when the removal does not raise |
| `Reconciler.OtherRowIsLeftAlone` | src/flow_healer/healer_reconciler.py:66-92 | A row in any other state is left alone |
| `Reconciler.KeptDirectoryStays` | src/flow_healer/healer_reconciler.py:384-406 | The directory that a leased preserved row, or a row at work of the current session, has to itself is there after the pass |
| `Reconciler.LeasedIs` | src/flow_healer/healer_reconciler.py:417-424 | A lease is live while its expiry lies ahead and, without an expiry, as long as it has an owner |
| `Reconciler.DanglesIff` | src/flow_healer/healer_reconciler.py:188-259 | A row is left pointing to a directory the pass removed exactly when it is not cleaned itself and another row of that directory is, or no row keeps the directory |
| `Reconciler.LoneRowDanglesIff` | src/flow_healer/healer_reconciler.py:384-424 | With a workspace to itself, a row is left so exactly when its state is in neither list, or it is failed, resolved or archived and still leased |
| `Reconciler.NoDanglingRows` | src/flow_healer/healer_reconciler.py:66-92 | In an orderly table no row is left so, and of the directories that can be removed those remain that an active row or a queued row with a live lease points to |
| `Reconciler.SecondPassIsIdle` | src/flow_healer/healer_reconciler.py:66-92 | A second pass at the same time changes nothing |
| `SmokeMath.RoundIsHalfUp` | e2e-smoke/python/smoke_math.py:86-95 | Rounding gives a nearest integer, ties away from zero, for even and odd denominators |
| `SmokeMath.HalfUpUnique` | e2e-smoke/python/smoke_math.py:86-95 | There is only one such integer |
| `SmokeMath.Nearest` | e2e-smoke/python/smoke_math.py:86-95 | No integer is nearer |
| `SmokeMath.RoundOdd` | e2e-smoke/python/smoke_math.py:86-95 | Rounding is odd |
| `SmokeMath.RoundRespectsValue` | e2e-smoke/python/smoke_math.py:86-95 | Equal fractions round alike, however they are reduced |
| `SmokeMath.AddWithinOne` | e2e-smoke/python/smoke_math.py:207-210 | `add` is within 1 of the exact sum |
| `SmokeMath.Add3WithinThreeHalves` | e2e-smoke/python/smoke_math.py:213-222 | `add3` is within 3/2 of the exact sum |
| `SmokeMath.BoundsAreTight` | e2e-smoke/python/smoke_math.py:201-222 | Both bounds are met |

## Left out

- Strings are ASCII: `str.strip`, `str.lower`, `str.splitlines` and the character classes of regular expressions follow their ASCII tables; the four bullet characters beyond ASCII are included.
- Liveness: the locking supports no such claim, and none is made about prompt detection of a dead server; `AppServerStuck.StuckUntilTimeout` says what can no longer happen.
- Reader threads of standard error, health snapshots and the exec failover only take the lock and let it go; the machine has one operation for all of them. The Python memory model is taken as sequentially consistent.
- The machine lets the environment decide when a turn completes; how the answer is then built is modelled on its own, in `TurnFold`, over the notes that arrive before the deadline.
- `Connector` covers the fields that requests and notifications share; the sender table, availability texts and output tails are not modelled.
- JSON decoding, prompts, model output and subprocess handling: parsed messages and replies are arbitrary data.
- LockKeys.SharedPathConflicts: covers the paths whose normal form and directory part are trimmed, since a key is stripped of white space when it is parsed; `AlwaysConflictsIff` covers all paths.
- LockCoverage.DiffKeysCoverOnly: asks for trimmed forms and directory parts, since a key is stripped when it is parsed and would name another directory; `LockCoverage.DirectoryLockIs` needs nothing of the sort.
- LockCoverage.ConflictsAreNear: also asks for a directory part with a name; without one a directory key covers nothing.
- LockKeys.PredictLockSet: starts from the path candidates; the regular expressions that find candidates in issue text are not modelled.
- LockTable.NoSharedFile: is about the keys both issues hold at one moment; that an issue keeps its leases renewed while it works is the caller's duty and not modelled.
- SwarmBackend.RunParallel: `on_result` is taken not to raise; exceptions that are not ordinary ones, such as an interrupt, are not modelled.
- SwarmRecovery.Recover: building prompts and the telemetry callback are taken not to raise.
- IssueForm.RoundTrip: covers forms in which each printed value, put in or preset, is a single trimmed line or a bullet list, and each caption is one line without a colon and no heading; multi-line values without list marks are printed and parsed by the models but no round trip is claimed for them.
- Regex heuristics over issue text (paths, kind, language, framework) and the contract lint.
- ControlPlane.ControlRouter.Execute: calls run one after another, and command ids never repeat; two processes that race between the check and the insert meet the unique index of the table, which is not modelled. What a command does once dispatched is an action that may fail.
- Scan.NoSecondIssue: takes the tracker's search to find exactly the open issues whose body carries the fingerprint between backticks, and nobody reopens or files such issues by hand. The SHA-256 digest behind a fingerprint is any 64 hexadecimal digits, so two findings may share one.
- The checks that produce findings, issue bodies, and scan-run records.
- Reconciler.HealerReconciler.Reconcile: leaves out attempts, process groups, artifact roots, browser sessions, runtime profiles and locks, which the pass handles without touching rows' workspaces; workspaces are direct children of the healer root or outside it, and lease time stamps parse.
- Reconciler.NoDanglingRows: asks for an orderly table because the claim is false of others; `DanglesIff` says exactly which rows are left pointing nowhere in any table.
- String, float, decimal and plain integer operands of `add` and `add3`: only fractions are modelled.
- Dashboard, command line, configuration loading, the other connectors, memory scoring and preflight reporting.
- Trading examples under `e2e-apps`.
