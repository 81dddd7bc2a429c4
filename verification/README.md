# Axioma, modelled and proved

Dafny models of the parts of Axioma in which state is shared between processes that crash,
retry and overlap, and of its exact arithmetic:

| component | modules |
|---|---|
| device commands: gateway numbering, outbox and replay; the daemon's queue and its persisted sequence | `DeviceIdentity`, `DeviceDaemon`, `DeviceGateway`, `DeviceProtocol` |
| agent runs: the writers of a run's status, leases, retained terminal messages and acknowledgements | `RetainedTerminals`, `RunLifecycle` |
| the ledger of tool calls | `ToolLedger` |
| the agent's loop: budgets, transcript, the gate before a resolution, the evidence scan | `AgentTools`, `AgentLoop`, `Evidence` |
| recurring tickets: calendar arithmetic, the fast cursor, overlapping sweeps | `Calendar`, `Scheduling`, `RecurrenceSweeps` |
| availability figures | `Availability` |
| follow-ups on pending tickets | `PendingFollowups` |
| the queue in front of a stream's handler | `InboundQueue` |
| inventory reports | `Inventory` |

`Sequences` holds the array operations they share. `dafny verify dfyconfig.toml` verifies all of it.

Each protocol is a transition system: a state, the steps that may be taken in any order, an
invariant every step keeps, and theorems about every legal run from the initial state. What the
original changes in place is a class or a loop here, proved against functions that state the
result; the theorems are about those functions. Database statements and transactions are single
steps that may fail, be lost, or succeed unseen; clocks, randomness and the answers of models,
tools and disks are parameters.

## What the proofs found

The code is modelled as it is. These expectations do not hold of it. Each has its exact condition,
and a concrete run or input where one says more:

- A queued command is not always replayed. The daemon persists the queue's head before it waits,
  also while the executor is busy with the command before it (daemon.go:445-459), so a stream
  that drops strands the head: not run, not replayed, answered as indeterminate if sent again.
  The comment at that place says otherwise. (`ReplayCoversQueue`, `StrandedHead`)
- A gateway process that starts times out open commands of a process that is still serving, which
  goes on awaiting and replaying them. (`ReplayedIsOpenUnlessExpired`, `ExpiredIsReplayed`)
- A failed dispatch overwrites any row, a succeeded one included (grpc.ts:517-524).
  (`StatusIsFinalUnless`, `SuccessOverwritten`)
- A gateway restart loses results on the way: the new process has no assignment, refuses the
  terminal message while the lease is live, and fails the run when it expires. A run ended by
  another process while still assigned stays refused. (`ReplayVerdict`, `RestartLosesResult`,
  `StaysRefused`)
- A terminal update whose own status is running is acknowledged for a run that is still running.
  The worker sends none. (`RunningIsAckedIff`)
- A duplicate tool request that fails before its claim settles the row of the request that is
  still executing, so the answer and the ledger can disagree. (`AnswerMatchesRow`,
  `AnswersDisagree`)
- The auto-resolution of a pending ticket guards only the status: a sweep that read the ticket
  before it was made pending again resolves it without a follow-up. (`ResolvesIff`,
  `ResolvedUnasked`)
- The follow-up guards only status and count, which starts at 0 again: a sweep that read an
  earlier wait can send one follow-up too many, or one off the cadence. (`FollowUpKeepsIff`,
  `OneTooMany`, `OffCadence`)
- An Invalid Date compares false, so the due loop does not stop at one. (`DueRecurrenceOccurrences`,
  `InvalidSlotReturned`)
- `Date.UTC` takes years 0 to 99 for 1900 to 1999: it changes one month-end clamp and the last day
  of a daily report. (`MonthlyFields`, `FinalDayIsMidnight`)
- Downtime before the epoch is not counted. (`ExactFromTheEpoch`)
- The failure ceiling is not consulted on a rejected resolution, so a run may have one more
  consecutive turn without a successful call than the configured maximum. (`CeilingPassedIff`,
  `OneTurnTooMany`)
- An inbound queue without a positive limit never resumes its stream. (`PausedExactly`,
  `NeverResumed`)

## Model

| member | source | states |
|---|---|---|
| `DeviceProtocol.AtMostOnce` | axioma/cli/internal/device/daemon.go:434-459 | Over every run of gateway, network, daemon, disk, crashes and record writers: commands start in strictly increasing sequence, never ahead of the sequence on disk, and no command starts twice |
| `DeviceProtocol.DiskNeverRegresses` | axioma/cli/internal/device/identity.go:131-172 | No step of either writer of the device record, with however stale a snapshot, moves the sequence on disk back |
| `DeviceProtocol.DiskHoldsLatest` | axioma/cli/internal/device/identity.go:131-172 | In every reachable state, whatever stale snapshot a writer uses: credentials on disk are those of the last enrolment, the sequence moves only when the daemon persists the head of its queue |
| `DeviceProtocol.NoPhantomSuccess` | axioma/api/src/server/grpc.ts:1121-1174 | In every reachable state a row marked succeeded has exactly one finished execution on the device, and that one was ok |
| `DeviceProtocol.SettledOnce` | axioma/api/src/server/grpc.ts:475-497 | Over every run the result and timeout paths settle a promise at most once and take a row out of pending and dispatched at most once; what has left is closed and no longer awaited |
| `DeviceProtocol.NumbersAreDense` | axioma/api/src/server/grpc.ts:438-473 | Over every run, failed and half-failed inserts included, persisted numbers are exactly 1 to n; the outbox stays strictly ascending, within its limit, and backed by rows |
| `DeviceProtocol.ReplayedIsOpenUnlessExpired` | axioma/api/src/server/grpc.ts:1464-1489 | Over every run a replayed command, and a promise still awaited, belongs to a closed row if and only if the sweep of another gateway process, starting, expired that row |
| `DeviceProtocol.ExpiredIsReplayed` | axioma/api/src/server/grpc.ts:1473-1489 | A legal run in which another process's sweep times out a command this one still awaits and would replay |
| `DeviceProtocol.StatusIsFinalUnless` | axioma/api/src/server/grpc.ts:499-527 | A closed row keeps its status under every step, except exactly when the unguarded update of a failed dispatch hits a row that is not failed already |
| `DeviceProtocol.SuccessOverwritten` | axioma/api/src/server/grpc.ts:510-524 | A legal run in which a command ran, its success was recorded and its promise settled, and the row still ends up failed |
| `DeviceProtocol.ResultIsWhatHappened` | axioma/api/src/server/grpc.ts:1121-1174 | Over every run: a row closed by a result, and not overwritten by a failed dispatch since, is indeterminate iff the device answered the command as a duplicate, failed iff it finished it without success or refused it for a full queue, and succeeded iff it finished it with success; no other row is indeterminate or succeeded |
| `DeviceProtocol.ResultCloses` | axioma/api/src/server/grpc.ts:1144-1174 | A result of an open row closes it, settles its promise if one waits, and empties the command's place in the outbox; a result of a closed row changes nothing |
| `DeviceProtocol.TimerSettles` | axioma/api/src/server/grpc.ts:475-479 | A fired timer settles the awaited promise at once, leaves the row for later, and the command is never replayed again |
| `DeviceProtocol.TimeoutCloses` | axioma/api/src/server/grpc.ts:480-495 | When the timeout's update arrives the row is timed out, unless it was closed before |
| `DeviceProtocol.IssuedWaits` | axioma/api/src/server/grpc.ts:454-472 | A stored command is pending and awaited, and stands last in an outbox of at most a hundred |
| `DeviceProtocol.FailedDispatchIs` | axioma/api/src/server/grpc.ts:510-525 | A failed dispatch leaves no promise, no outbox entry, and a failed row whatever it was before |
| `DeviceProtocol.SweepCloses` | axioma/api/src/server/grpc.ts:1473-1489 | A starting process times out exactly the stale open rows; its memory is empty, another process's is untouched |
| `DeviceProtocol.MemoryIs` | axioma/api/src/server/grpc.ts:1086-1097 | Revocation forgets number and outbox, a hello loads a number only when none is known and sends exactly what lies past the reported sequence, closing settles whatever is awaited |
| `DeviceProtocol.ReplayCoversQueue` | axioma/cli/internal/device/daemon.go:444-475 | A command queued when the stream drops and still in the outbox is replayed past the reported sequence and accepted again, if and only if it is not the head of the queue; the head, persisted before every wait, would be acknowledged as indeterminate |
| `DeviceProtocol.StrandedHead` | axioma/cli/internal/device/daemon.go:450-459 | A legal run in which the persisted head waits behind a running command and is not replayed although it never ran (the comment at 445-449 says it would be) |
| `DeviceProtocol.ReplayIsAccepted` | axioma/api/src/server/grpc.ts:1033-1048 | A whole replay delivered in order to a fresh connection is accepted command by command: none refused for a full queue, none taken for a duplicate |
| `DeviceProtocol.RunKeepsInv` | axioma/api/src/server/grpc.ts:438-530 | The joint invariant of gateway lane, links and device survives every run |
| `DeviceProtocol.ReceiveStep` | axioma/cli/internal/device/daemon.go:548-562 | Accepting, refusing or acknowledging an incoming command keeps the device invariant |
| `DeviceProtocol.DequeueStep` | axioma/cli/internal/device/daemon.go:494-496 | Handing the head to the executor keeps the device invariant: what starts is on disk and above all that started |
| `DeviceProtocol.ArrivalIs` | axioma/cli/internal/device/daemon.go:548-562 | A known sequence is answered as a duplicate, a new one is refused when a hundred wait, and otherwise queued last |
| `DeviceProtocol.FinishIs` | axioma/cli/internal/device/daemon.go:497-498 | The running command is answered with its own result, and the executor is free |
| `DeviceProtocol.LinkReplyStep` | axioma/api/src/server/grpc.ts:1121-1174 | A result makes a row succeeded only if the device finished that very command with success |
| `DeviceGateway.ReserveKeeps` | axioma/api/src/server/grpc.ts:438-443 | Taking the next number, from memory or from the highest row, keeps the lane invariant |
| `DeviceGateway.CommitKeeps` | axioma/api/src/server/grpc.ts:454-472 | Inserting the reserved command, seen or unseen, keeps numbering gap-free and the outbox ordered and bounded |
| `DeviceGateway.ClosingKeepsOpen` | axioma/api/src/server/grpc.ts:475-524 | Results, timeouts and failed dispatches leave no command awaited or in the outbox that they closed or are timing out |
| `DeviceGateway.PushKeepsOutbox` | axioma/api/src/server/grpc.ts:469-471 | A newer command joins the end of the outbox, the oldest leaves when it is full; order and limit stay |
| `DeviceGateway.FailKeeps` | axioma/api/src/server/grpc.ts:465-468 | A failed insert forgets the cached number and leaves the lane sound |
| `DeviceGateway.CompleteKeeps` | axioma/api/src/server/grpc.ts:1144-1163 | A result's guarded update keeps the lane invariant |
| `DeviceGateway.TimerKeeps` | axioma/api/src/server/grpc.ts:475-479 | A fired timer keeps the lane invariant |
| `DeviceGateway.DispatchKeeps` | axioma/api/src/server/grpc.ts:500-524 | Marking dispatched and failing a dispatch keep the lane invariant |
| `DeviceGateway.SweepKeeps` | axioma/api/src/server/grpc.ts:1473-1489 | The sweep of stale commands keeps the numbering, whether this process or another one starts |
| `DeviceGateway.RegisterKeeps` | axioma/api/src/server/grpc.ts:968-969 | Loading the sequence on registration keeps the lane invariant |
| `DeviceGateway.ReplayIsExact` | axioma/api/src/server/grpc.ts:1033-1036 | The replay is exactly the outbox past the reported sequence, in ascending order |
| `DeviceGateway.ReplayedAreDispatched` | axioma/api/src/server/grpc.ts:1037-1048 | Of the replayed commands exactly the pending ones become dispatched |
| `DeviceGateway.Gateway.NumberCommand` | axioma/api/src/server/grpc.ts:438-473 | The class's maps after numbering a command are the lane's reserve and insert steps; every other device's share is untouched |
| `DeviceGateway.Gateway.CompleteCommand` | axioma/api/src/server/grpc.ts:1121-1174 | The class's maps after a result are the lane's completion with its settlements; a result for another device's command changes nothing |
| `DeviceGateway.Gateway.FireTimer` | axioma/api/src/server/grpc.ts:475-495 | A timer rejects the promise once and empties the command's place in the outbox of its own device only |
| `DeviceGateway.Gateway.FailDispatch` | axioma/api/src/server/grpc.ts:510-525 | A failed dispatch removes promise and outbox entry and overwrites the row, whatever its status |
| `DeviceGateway.Gateway.RemoveFromOutbox` | axioma/api/src/server/grpc.ts:1452-1460 | Removes one command from one device's outbox and nothing else |
| `DeviceGateway.Gateway.RegisterDevice` | axioma/api/src/server/grpc.ts:968-1047 | A hello loads the sequence if unknown, is answered with the outbox past the device's own, and the replayed commands that were pending become dispatched |
| `DeviceGateway.Gateway.RevokeDevice` | axioma/api/src/server/grpc.ts:1086-1097 | Revocation discards one device's outbox and sequence |
| `DeviceDaemon.Daemon.ServeConnection` | axioma/cli/internal/device/daemon.go:434-566 | Over any events, failing sequence writes and failing credential writes: the session is the fold of the handled events, nothing starts before its sequence is on disk, credentials are the latest received; the loop ends early only on a failed write, and otherwise with the queue's head on disk and the rest above it |
| `DeviceDaemon.ReceiveKeepsQueue` | axioma/cli/internal/device/daemon.go:552-562 | Accept, refuse and duplicate acknowledgement keep the queue ascending, bounded and ahead of everything started |
| `DeviceDaemon.SelectKeepsSession` | axioma/cli/internal/device/daemon.go:465-563 | Each case of the select statement keeps the session invariant once the head is persisted |
| `DeviceDaemon.EveryCommandIsAnswered` | axioma/cli/internal/device/daemon.go:494-563 | Conservation, as multisets of commands: those answered, running and queued are together exactly those that came in |
| `DeviceDaemon.LastEnrolmentCounts` | axioma/cli/internal/device/daemon.go:502-511 | The last credential received counts, whatever came before, and uses up the token |
| `DeviceIdentity.SequenceNeverRegresses` | axioma/cli/internal/device/identity.go:131-172 | Neither writer moves the sequence back, the sequence writer keeps the stored credentials, and is refused exactly below the known sequence |
| `DeviceIdentity.WritersCommute` | axioma/cli/internal/device/identity.go:131-172 | Sequence and credential writers commute: either order leaves the new credentials and the larger sequence |
| `DeviceIdentity.OtherRecordIsReplaced` | axioma/cli/internal/device/identity.go:131-172 | A missing, broken or foreign record is replaced outright; the sequence writer still refuses to go behind its own snapshot |
| `DeviceIdentity.IdentityStore.SaveSequence` | axioma/cli/internal/device/identity.go:132-153 | The record after saving a sequence, or the refusal |
| `DeviceIdentity.IdentityStore.SaveCredentials` | axioma/cli/internal/device/identity.go:157-172 | The record after saving credentials, with the larger of the two sequences |
| `RunLifecycle.LeavesRunningOnce` | axioma/api/src/server/grpc.ts:270-279 | Over every run of all writers (worker, cancellation, lease expiry, orphan sweep, dispatch failure, other processes) a run leaves running at most once, and has left it exactly when it is not running |
| `RunLifecycle.StatusIsFinal` | axioma/api/src/server/grpc.ts:1277-1290 | No step changes the status of a run that is over, and no row disappears |
| `RunLifecycle.AckedMeansOver` | axioma/api/src/server/grpc.ts:1202-1207 | In every reachable state a terminal acknowledgement names a run that is no longer running |
| `RunLifecycle.TerminalIsDelivered` | axioma/agent/axel/server.py:190-213 | End to end over every run: a terminal message ever produced is still retained, or was itself taken by the size or age limit or a worker crash, or its run is over |
| `RunLifecycle.NothingIsLost` | axioma/agent/axel/server.py:534-550 | Over every run: a worker that does not crash, with room for one message per run and none past the age, loses no terminal message while its run is running |
| `RunLifecycle.StoredStatusIsReported` | axioma/api/src/server/grpc.ts:1268-1290 | Over every run: a run ended by a terminal update holds that update's status, which its worker produced for that very run; any other run that is over failed |
| `RunLifecycle.CommittedUpdateEnds` | axioma/api/src/server/grpc.ts:1268-1365 | In every reachable state an update of a running run that commits ends it with exactly its own status, gives up the assignment and is acknowledged |
| `RunLifecycle.LeasesProtect` | axioma/api/src/server/grpc.ts:1395-1417 | Starting, renewing and taking in an update give 45 seconds; the expiry sweep ends a running run iff its lease has passed, a restart iff it has none or its lease has passed |
| `RunLifecycle.CancellationEnds` | axioma/api/src/server/grpc.ts:295-365 | A cancellation that commits ends a running run and gives up its assignment, one that does not changes nothing |
| `RunLifecycle.FailedDispatchEnds` | axioma/api/src/server/grpc.ts:266-281 | A dispatch that fails ends its run if it is running, and gives up its assignment in any case; no other run is touched |
| `RunLifecycle.DropNeedsReason` | axioma/agent/axel/server.py:177-181 | In one step a retained message goes, without a newer one for its run, only on an acknowledgement of its run with its ordinal or a later one, or because this step evicts its entry by a limit or a crash: never for a full queue or a closed stream |
| `RunLifecycle.ConnectResends` | axioma/agent/axel/server.py:113-115 | A new connection sends and keeps exactly the retained messages that are not too old |
| `RunLifecycle.ClosingKeeps` | axioma/agent/axel/server.py:401-409 | A closing connection keeps every terminal message it had queued, but for the limits |
| `RunLifecycle.ReplayVerdict` | axioma/api/src/server/grpc.ts:1193-1212 | What a replayed terminal meets, for the worker the row names: accepted iff assigned and running, acknowledged iff neither, refused iff exactly one of the two |
| `RunLifecycle.StrangerIsRefused` | axioma/api/src/server/grpc.ts:1193-1212 | A terminal update of a worker the row does not name is refused and changes nothing |
| `RunLifecycle.FinishedIsAcked` | axioma/api/src/server/grpc.ts:1193-1212 | In every reachable state the worker a row names gets its terminal message acknowledged once the run is over, unless another process ended it |
| `RunLifecycle.RunningIsAckedIff` | axioma/api/src/server/grpc.ts:1277-1290 | A committed terminal update leaves its run running, though acknowledged, exactly when its own status is running |
| `RunLifecycle.StaysRefused` | axioma/api/src/server/grpc.ts:1211-1212 | A run ended elsewhere while still assigned here stays refused under every step but a restart, a failed dispatch or a transaction already under way |
| `RunLifecycle.RestartLosesResult` | axioma/api/src/server/grpc.ts:1490-1504 | A legal run in which a gateway restart makes a resolved result be refused until the lease expires: the run ends failed and the result is acknowledged and forgotten |
| `RunLifecycle.RunKeepsInv` | axioma/api/src/server/grpc.ts:1186-1367 | The joint invariant of rows, arrivals, acknowledgements and worker survives every run |
| `RunLifecycle.RunGateway.Start` | axioma/api/src/server/grpc.ts:232-245 | Starting assigns and leases a run, and fails for a run that is not running |
| `RunLifecycle.RunGateway.CancelRun` | axioma/api/src/server/grpc.ts:295-365 | Cancellation, with or without a lease bound, ends exactly the one run it is entitled to, or changes nothing: for a run that is over, a live lease, or a transaction rolled back for want of a ticket |
| `RunLifecycle.RunGateway.ReceiveTerminal` | axioma/api/src/server/grpc.ts:1193-1212 | Acknowledge, refuse or take in a terminal update, renewing the lease in the last case |
| `RunLifecycle.RunGateway.PersistTerminal` | axioma/api/src/server/grpc.ts:1268-1365 | The transaction: rolled back unchanged, or guarded, unassigned and acknowledged |
| `RetainedTerminals.Retention.Prune` | axioma/agent/axel/server.py:545-550 | Stopping at the first fresh entry removes every expired one, because the map is ordered by time |
| `RetainedTerminals.PrefixIsExpired` | axioma/agent/axel/server.py:547-550 | In an ordered map the entries before the first fresh one are exactly the expired ones |
| `RetainedTerminals.Retention.Keep` | axioma/agent/axel/server.py:534-542 | Retaining: prune, keep an equal or newer entry, else replace at the end and evict the oldest beyond the limit; order, uniqueness and limit hold after it |
| `RetainedTerminals.Retention.Acknowledge` | axioma/agent/axel/server.py:178-181 | An acknowledgement drops the run's entry exactly when the ordinals agree |
| `RetainedTerminals.RetainKeepsOrder` | axioma/agent/axel/server.py:534-542 | Retaining keeps times non-decreasing, run ids unique and the size limit |
| `RetainedTerminals.RetainHolds` | axioma/agent/axel/server.py:534-542 | Retaining loses nothing, old or new, but what the two limits evict |
| `RetainedTerminals.EvictionNeedsReason` | axioma/agent/axel/server.py:534-550 | A limit takes an entry past the age, or, only when the map is full and nothing else makes room, the oldest one |
| `RetainedTerminals.RetainEvictsNothing` | axioma/agent/axel/server.py:534-550 | Without age, and with room for an entry per run, retaining evicts nothing |
| `RetainedTerminals.RetainedIsHeld` | axioma/agent/axel/server.py:534-542 | With a positive limit the message just retained is held |
| `RetainedTerminals.AcknowledgedHolds` | axioma/agent/axel/server.py:178-181 | An acknowledgement takes nothing but messages of its run up to its ordinal |
| `RetainedTerminals.DrainHolds` | axioma/agent/axel/server.py:204-211 | Draining a queue loses nothing that was retained or queued, but to the limits |
| `RetainedTerminals.SendHolds` | axioma/agent/axel/server.py:190-213 | Sent, refused by a closing stream or stuck behind a full queue: what was retained stays and a terminal message joins it |
| `RetainedTerminals.Connection.SendMessage` | axioma/agent/axel/server.py:190-213 | Retains first; the queue, the closing flag and the retained map after each of the three outcomes |
| `RetainedTerminals.Connection.Close` | axioma/agent/axel/server.py:401-409 | Closing retains every queued terminal message and leaves only the end mark |
| `ToolLedger.ExecutedOnce` | axioma/api/src/server/grpc.ts:663-694 | Over every run of duplicated and failing requests, a call's body starts at most once and its row leaves in_progress at most once |
| `ToolLedger.RowIsFinal` | axioma/api/src/server/grpc.ts:754-768 | No step changes a row that has left in_progress, and no row disappears |
| `ToolLedger.SuccessIsReal` | axioma/api/src/server/grpc-core.ts:44-62 | Success, in the row or in any answer fresh or replayed, carries the value of the call's one execution; two ok answers agree |
| `ToolLedger.DuplicateDoesNotRun` | axioma/api/src/server/grpc.ts:674-694 | A request for a call that has a row is answered from the row and executes nothing |
| `ToolLedger.RepeatIsAnswered` | axioma/api/src/server/grpc-core.ts:44-62 | Over every run a repeated request is told the value the one execution returned once the call has succeeded, and otherwise that it failed |
| `ToolLedger.OwnerIsAnswered` | axioma/api/src/server/grpc.ts:747-778 | Over every run the request that ran the tool is told the returned value or the failure, and its row takes the same unless it was settled before; no other row changes |
| `ToolLedger.FailureIsAnswered` | axioma/api/src/server/grpc.ts:779-791 | A request that fails is told so and settles its row if that is open; without run or call id it touches none |
| `ToolLedger.AnswerMatchesRow` | axioma/api/src/server/grpc.ts:754-778 | The owner's answer agrees with its row, except exactly when the row was settled before it and the answer is ok |
| `ToolLedger.SettledByDuplicate` | axioma/api/src/server/grpc.ts:779-791 | Under a running owner the row is settled by nobody but another, failing request for the same call |
| `ToolLedger.AnswersDisagree` | axioma/api/src/server/grpc.ts:779-791 | A legal run in which the caller is told ok while the row, and so every later replay, says failed |
| `ToolLedger.Table.Claim` | axioma/api/src/server/grpc.ts:663-674 | The insert wins exactly when the run and call id have no row |
| `ToolLedger.Table.Finish` | axioma/api/src/server/grpc.ts:780-791 | The guarded update changes exactly an in_progress row |
| `AgentLoop.Run` | axioma/agent/axel/loop.py:159-457 | For every script of answers: how the run ends, with its turns, calls, history and what the model was shown; within the turn, call and failure budgets, with transcripts of call and reply pairs |
| `AgentLoop.RunIsDetermined` | axioma/agent/axel/loop.py:216-457 | The script and the limits decide status, turns, successful calls, number of calls and every transcript shown: any two outcomes allowed by the contract agree |
| `AgentLoop.WhyEnded` | axioma/agent/axel/loop.py:216-361 | Each status exactly: exhausted iff the turns were used up, the deadline passed or the model timed out before an answer, or the last answer met the call ceiling, a deadline at its call, or made the failures reach their ceiling; resolved and escalated iff the last answer was entitled to it |
| `AgentLoop.ResolvedIsVerified` | axioma/agent/axel/loop.py:268-309 | In a resolved run every image patch, device action and desktop session was confirmed by a later deployment or state read of the same resource, and an observation was recorded |
| `AgentLoop.HistoryIsClean` | axioma/agent/axel/loop.py:363-455 | Every call of a run's history came, in order, from a turn of its own with a known tool and a valid input, answered in time by an output without truthy error, ok false or unknown_property code |
| `AgentLoop.CleanCallsEnterHistory` | axioma/agent/axel/loop.py:511-527 | Every such turn within the call budget enters the history, with the environment defaulted |
| `AgentLoop.CeilingPassedIff` | axioma/agent/axel/loop.py:283-294 | When a turn brings the failures in a row to the configured maximum, another turn follows if and only if it was a first resolution since the last success, rejected, and neither turn budget nor deadline ends the run |
| `AgentLoop.StreaksAreShort` | axioma/agent/axel/loop.py:241-294 | However a run ends, it never has more turns in a row without a successful call than the configured maximum plus one |
| `AgentLoop.OneTurnTooMany` | axioma/agent/axel/loop.py:283-294 | For every maximum a script whose run fails once more often in a row than the maximum |
| `AgentLoop.PendingIsExact` | axioma/agent/axel/loop.py:446-455 | The update of the pending list yields exactly the undischarged writes of the longer history |
| `AgentLoop.EmptyPendingIsVerified` | axioma/agent/axel/loop.py:268-275 | Nothing is pending if and only if every write was followed by a verifying call |
| `AgentLoop.TakeTurn` | axioma/agent/axel/loop.py:221-361 | One answer either lets the loop go round, or ends the run as the script says |
| `AgentLoop.AnswerResolve` | axioma/agent/axel/loop.py:268-309 | The resolution gate: resolved, rejected, or escalated on the second rejection |
| `AgentLoop.CallTool` | axioma/agent/axel/loop.py:363-455 | One tool call succeeds exactly when the tool is known, the input valid, the deadline ahead and the output no failure; otherwise history stays |
| `AgentLoop.AppendTurn` | axioma/agent/axel/loop.py:241-246 | One more turn keeps the bound on consecutive turns without a success |
| `AgentLoop.FailKeepsInv` | axioma/agent/axel/loop.py:241-294 | A failing turn stays within bounds, and keeps the invariant below the ceiling or on a first rejected resolution |
| `AgentLoop.SucceedKeepsInv` | axioma/agent/axel/loop.py:422-455 | A successful call keeps the invariant and resets both counters |
| `AgentLoop.ResolvedClusterWrite` | axioma/agent/axel/loop.py:370-375 | In a resolved run with an environment, every cluster write and its verifying read named that environment |
| `AgentLoop.ResolvedDeviceAction` | axioma/agent/axel/loop.py:530-581 | In a resolved run every device action was followed by a state read of the same device through a facet that observes it (both schemas require the device) |
| `AgentTools.ClearingReadSeesAction` | axioma/agent/axel/loop.py:565-581 | A read clears a device action only if it asked for a facet observing that action |
| `AgentTools.ClearingReadStaysInEnvironment` | axioma/agent/axel/loop.py:546-563 | A read clears a cluster write of a targeted run only inside the run's environment |
| `AgentTools.ObservingReadClears` | axioma/agent/axel/loop.py:530-581 | A state read of the same device clears an action as soon as one of its facets observes it and nothing else they share differs |
| `AgentTools.DeploymentReadClears` | axioma/agent/axel/loop.py:530-563 | A deployment read that agrees with a patch in every shared key, environment included, clears it |
| `AgentTools.OtherResource` | axioma/agent/axel/loop.py:530-545 | Calls that share no resource key, or differ in one, never clear each other |
| `AgentTools.EnvironmentIsDefaulted` | axioma/agent/axel/loop.py:370-375 | Exactly the cluster calls of a targeted run get its environment, and only when they name none |
| `AgentTools.VerifiersRead` | axioma/agent/axel/tools.py:278-390 | Writes are verified by a read of the same surface; which tools write, and which writes are verified |
| `Evidence.Scan` | axioma/agent/axel/loop.py:606-649 | The explicit stack visits a prefix of the recursive pre-order, all of its first maxItems nodes unless the character budget is spent, and collects exactly the lines the budgets allow |
| `Evidence.Walk` | axioma/agent/axel/loop.py:618-642 | The loop itself against any reading: visited is a prefix, collected is the allowed part |
| `Evidence.TruncationIsInvisible` | axioma/agent/axel/loop.py:622-632 | Pushing only as many children as items remain changes nothing that is visited |
| `Evidence.PopStep` | axioma/agent/axel/loop.py:618-632 | One pop yields the head of the pre-order and leaves its tail |
| `Evidence.CutIsPrefix` | axioma/agent/axel/loop.py:634-640 | Collected text is a prefix of all text, within the character budget |
| `Evidence.Evidence` | axioma/agent/axel/loop.py:606-649 | The line and the tone: the longest reported line with the needle, a warning if only other lines hold it, else the first line |
| `RecurrenceSweeps.SweepsAreSafe` | axioma/api/src/server/scheduling-runtime.ts:43-129 | For any interleaving of sweeps, crashes and rollbacks: each rule's claimed ordinals are 0 to k-1, a slot has a ticket iff it was at most seven days old on the clock of the very sweep that claimed it, no two tickets share a slot, and counters plus remaining budget equal the limit cut to 1 to 1000 |
| `RecurrenceSweeps.ClaimNextSplits` | axioma/api/src/server/scheduling-runtime.ts:76-121 | In every reachable state a newly claimed slot gets a ticket and counts as created iff it is at most seven days old on its sweep's clock, and otherwise counts as stale without one |
| `RecurrenceSweeps.ListIsUnclaimed` | axioma/api/src/server/scheduling-runtime.ts:57-74 | A sweep lists within its budget, from the cursor on, no slot claimed in its window, and every unclaimed one when the budget suffices |
| `RecurrenceSweeps.ClaimKeepsInv` | axioma/api/src/server/scheduling-runtime.ts:76-111 | A claim on top of the claimed prefix keeps the table invariant, committed or not |
| `RecurrenceSweeps.ConflictIsClaimed` | axioma/api/src/server/scheduling-runtime.ts:77-82 | Either unique index refuses only a slot that is claimed already |
| `RecurrenceSweeps.CursorBelow` | axioma/api/src/server/scheduling-runtime.ts:50-56 | The cursor from the last claimed instant never passes an unclaimed slot |
| `RecurrenceSweeps.ClaimedIsPrefix` | axioma/api/src/server/scheduling-runtime.ts:50-66 | A rule's claimed ordinals are a finite prefix |
| `RecurrenceSweeps.GenerateDueRecurrences` | axioma/api/src/server/scheduling-runtime.ts:23-131 | One sweep amid interference: counters equal the outcomes of its own claims; the rows it added split at seven days before its own clock into those with a ticket, as many as created, and those without, as many as stale; failures are failed claims and refused rules; rules are left unswept only when the budget is spent; truncated only for a full page, a failure or a spent budget; otherwise nothing due is left unclaimed |
| `RecurrenceSweeps.SweepRule` | axioma/api/src/server/scheduling-runtime.ts:49-121 | One rule: counters true to its claims; it fails iff a claim failed or the rule was refused; the list is cut iff it exceeds the budget, and is claimed up to it; caught up when all went well and nothing was cut |
| `RecurrenceSweeps.ClaimBatch` | axioma/api/src/server/scheduling-runtime.ts:75-121 | Claims in order until one fails; counters are those of the outcomes |
| `RecurrenceSweeps.OccurrenceTable.LastOccurrence` | axioma/api/src/server/scheduling-runtime.ts:50-54 | The latest claimed instant of a rule |
| `RecurrenceSweeps.CursorOf` | axioma/api/src/server/scheduling-runtime.ts:55-56 | The start ordinal, with everything below it claimed |
| `RecurrenceSweeps.ShortListIsComplete` | axioma/api/src/server/scheduling-runtime.ts:67-74 | A list shorter than its limit names every due slot that is not claimed |
| `Scheduling.OccurrencesIncrease` | axioma/api/src/server/scheduling.ts:98-115 | Occurrences increase strictly in the ordinal for all three frequencies |
| `Scheduling.Spacing` | axioma/api/src/server/scheduling.ts:98-115 | Consecutive occurrences lie the interval in days, weeks or months apart, the first at the start |
| `Scheduling.RefusedIff` | axioma/api/src/server/scheduling.ts:117-132 | A rule is refused for want of an id, for a start or an end that is no Date, an end before the start or an interval below one, and for nothing else |
| `Scheduling.MonthlyFields` | axioma/api/src/server/scheduling.ts:105-113 | A monthly occurrence keeps time of day and its day cut to the month's length, exactly unless it falls in February of year 0 with a start day past the 28th |
| `Scheduling.FebruaryOfYearZero` | axioma/api/src/server/scheduling.ts:109-112 | The exception, concretely: Date.UTC takes year 0 for 1900 |
| `Scheduling.OccurrenceAt` | axioma/api/src/server/scheduling.ts:98-115 | The in-place date edits compute the closed form, including every way of becoming an Invalid Date |
| `Scheduling.UnrepresentableStays` | axioma/api/src/server/scheduling.ts:98-115 | Past the first occurrence that is no Date no occurrence is one |
| `Scheduling.OccurrenceOrdinalAfter` | axioma/api/src/server/scheduling.ts:75-96 | The fast cursor is the guess plus at most one correction, and equals the linear search if and only if the guessed occurrence is a Date or lies after the instant; both hold at every regular instant |
| `Scheduling.GuessIsClose` | axioma/api/src/server/scheduling.ts:80-93 | The computed ordinal is the sought one or one below it |
| `Scheduling.FirstAfterSplits` | axioma/api/src/server/scheduling.ts:94-95 | The least ordinal after an instant separates the ordinals at or before it from those after it |
| `Scheduling.DueRecurrenceOccurrences` | axioma/api/src/server/scheduling.ts:39-73 | Terminates on every input; slots in increasing order without duplicates, every one that is a Date at or before now, the horizon and the rule's end; with room under the limit every unclaimed ordinal from the start at or before all three is there; exactly the first limit unclaimed due ones iff the first occurrence past the end is still a Date or the limit is reached before |
| `Scheduling.LastDueIsEarliest` | axioma/api/src/server/scheduling.ts:54-58 | The walk ends at the earliest of now, the horizon and the rule's end |
| `Scheduling.ShortListHolds` | axioma/api/src/server/scheduling.ts:60-71 | A list short of its limit holds every unclaimed ordinal due by now, horizon and end |
| `Scheduling.InvalidSlotReturned` | axioma/api/src/server/scheduling.ts:60-71 | The exception, concretely: a rule whose next occurrence is an Invalid Date |
| `Scheduling.UnclaimedExact` | axioma/api/src/server/scheduling.ts:60-71 | The walk from the start ordinal finds exactly the unclaimed ordinals, ascending |
| `Calendar.JanuaryIsDayFromYear` | axioma/api/src/server/scheduling.ts:98-115 | Summed month lengths agree in every year with the closed formula of ECMA-262, section 21.4.1.3 |
| `Calendar.MonthsAreTabulated` | axioma/api/src/server/scheduling.ts:105-113 | Every month of every year starts where the table of ECMA-262, section 21.4.1, puts it |
| `Calendar.MonthOfDayUnique` | axioma/api/src/server/scheduling.ts:109-112 | The month of a day is the one whose span holds it |
| `Calendar.MakeTimeFields` | axioma/api/src/server/scheduling.ts:106-112 | Month, day and time read back from a made time are the ones put in |
| `Calendar.FieldsMakeTime` | axioma/api/src/server/scheduling.ts:106-112 | Making a time from its own fields gives it back |
| `Availability.ClippedDowntime` | axioma/api/src/server/status.ts:14-55 | For any overlapping, empty, open or inverted incidents in any order: the merged total is the number of milliseconds from max(start, 0) to end with a counted incident open and no planned window |
| `Availability.PiecesHold` | axioma/api/src/server/status.ts:22-41 | An instant lies in some piece iff it lies in the window, in a counted incident and outside the planned windows |
| `Availability.SubtractWindowsHolds` | axioma/api/src/server/status.ts:57-73 | Subtracting windows from parts removes exactly the instants the windows hold |
| `Availability.CursorStep` | axioma/api/src/server/status.ts:46-53 | One merge step adds exactly the instants the next span covers anew |
| `Availability.SortByStart` | axioma/api/src/server/status.ts:41 | Sorted by start, the same spans |
| `Availability.AvailabilityBetween` | axioma/api/src/server/status.ts:75-99 | The figure, or the error exactly for an empty window |
| `Availability.AvailabilityIsFraction` | axioma/api/src/server/status.ts:87-98 | It lies in [0,1]; it is 1 iff nothing counted is down, and 0 iff all of the window is and it starts at or after the epoch |
| `Availability.ExactFromTheEpoch` | axioma/api/src/server/status.ts:43-54 | The figure is the downtime of the window for every log iff the window does not start before the epoch (the merge cursor starts at 0) |
| `Availability.DowntimeAdditive` | axioma/api/src/server/status.ts:57-130 | Downtime over adjoining windows adds up |
| `Availability.IncidentAdds` | axioma/api/src/server/status.ts:22-27 | One more incident adds to the downtime exactly the instants at which it is open, if its level counts and it is not excluded as planned, outside the planned windows |
| `Availability.PlannedChangeRemoves` | axioma/api/src/server/status.ts:35-39 | One more planned window removes exactly its instants, when planned maintenance is excluded; without incidents nothing is down |
| `Availability.IncidentNeverRaises` | axioma/api/src/server/status.ts:22-27 | One more incident never raises availability |
| `Availability.PlannedChangeNeverLowers` | axioma/api/src/server/status.ts:35-39 | One more planned window never lowers availability |
| `Availability.DowntimeIgnoresOrder` | axioma/api/src/server/status.ts:41 | Reordering incidents and windows changes nothing |
| `Availability.FinalDayIsMidnight` | axioma/api/src/server/status.ts:111-115 | The last day starts at midnight before end in every year but 0 to 99, which Date.UTC moves |
| `Availability.DailyAvailability` | axioma/api/src/server/status.ts:101-130 | One figure per day, in order, each of its own day; errors for a bad count and for days before the first Date |
| `Availability.DailyFiguresSum` | axioma/api/src/server/status.ts:116-129 | The daily figures add up to the downtime of the whole span |
| `PendingFollowups.RescheduledIsLeast` | axioma/api/src/server/pending.ts:80-90 | The next time is the least slot of the cadence strictly after now |
| `PendingFollowups.OrdinalsAreConsecutive` | axioma/api/src/server/pending.ts:91-112 | Over every run of late and overlapping sweeps the follow-ups since the last pend are numbered 1 to n and none precedes the slot its sweep had read |
| `PendingFollowups.CadenceIsKeptIff` | axioma/api/src/server/pending.ts:77-111 | Over every run: never more than the configured count, at most one per slot, all on the cadence of the wait, the next one after every sweep that sent one, in every state of the run, if and only if every follow-up was sent on a reading that fits the wait |
| `PendingFollowups.FollowUpKeepsIff` | axioma/api/src/server/pending.ts:91-106 | One follow-up keeps count and cadence exactly when one is owed, the slot read is one of this wait after its last follow-up, and the next time is whole periods of this wait later |
| `PendingFollowups.CurrentFits` | axioma/api/src/server/pending.ts:99-105 | Readings from since the last pend fit, and so do older ones that agree in reason and slot |
| `PendingFollowups.OneTooMany` | axioma/api/src/server/pending.ts:99-105 | A legal run in which a sweep of an earlier wait sends a second follow-up in a wait for one |
| `PendingFollowups.OffCadence` | axioma/api/src/server/pending.ts:91-106 | A legal run in which a sweep of an earlier wait sends a follow-up before the new wait's first slot and puts its next time off the cadence |
| `PendingFollowups.EarlyResolutionIsStale` | axioma/api/src/server/pending.ts:40-60 | Over every run a ticket is resolved with follow-ups still owed only on a reading from before it was last made pending |
| `PendingFollowups.ResolvesIff` | axioma/api/src/server/pending.ts:40-60 | A sweep resolves exactly a pending ticket of whose reading the follow-ups were used up: the guard does not compare the count |
| `PendingFollowups.ResolvedUnasked` | axioma/api/src/server/pending.ts:57-59 | A legal run in which a stale sweep resolves a ticket before the first follow-up of its new wait |
| `PendingFollowups.Tickets.SweepPending` | axioma/api/src/server/pending.ts:37-126 | An undisturbed sweep moves every due ticket on exactly once, by follow-up or resolution, and no other ticket |
| `InboundQueue.HandledIsPrefix` | axioma/api/src/server/grpc-core.ts:16-35 | Over every interleaving handled messages are a prefix of the arrivals in order, depth is arrivals minus settled turns, at most one turn is open |
| `InboundQueue.NothingAfterFailure` | axioma/api/src/server/grpc-core.ts:22-28 | Over every interleaving nothing is handled after the first failure of a handler |
| `InboundQueue.AllHandledUntilFailure` | axioma/api/src/server/grpc-core.ts:22-28 | While no handler has failed every message is handled at its turn and the stream stands; the first failure destroys it, once |
| `InboundQueue.PausedExactly` | axioma/api/src/server/grpc-core.ts:17-34 | Paused iff depth has reached the limit, in every reachable state, if and only if the limit is at least one |
| `InboundQueue.NeverResumed` | axioma/api/src/server/grpc-core.ts:30-33 | With a limit of zero or less a paused stream is never resumed |
| `InboundQueue.DrainedFlows` | axioma/api/src/server/grpc-core.ts:29-34 | Once all messages have settled, depth is zero and the stream flows |
| `InboundQueue.StepKeepsInv` | axioma/api/src/server/grpc-core.ts:16-35 | Arrival, turn, end and settlement keep the queue invariant, pause and resume calls alternating |
| `InboundQueue.Inbound.Receive` | axioma/api/src/server/grpc-core.ts:16-20 | An arrival's new state, pausing at the limit |
| `InboundQueue.Inbound.Finally` | axioma/api/src/server/grpc-core.ts:29-34 | A settlement's new state, resuming below the limit |
| `Inventory.NewestWins` | axioma/api/src/server/inventory.ts:113-127 | Convergence: wherever a device's newest report arrives among its older ones and duplicates, the register ends up showing it, section by section |
| `Inventory.NewIsShown` | axioma/api/src/server/inventory.ts:113-248 | A new report that is not older than the last (equal counts as new) is shown: one row for each disk id and each application it names, from the last entry that names it, entries without id or name left out; sections it does not carry keep their rows |
| `Inventory.TakenOrRefused` | axioma/api/src/server/inventory.ts:18-85 | A report is refused exactly for broken metadata, a payload that is no object, an unknown or an unclaimed device, in this order, and then nothing changes; one that is taken and new is shown |
| `Inventory.OldIsIgnored` | axioma/api/src/server/inventory.ts:123 | A duplicate or older report changes no row and no known time |
| `Inventory.TimeNeverDecreases` | axioma/api/src/server/inventory.ts:123-127 | Over any arrivals the time of the last report never goes back |
| `Inventory.OthersUntouched` | axioma/api/src/server/inventory.ts:129-248 | No report touches another device's rows or time |
| `Inventory.LatestIsLast` | axioma/api/src/server/inventory.ts:133-155 | Of several items with one key the last one's values stay |
| `Inventory.LatestKeys` | axioma/api/src/server/inventory.ts:156-166 | The surviving keys are exactly those the report names |
| `Inventory.Upsert` | axioma/api/src/server/inventory.ts:133-155 | The upsert loop leaves the report's latest values and otherwise the old rows |
| `Inventory.Reconcile` | axioma/api/src/server/inventory.ts:133-166 | The upserts and the delete leave exactly the report's rows for the device |
| `Inventory.Ingestion.IngestInventoryReport` | axioma/api/src/server/inventory.ts:71-250 | The register after one report, or the error with nothing changed |
| `Inventory.KeysSeparate` | axioma/api/src/server/inventory.ts:59-66 | Two applications share a key iff name and publisher fold alike, while no folded name holds the separator |

## Left out

- Floating-point rounding: quotients in the cursor, the cadence and availability are exact here; the original divides numbers that are exact integers below 2^53 and floors or ceils the quotient.
- Safe-integer limits: ordinals, intervals and sequences are unbounded; `Number.isSafeInteger` on the interval is kept as positivity.
- Availability.DailyAvailability: not stated for an end at the very last Date, where the last day's end is no Date and its figure is not a number; date strings are left as instants.
- DeviceProtocol.NumbersAreDense: for one gateway process per device lane; of two processes numbering the same device at once, the unique index fails one insert and its caller gets the error.
- DeviceProtocol.ReplayedIsOpenUnlessExpired: the age of a command is not modelled; any open command may be stale to a starting process.
- DeviceProtocol.SettledOnce: a dispatch that throws rejects its caller directly, which is not counted as a settlement; the row's unguarded change to failed is not counted as an exit.
- DeviceProtocol.AtMostOnce: deletion of the state directory, and a state file of another device, are not steps of the system; DeviceIdentity states what the writers do in those cases.
- RetainedTerminals.Connection.Close: the drain happens at one instant of the clock, and the cancelled runs' own messages are sent before it, as separate steps.
- RetainedTerminals.Connection.SendMessage: a put that waits and then succeeds is one step; the queue's capacity is the stuck outcome.
- RunLifecycle.RunGateway.PersistTerminal: the ticket's status change and the resolution code are only the transaction's failure or success.
- RunLifecycle.TerminalIsDelivered: progress (that a connection is made and a message arrives at last) is not stated.
- AgentLoop.Run: exceptions raised by the report callback end the original run with an error and are not among the outcomes; texts, tokens and resolution codes are left out.
- Evidence.Scan: splitting text into lines, the needle's regular expression and the keys that report an outcome are parameters.
- RecurrenceSweeps.SweepsAreSafe: rules are not edited while they are swept, and are deleted with their rows.
- RecurrenceSweeps.GenerateDueRecurrences: the page of rules is given; its query and order are not modelled, nor is what happens to a generated ticket afterwards.
- PendingFollowups.Tickets.SweepPending: the due tickets are given; the query's order and clamp are not modelled. One pending status stands for all of them.
- Inventory.Ingestion.IngestInventoryReport: one transaction is one step; two reports of one device ingested at once under read-committed isolation are not modelled.
- Inventory.KeysSeparate: trimming and lower-casing are a parameter; Unicode folding is not modelled.
- ToolLedger.ExecutedOnce: the stream a response is written to, and the ticket's first-tool transition, are left out; a crash leaves rows in progress for ever, as in the original.
- InboundQueue.HandledIsPrefix: what a stream already buffered when it is paused arrives as further arrivals.
- Transports, TLS, keepalive, heartbeats, liveness timers, inventory collection and enrolment refusals of the daemon: they end a connection or change nothing modelled.
- SQL itself, drivers and isolation levels: statements and transactions are atomic steps.
- Credentials, hashing, claim codes and enrolment tokens, beyond the two fields of the device record.
- Choosing a worker, backoff and reconnect delays, the guard against overlapping sweeps, uptime windows, ticket queues and durations: short members without interaction.
- Dashboards, portal, web and terminal interfaces, OIDC, Kubernetes clients, generated protocol code.
