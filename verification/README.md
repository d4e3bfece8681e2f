# Verified model of the Loom core

A Dafny model of the parts of Loom that keep state over long runs, and of the text,
merge and arithmetic algorithms around them. `dafny verify dfyconfig.toml` checks all of
it.

| files | component |
|---|---|
| `Conversation`, `AgentState`, `AgentMachine`, `AgentReplay`, `AgentBounds` | the agent state machine, `Agent::handle_event` |
| `PendingSync`, `ThreadSync`, `ThreadCalls`, `ThreadDebt`, `SyncPrivacy` | the thread sync protocol and its queue of failed operations |
| `AcpBridge`, `AcpSession`, `AcpAgent` | the ACP prompt loop and its two histories |
| `BatchQueue` | the bounded analytics queue |
| `Utf8`, `EditFile`, `BraceEscaper`, `DiffTruncation`, `RemoteUrl` | text algorithms |
| `ConfigLayers`, `ConfigRegistry` | layered configuration |
| `Backoff` | retry with exponential backoff |

Code that changes state in place is a class or a loop, proved equal to a function of the
old state (`Step`, `Saved`, `RetriedAll`, `Performed`, `Applied`, `Merged`, ...). The
results are lemmas about runs of those functions: every log of events, every list of
calls, every interleaving. What those functions compute is stated once more without them,
in terms of the inputs: the replay of a log, the entries of each key, the turns of a
script, the events passed in, the encoding of a text.

What comes from outside is a parameter: the server's answers, whether a file access
succeeds, the clock, random draws, new ids, the LLM stream and tool results. A server
call that reports failure may still have taken effect. JSON values are their text.

## Where the code does not do what one would expect

Each of these has a lemma with the exact condition, in terms of what is there before the
call, and where it fails a concrete run or a proof that the condition is needed.

- The thread model says of `is_private` that such a thread never syncs
  (crates/loom-common-thread/src/model.rs:347). `delete` reads the thread before it
  removes the file. If a private thread is first saved between the two, its id goes to
  the server or into the queue. `PrivateStaysLocalIff` shows that this is the only way;
  `RacingDeleteLeaks` is the run. Deletes that are not interleaved are safe
  (`AtomicDeletesStayLocal`).
- `retry_pending` can lose a thread that was saved again after a queued deletion, and
  leave no record of it. It keeps every debt recorded exactly if each queued deletion of
  a public local thread is followed by that thread's upload (`RetrySafeIff`).
  `SavingAgainLosesDebt` and `UploadThenDeleteLosesDebt` are two runs that violate this,
  one without an upload in the queue and one with the upload before the deletion.
- `save_and_sync` queues nothing when it fails (`BlockingSaveSafeIff`).
- An add to a pending file that cannot be read but can be written replaces the whole
  queue (`QueueingKeepsKeysIff`); `SaveSafeIff` and `DeleteSafeIff` say when that or a
  failed write loses a debt.
- Messages pushed with `append_message` while a request is held for the post-tools hook
  are missing from that request, however long before it is sent
  (`PushedMessagesReachRequest`).
- A cancelled session stays cancelled until it is loaded again: every prompt on it
  returns at once (`PromptIsCancelledIff`).
- `host:path` with any user, or none, is misread exactly if the path starts with two
  slashes or the whole starts like a local path (`ScpFormNormalizesIff`).
- A snapshot with an empty list of tool calls does not survive a round trip through a
  message (`MessageRoundTripIff`).
- `get_session` is documented as cloning the session out of the map; it removes it, so
  the model does too.

## Model

| member | source | states |
|---|---|---|
| AgentMachine.Agent.constructor | crates/loom-common-core/src/agent.rs:96-110 | a new agent waits for input with an empty conversation, and its state is the one that no calls lead to |
| AgentMachine.Agent.AppendMessage | crates/loom-common-core/src/agent.rs:144-147 | the message goes to the end of the conversation in whatever state, nothing else changes, and the state stays the one that all calls so far lead to |
| AgentMachine.Agent.HandleEvent | crates/loom-common-core/src/agent.rs:161-421 | new state and action are those of the step function, the counter cannot overflow, and the state stays the one that all calls so far lead to |
| AgentMachine.Agent.ProcessLlmResponse | crates/loom-common-core/src/agent.rs:426-466 | a response with tool calls starts one pending execution per call, any other ends the turn; outside `ProcessingLlmResponse` nothing happens |
| AgentMachine.Agent.RecordCompletion | crates/loom-common-core/src/agent.rs:295-306 | the loop overwrites exactly the executions of the call, finished ones included |
| AgentMachine.Agent.CloseBatch | crates/loom-common-core/src/agent.rs:308-373 | results are appended and the request built only when every execution is complete; a succeeded edit_file or bash holds the request back for the hook |
| AgentMachine.StepKeepsCounterSafe | crates/loom-common-core/src/agent.rs:221-230 | the retry counter stays 0 or below `max_retries`, so adding one never overflows 32 bits |
| AgentMachine.PushAddsMessage | crates/loom-common-core/src/agent.rs:144-147 | in every state but shutdown, a push adds exactly the message at the end of the conversation and changes nothing else |
| AgentMachine.HandlingIsRunning | crates/loom-common-core/src/agent.rs:161-421 | a run of events is the run of calls that only handles them, so results about runs of events are about the agent |
| AgentReplay.StatusesCompletedIffAnswered | crates/loom-common-core/src/agent.rs:308-309 | a batch is complete exactly if every call id has been heard of |
| AgentReplay.MutatingIffListed | crates/loom-common-core/src/agent.rs:50-63 | `has_mutating_tools` agrees with the list that `extract_completed_tools` hands to the hook |
| AgentReplay.StepMatchesAdvance | crates/loom-common-core/src/agent.rs:161-421 | one step of the machine is one step of the replay, which keeps only the messages and the completions heard |
| AgentReplay.RunIsReplay | crates/loom-common-core/src/agent.rs:161-421 | for every event log, the state is the one described by the pure replay of the log |
| AgentReplay.ActionsFollowReplay | crates/loom-common-core/src/agent.rs:165-418 | in every run each action is determined by the replay alone: a request is sent exactly when an LLM call begins and carries the replayed messages and the agent's own settings, and tools, hook and errors are announced exactly when their phase begins |
| AgentReplay.RunOnlyAppends | crates/loom-common-core/src/agent.rs:165-398 | before shutdown, every run keeps the conversation's id and only appends to its messages |
| AgentReplay.BatchStaysOpen | crates/loom-common-core/src/agent.rs:287-374 | until every call has a result a batch only records completions, whatever else arrives, and answers each event with waiting |
| AgentReplay.BatchCloses | crates/loom-common-core/src/agent.rs:308-370 | the completion that answers the last call appends all results at once and sends or holds the request |
| AgentReplay.CallResultPairing | crates/loom-common-core/src/agent.rs:287-333 | in every run, a response asking for tools is directly followed by exactly one Tool message per call, in call order, with the output of the last outcome heard for its id before the batch closed, or "Error: " and its error, whatever duplicate, unknown or reordered completions arrive |
| AgentReplay.OutcomesDecide | crates/loom-common-core/src/agent.rs:308-370 | two batches that heard the same outcome for each call end in the same state and action |
| AgentReplay.CompletionOrderIrrelevant | crates/loom-common-core/src/agent.rs:287-374 | with distinct call ids and one outcome each, every permutation of the completions ends in the same state and final action |
| AgentBounds.StepKeepsReachable | crates/loom-common-core/src/agent.rs:161-421 | each event keeps the invariant of reachable states |
| AgentBounds.EveryRunStaysReachable | crates/loom-common-core/src/agent.rs:161-421 | after every run: an open batch has an unfinished execution, an error comes from the LLM with 1 <= retries < max_retries, the hook lists a succeeded edit_file or bash and holds the current request, and no response is half processed |
| AgentBounds.ShutdownIsAbsorbing | crates/loom-common-core/src/agent.rs:400-409 | a run has shut down exactly if shutdown was requested at some point |
| AgentBounds.RequestsAreCurrent | crates/loom-common-core/src/agent.rs:150-158 | every request sent, retries and held ones included, is the one built from the state after the step |
| AgentBounds.HeldRequestIsEarlier | crates/loom-common-core/src/agent.rs:334-357 | over every run of events and pushed messages, the request that the hook holds is the one built from the conversation without the messages pushed since the hook began |
| AgentBounds.PushedMessagesReachRequest | crates/loom-common-core/src/agent.rs:376-398 | over every run of events and pushed messages, a request that is sent is built from the new state without the messages pushed while the hook held it, so it is current exactly if there are none |
| AgentBounds.PhaseIsBounded | crates/loom-common-core/src/agent.rs:214-285 | the retry counter counts the requests of the current LLM phase, which sends at most max(1, max_retries) |
| AgentBounds.RequestsAreBounded | crates/loom-common-core/src/agent.rs:214-285 | a run sends at most max(1, max_retries) requests per LLM phase |
| PendingSync.PendingSyncQueue.Add | crates/loom-common-thread/src/pending_sync.rs:39-57 | the first entry of the key gets the new time and error and one more retry in place, or a fresh entry goes to the end |
| PendingSync.PendingSyncQueue.Remove | crates/loom-common-thread/src/pending_sync.rs:59-63 | the entries of other keys remain, in order |
| PendingSync.PendingSyncStore.AddPending | crates/loom-common-thread/src/pending_sync.rs:146-167 | adds to the stored queue, or to an empty one if it cannot be loaded; a failed write is reported and changes nothing |
| PendingSync.PendingSyncStore.RemovePending | crates/loom-common-thread/src/pending_sync.rs:169-188 | removes the key; fails exactly if the file cannot be loaded, or has an entry to remove and cannot be written |
| PendingSync.RemovedCutsOne | crates/loom-common-thread/src/pending_sync.rs:59-63 | with distinct keys, removing cuts out exactly the one entry of the key |
| PendingSync.AddedSpec | crates/loom-common-thread/src/pending_sync.rs:39-57 | adding makes the key present, leaves every other key as it was and keeps keys distinct |
| PendingSync.QueueingKeepsKeysIff | crates/loom-common-thread/src/pending_sync.rs:146-167 | add_pending keeps every recorded key exactly unless the file cannot be read, can be written and records another key |
| PendingSync.UnqueuedKeys | crates/loom-common-thread/src/pending_sync.rs:169-188 | remove_pending keeps every other key, and the key itself exactly if the file cannot be read or written |
| PendingSync.QueuedEntry | crates/loom-common-thread/src/pending_sync.rs:146-167 | the entry of every key after an add: the key's own has the new time and error and one more retry or none, every other is as before or lost with an unreadable file |
| PendingSync.UnqueuedEntry | crates/loom-common-thread/src/pending_sync.rs:169-188 | the entry of every key after a removal |
| PendingSync.QueueRefinesMap | crates/loom-common-thread/src/pending_sync.rs:39-63 | after any history, the vector lists exactly the keys added since their last removal, once each, in order of their first such add, with the last error and time and the number of adds minus one as the retry count, modulo 2^32 |
| PendingSync.StoreRefinesMap | crates/loom-common-thread/src/pending_sync.rs:108-188 | over every sequence of accesses to the file, failing ones included, it is the map of the changes that count: failed ones do not, and an add to an unreadable file starts over |
| ThreadSync.SyncingThreadStore.UpsertThread | crates/loom-common-thread/src/sync.rs:66-109 | succeeds exactly on 200, 201 and 204, and the server takes the thread exactly if the request took effect |
| ThreadSync.SyncingThreadStore.DeleteThread | crates/loom-common-thread/src/sync.rs:181-211 | succeeds exactly on 200, 204 and 404, and the server drops the thread exactly if the request took effect |
| ThreadSync.SyncingThreadStore.Settle | crates/loom-common-thread/src/sync.rs:352-382 | the end of a background task: the entry is removed or added, as far as the pending file allows, and the outcome of that is ignored |
| ThreadSync.SyncingThreadStore.Save | crates/loom-common-thread/src/sync.rs:325-387 | whole new state of a save with its background task, for every response, file failure and combination of client and pending store |
| ThreadSync.SyncingThreadStore.SaveAndSync | crates/loom-common-thread/src/sync.rs:389-430 | whole new state of a blocking save; a failed sync is reported and not queued |
| ThreadSync.SyncingThreadStore.Remove | crates/loom-common-thread/src/sync.rs:436-498 | whole new state of a delete with its background task; a missing or unreadable thread changes nothing |
| ThreadSync.SyncingThreadStore.RetryPending | crates/loom-common-thread/src/sync.rs:242-307 | fails if the queue cannot be read; else goes through the entries queued at the start in order, stops at an unreadable thread, and returns the number of successes |
| ThreadSync.SyncingThreadStore.RetryOne | crates/loom-common-thread/src/sync.rs:258-303 | one entry: skipped if its thread is gone, sent otherwise, and removed on success as far as the pending file allows |
| ThreadCalls.SaveDoes | crates/loom-common-thread/src/sync.rs:325-387 | a save writes the thread locally; if public, the server has it exactly if the request took effect, and its own entry is gone after a success, renewed with time, error and count after a failure, as far as the file allows; all other entries are stated too |
| ThreadCalls.SaveQueues | crates/loom-common-thread/src/sync.rs:352-382 | exactly which keys are queued after a save, for every reply and file failure |
| ThreadCalls.BlockingSaveDoes | crates/loom-common-thread/src/sync.rs:389-430 | a blocking save writes locally, sends if public, and leaves the queue alone |
| ThreadCalls.DeleteDoes | crates/loom-common-thread/src/sync.rs:436-498 | the same as for a save: local store, server and every entry after a delete |
| ThreadCalls.DeleteQueues | crates/loom-common-thread/src/sync.rs:467-493 | exactly which keys are queued after a delete |
| ThreadCalls.RetryEntryDoes | crates/loom-common-thread/src/sync.rs:258-303 | local store, server, success and every entry after one entry of a retry |
| ThreadCalls.RetryFailsIff | crates/loom-common-thread/src/sync.rs:257-306 | a retry fails exactly if some thread it needs cannot be read |
| ThreadCalls.RetryStopsThere | crates/loom-common-thread/src/sync.rs:260-260 | and has then done exactly what a retry of the entries before does |
| ThreadCalls.LocalIsLastWritten | crates/loom-common-thread/src/sync.rs:242-498 | after every run, whatever the network does, the local store holds each thread in the form last written, unless it was deleted since |
| ThreadDebt.SaveSafeIff | crates/loom-common-thread/src/sync.rs:325-387 | a save keeps every debt recorded under every reply exactly if the thread is private, or the pending file works, or it cannot be written but the thread is already queued or on the server in this form, or it cannot be read but nothing else is owed |
| ThreadDebt.DeleteSafeIff | crates/loom-common-thread/src/sync.rs:436-498 | a delete keeps every debt recorded under every reply exactly if the thread is not local, or the pending file works, or cannot be read but nothing else is owed, or cannot be written but the thread is not on the server or its deletion is already queued; for a private thread the last of these is what counts |
| ThreadDebt.BlockingSaveSafeIff | crates/loom-common-thread/src/sync.rs:406-421 | a blocking save keeps debts recorded under every reply exactly if the thread is private, already queued, or already on the server in this form |
| ThreadDebt.RetryEntrySafeIff | crates/loom-common-thread/src/sync.rs:257-304 | one entry of a retry keeps debts recorded under every reply exactly unless it deletes a public local thread that has no Upsert entry at that point |
| ThreadDebt.RetrySafeIff | crates/loom-common-thread/src/sync.rs:242-307 | a whole retry keeps every debt recorded, whatever the network and the files do, exactly if each queued deletion of a public local thread is followed in the queue by that thread's upload |
| ThreadDebt.SafeRunsRecordDebt | crates/loom-common-thread/src/sync.rs:242-498 | over every run in which each call meets its own exact condition, each public local thread is on the server in its local form or has an Upsert entry, and each thread on the server that is no longer local has a Delete entry |
| ThreadDebt.DebtIsAlwaysRecorded | crates/loom-common-thread/src/sync.rs:242-498 | the same over every run in which ids keep their flag, the pending file works and no thread awaiting deletion is saved; then nothing private is on the server or queued either |
| ThreadDebt.NeverSavedAgainIsAdmissible | crates/loom-common-thread/src/sync.rs:242-498 | runs of save, delete and retry in which ids keep their flag, the pending file works and no deleted id is saved again meet that condition |
| ThreadDebt.SavingAgainLosesDebt | crates/loom-common-thread/src/sync.rs:283-302 | save, delete offline, save, retry leaves the thread local, absent from the server and not queued |
| ThreadDebt.UploadThenDeleteLosesDebt | crates/loom-common-thread/src/sync.rs:257-304 | so does save, delete and save all offline, then a retry in which everything answers: the upload is queued before the deletion |
| ThreadDebt.RetryCountsRemovals | crates/loom-common-thread/src/sync.rs:255-307 | an uninterrupted retry over a working pending file returns exactly the fall in queue length |
| ThreadDebt.FairRetrySettles | crates/loom-common-thread/src/sync.rs:242-307 | a retry in which everything answers leaves the server with exactly the public local threads in their local form, and at most Upsert entries of threads that are gone |
| SyncPrivacy.StepKeepsConsistent | crates/loom-common-thread/src/sync.rs:325-498 | every step keeps stored and loaded threads true to their flag, the packet of every sent task or retry on the wire, and every retry on the request of its first entry |
| SyncPrivacy.PrivateStaysLocalIff | crates/loom-common-thread/src/sync.rs:242-498 | over every interleaving of saves, blocking saves, deletes, tasks and retries, with any failure before or after sending: nothing private is sent, queued or about to be if no delete removes a private thread that its own load had not found; if one does and the pending file works, its id is sent, about to be sent, or queued |
| SyncPrivacy.FoundDeletesStayLocal | crates/loom-common-thread/src/sync.rs:436-449 | if every delete of a private id finds the thread when it loads, private threads stay local under every interleaving |
| SyncPrivacy.AtomicDeletesStayLocal | crates/loom-common-thread/src/sync.rs:436-449 | if no step comes between the load and the removal of a delete, private threads stay local |
| SyncPrivacy.RacingDeleteLeaks | crates/loom-common-thread/src/sync.rs:436-449 | a save of a new private thread between the two puts its id on the wire |
| SyncPrivacy.SaveAlone | crates/loom-common-thread/src/sync.rs:325-387 | the steps of a save that nothing interrupts do what the call does, and send the thread exactly if it is public |
| SyncPrivacy.BlockingSaveAlone | crates/loom-common-thread/src/sync.rs:389-430 | the same for a blocking save |
| SyncPrivacy.DeleteAlone | crates/loom-common-thread/src/sync.rs:436-498 | the same for a delete |
| SyncPrivacy.RetryEntryAlone | crates/loom-common-thread/src/sync.rs:257-304 | the same for one entry of a retry |
| AcpBridge.SnapshotRoundTrip | crates/loom-cli-acp/src/bridge.rs:49-82 | a message stored as a snapshot and read back is the same message |
| AcpBridge.SnapshotSaysTheSame | crates/loom-cli-acp/src/bridge.rs:64-171 | a snapshot has the role, content, ids, names and calls of its message, field by field |
| AcpBridge.MessageRoundTripIff | crates/loom-cli-acp/src/bridge.rs:49-82 | a snapshot survives the way through a message exactly if its call list is not present and empty |
| AcpBridge.RebuildAppend | crates/loom-cli-acp/src/bridge.rs:85-92 | rebuilding messages distributes over appending snapshots |
| AcpSession.Push | crates/loom-cli-acp/src/agent.rs:444-459 | the message and its snapshot are pushed together |
| AcpSession.ReadStream | crates/loom-cli-acp/src/agent.rs:394-441 | the reply is the final content and calls, the deltas if the stream just ends, or the reason it stopped, with the flag read from the session |
| AcpSession.FirstEndingDecides | crates/loom-cli-acp/src/agent.rs:394-441 | in a session that is not cancelled, the first undelivered, completing or failing event decides the reply; all text deltas before it are heard, and a completion's own content wins unless it is empty |
| AcpSession.CancelledIffFlagged | crates/loom-cli-acp/src/agent.rs:370-403 | the loop stops as cancelled exactly if the session was cancelled when it began, and then adds nothing |
| AcpSession.ExecuteTools | crates/loom-cli-acp/src/agent.rs:472-488 | one result per call, in call order, in both histories |
| AcpSession.RunPromptLoop | crates/loom-cli-acp/src/agent.rs:369-492 | for every script of turns, both histories grow by the same dialogue and the loop stops for the first reason it meets |
| AcpSession.DialogueSoFar | crates/loom-cli-acp/src/agent.rs:462-490 | as long as turns ask for tools, their messages and results are added and the LLM is called again |
| AcpSession.DialogueIs | crates/loom-cli-acp/src/agent.rs:369-492 | a dialogue is the exchanges of the turns that ask for tools up to the first that does not; that one's message ends the turn, or its failure ends the prompt. Every message is written out with its content |
| AcpSession.EndTurnIff | crates/loom-cli-acp/src/agent.rs:462-465 | the prompt ends its turn exactly if some turn replies without calls and all turns before it ask for tools |
| AcpSession.AssistantsAreReplies | crates/loom-cli-acp/src/agent.rs:443-459 | there are as many assistant messages as turns that replied, and the i-th has the content and calls of turn i |
| AcpSession.PushedAllAppend | crates/loom-cli-acp/src/agent.rs:444-459 | pushing two lists of messages one after the other is pushing their concatenation |
| AcpSession.DialogueIsPaired | crates/loom-cli-acp/src/agent.rs:443-488 | whatever stops it, a dialogue has each assistant message followed by exactly the results of its calls |
| AcpSession.CallsHaveResults | crates/loom-cli-acp/src/agent.rs:472-488 | in a paired history, the k-th message after an assistant message is the result of its k-th call |
| AcpSession.ResultsHaveCalls | crates/loom-cli-acp/src/agent.rs:472-488 | and every message that is neither a user's nor an assistant's answers a call made before it |
| AcpSession.PushKeepsHistoriesEqual | crates/loom-cli-acp/src/agent.rs:444-459 | pushing keeps the messages equal to those rebuilt from the snapshots |
| AcpAgent.LoomAcpAgent.constructor | crates/loom-cli-acp/src/agent.rs:245-267 | no sessions and no threads |
| AcpAgent.LoomAcpAgent.GetSession | crates/loom-cli-acp/src/agent.rs:495-498 | the session leaves the map while it is worked on |
| AcpAgent.LoomAcpAgent.PutSession | crates/loom-cli-acp/src/agent.rs:501-506 | the session goes back under its id |
| AcpAgent.LoomAcpAgent.Create | crates/loom-cli-acp/src/agent.rs:539-574 | a new session exists and is stored, or neither if the store fails |
| AcpAgent.LoomAcpAgent.Load | crates/loom-cli-acp/src/agent.rs:577-614 | the session is rebuilt from the stored thread; a missing thread or a store error changes nothing |
| AcpAgent.LoomAcpAgent.HandlePrompt | crates/loom-cli-acp/src/agent.rs:617-667 | whole new state for every way the prompt ends: completed prompts are touched and saved, failed ones only put back |
| AcpAgent.LoomAcpAgent.HandleCancel | crates/loom-cli-acp/src/agent.rs:670-678 | sets the flag of the session in the map, if there is one |
| AcpAgent.PromptKeepsInStep | crates/loom-cli-acp/src/agent.rs:617-645 | a prompt keeps the two histories equal and paired, and appends to both |
| AcpAgent.CallKeepsSound | crates/loom-cli-acp/src/agent.rs:539-678 | every call keeps each live session in step and ahead of what is stored |
| AcpAgent.NewSessionDoes | crates/loom-cli-acp/src/agent.rs:539-574 | a new session is empty, not cancelled and stored, or nothing changes if storing fails; other ids are as before |
| AcpAgent.LoadSessionDoes | crates/loom-cli-acp/src/agent.rs:577-614 | a loaded session has one message per stored snapshot and is not cancelled; other ids are as before |
| AcpAgent.PromptDoes | crates/loom-cli-acp/src/agent.rs:617-667 | after a prompt the session has the user's text and the dialogue appended, and one more version and its thread stored exactly if it ended its turn or was cancelled, and saving worked |
| AcpAgent.PromptKeepsOthers | crates/loom-cli-acp/src/agent.rs:617-667 | a prompt leaves other sessions and threads as they were |
| AcpAgent.UnknownSessionIsRefused | crates/loom-cli-acp/src/agent.rs:624-627 | a prompt on an unknown session changes nothing |
| AcpAgent.CancelDoes | crates/loom-cli-acp/src/agent.rs:670-678 | a cancel sets the flag of a live session and nothing else |
| AcpAgent.HistoriesStayInStep | crates/loom-cli-acp/src/agent.rs:369-492 | over every sequence of calls, each live session's messages are those rebuilt from its thread and each assistant message is followed by exactly its results, however the prompts ended |
| AcpAgent.SavedPromptReloads | crates/loom-cli-acp/src/agent.rs:577-667 | after a completed and saved prompt, loading the session gives the same messages and thread |
| AcpAgent.FailedPromptIsNotStored | crates/loom-cli-acp/src/agent.rs:638-646 | after a failed prompt the new messages are in memory only, and loading the session loses them |
| AcpAgent.FlagIsCancelledSince | crates/loom-cli-acp/src/session.rs:44-70 | in every run, a live session's flag is set exactly if it was cancelled since it was last created or loaded |
| AcpAgent.PromptIsCancelledIff | crates/loom-cli-acp/src/agent.rs:617-678 | in every run, a prompt on a live session returns as cancelled exactly if the session was cancelled since it was last created or loaded, and then adds only the user's message and stays cancelled |
| BatchQueue.BatchProcessor.constructor | crates/loom-analytics/src/batch.rs:74-82 | an empty queue of any size whose accounts are in order, with no wake-up stored |
| BatchQueue.BatchProcessor.AcceptLocked | crates/loom-analytics/src/batch.rs:90-108 | the locked part of enqueue drops the oldest events until there is room, pushes the event as given, and asks for a flush exactly if a batch is full |
| BatchQueue.BatchProcessor.Enqueue | crates/loom-analytics/src/batch.rs:85-111 | refused after shutdown, otherwise accepted, and the flush loop is woken exactly if a batch is full |
| BatchQueue.BatchProcessor.TakeLocked | crates/loom-analytics/src/batch.rs:114-118 | a flush takes the whole queue |
| BatchQueue.BatchProcessor.Shutdown | crates/loom-analytics/src/batch.rs:134-137 | sets the flag, wakes the flush loop and keeps the accounts in order |
| BatchQueue.AcceptKeepsAccounts | crates/loom-analytics/src/batch.rs:90-102 | accepting keeps the closed form of queue, batches and drops |
| BatchQueue.TakeKeepsAccounts | crates/loom-analytics/src/batch.rs:115-118 | taking keeps it |
| BatchQueue.EveryRunIsAccounted | crates/loom-analytics/src/batch.rs:85-126 | for every interleaving: the queue and each batch are the events accepted since the take before, or the newest max_queue_size of them, and exactly the rest were dropped, once each and in order |
| BatchQueue.AcceptedIsPassedIn | crates/loom-analytics/src/batch.rs:85-126 | over every run, the events accepted are those passed in, as they are and in order, and the takes are those of the run |
| BatchQueue.OneFateEach | crates/loom-analytics/src/batch.rs:85-126 | each accepted event is dropped, in one batch or in the queue, never two of these; it is dropped exactly if max_queue_size newer events were accepted with no take between |
| BatchQueue.BatchesKeepOrder | crates/loom-analytics/src/batch.rs:114-126 | batches in take order keep acceptance order |
| EditFile.ApplyEdits | crates/loom-cli-tools/src/edit_file.rs:151-220 | applies the edits in turn, and reports the first target that is missing, or the new content, the matches replaced and both sizes |
| EditFile.StagesFollow | crates/loom-cli-tools/src/edit_file.rs:154-198 | each edit whose turn comes has its target in the content before it, and makes the content after it |
| EditFile.StagesEnd | crates/loom-cli-tools/src/edit_file.rs:164-175 | the edits stop exactly at one whose target is not there |
| EditFile.EmptyTargetAppends | crates/loom-cli-tools/src/edit_file.rs:155-163 | an empty target keeps the content as a prefix and appends the new string |
| EditFile.FirstMatchIsReplaced | crates/loom-cli-tools/src/edit_file.rs:188-190 | without replace_all, the first occurrence and nothing else is replaced |
| EditFile.AllMatchesAreReplaced | crates/loom-cli-tools/src/edit_file.rs:178-181 | with it, the new string joins the parts of the leftmost split, and the count is the number of cuts |
| EditFile.TotalIsSum | crates/loom-cli-tools/src/edit_file.rs:152-190 | edits_applied is the sum of the matches of each edit in the content it is applied to |
| EditFile.BytesAreEncoded | crates/loom-cli-tools/src/edit_file.rs:151-205 | sizes are the lengths of the UTF-8 encodings |
| EditFile.SplitIsLeftmost | crates/loom-cli-tools/src/edit_file.rs:176-181 | the split cuts at the first occurrence, then at the first occurrence in the rest, and so on |
| EditFile.ReplaceAllJoinsSplit | crates/loom-cli-tools/src/edit_file.rs:176-181 | replace-all is the leftmost non-overlapping split joined with the new string, and the count is the number of cuts |
| EditFile.ReplaceFirstCutsFirst | crates/loom-cli-tools/src/edit_file.rs:189-190 | replacing once changes the first occurrence and nothing else |
| EditFile.ReplaceBySame | crates/loom-cli-tools/src/edit_file.rs:179-181 | replacing a string by itself changes nothing |
| EditFile.ContainsIffCounted | crates/loom-cli-tools/src/edit_file.rs:164-181 | a target is contained exactly if at least one match is counted |
| EditFile.EditGrowth | crates/loom-cli-tools/src/edit_file.rs:155-196 | an edit changes the size in bytes by its matches times the difference of the two strings, and has at least one match |
| EditFile.EditAccounting | crates/loom-cli-tools/src/edit_file.rs:151-220 | for every list of edits that applies, new_bytes is original_bytes plus the growth of each edit, and edits_applied is at least the number of edits |
| EditFile.ReplaceAllReverses | crates/loom-cli-tools/src/edit_file.rs:176-181 | if the new string shares no character with the content, replacing back restores it |
| EditFile.ReplaceAllIsComplete | crates/loom-cli-tools/src/edit_file.rs:176-181 | if the new string shares no character with the target, no target is left |
| EditFile.EmptyReplacementLeavesMatch | crates/loom-cli-tools/src/edit_file.rs:176-181 | an empty new string can leave a target behind |
| BraceEscaper.EscapeLiteralBraces | crates/loom-redact/build.rs:78-117 | the scan terminates and its result is the pattern with every literal brace escaped |
| BraceEscaper.NextPiece | crates/loom-redact/build.rs:89-114 | one round of the scan copies an escape pair, a quantifier or a character, or escapes a brace |
| BraceEscaper.QuantifierIff | crates/loom-redact/build.rs:82-82 | a quantifier of length n is found exactly if the text starts with {digits}, {digits,} or {digits,digits} of that length |
| BraceEscaper.EscapingKeepsTokens | crates/loom-redact/build.rs:78-117 | the escaped pattern has the tokens of the original, with literal braces turned into escaped ones |
| BraceEscaper.EscapedTokenIs | crates/loom-redact/build.rs:89-114 | token by token: a literal brace becomes that brace escaped, every other token stays |
| BraceEscaper.FirstTokenIs | crates/loom-redact/build.rs:92-112 | the first token, told by the text alone: an escape pair, a quantifier, or one character |
| BraceEscaper.OnlyQuantifierBracesRemain | crates/loom-redact/build.rs:99-110 | unescaped braces are left only around quantifiers |
| BraceEscaper.EscapingIsIdempotent | crates/loom-redact/build.rs:78-117 | escaping twice is escaping once |
| BraceEscaper.EscapedTextRenders | crates/loom-redact/build.rs:78-117 | the result is the text of the escaped tokens |
| BraceEscaper.RenderTokens | crates/loom-redact/build.rs:78-117 | every pattern is the text of its tokens |
| BraceEscaper.UnchangedIff | crates/loom-redact/build.rs:78-117 | a pattern is unchanged exactly if it has no literal brace |
| DiffTruncation.TruncateDiff | crates/loom-cli-auto-commit/src/generator.rs:89-106 | a valid UTF-8 prefix within the limit: all of it if it fits, otherwise up to the last newline of the window, or if there is none at least limit - 3 bytes |
| DiffTruncation.BoundarySplits | crates/loom-cli-auto-commit/src/generator.rs:95-98 | cutting valid UTF-8 at a boundary gives two valid texts |
| DiffTruncation.CutIsValidIff | crates/loom-cli-auto-commit/src/generator.rs:95-98 | cutting valid UTF-8 gives valid UTF-8 exactly at the boundaries |
| Utf8.ValidIffEncoded | crates/loom-cli-auto-commit/src/generator.rs:89-98 | bytes are valid by the syntax exactly if they encode some text |
| DiffTruncation.BoundaryIsNear | crates/loom-cli-auto-commit/src/generator.rs:94-97 | a boundary is at most 3 bytes back |
| ConfigLayers.ConfigLayer.Merge | crates/loom-cli-config/src/layer.rs:187-193 | the layer becomes the merge of the two |
| ConfigLayers.InsertAll | crates/loom-cli-config/src/layer.rs:240-244 | inserting the entries in any order gives the union, with the source's entries winning |
| ConfigLayers.MergeIsFieldwise | crates/loom-cli-config/src/layer.rs:185-304 | for every field and provider entry, the source's value if it sets one and the target's otherwise |
| ConfigLayers.SameFieldsSameLayer | crates/loom-cli-config/src/layer.rs:13-182 | the fields determine the layer |
| ConfigLayers.MergeIsAssociative | crates/loom-cli-config/src/layer.rs:185-304 | merging is associative |
| ConfigLayers.DefaultIsIdentity | crates/loom-cli-config/src/layer.rs:187-205 | the default layer is the identity on both sides |
| ConfigRegistry.Registry.Register | crates/loom-cli-config/src/registry.rs:29-32 | the source goes to the end of the list |
| ConfigRegistry.Registry.Load | crates/loom-cli-config/src/registry.rs:38-61 | merges the loaded sources in the stable order of precedence and skips those that fail |
| ConfigRegistry.SortByPrecedence | crates/loom-cli-config/src/registry.rs:40-41 | the sources in ascending precedence, each as often as registered |
| ConfigRegistry.InsertDecides | crates/loom-cli-config/src/registry.rs:40-41 | the sort is stable: at equal precedence a source comes after those registered before it |
| ConfigRegistry.MergeAllTakesLast | crates/loom-cli-config/src/registry.rs:48-61 | a field has the value of the last loaded source that sets it |
| ConfigRegistry.HighestPrecedenceWins | crates/loom-cli-config/src/registry.rs:38-61 | each field, and each provider entry as a whole, comes from the highest-precedence loaded source that sets it, at equal precedence from the last registered |
| ConfigRegistry.UnsetStaysUnset | crates/loom-cli-config/src/registry.rs:48-61 | a field is unset exactly if no loaded source sets it |
| ConfigRegistry.RegistrationOrderIrrelevant | crates/loom-cli-config/src/registry.rs:38-61 | with distinct precedences every order of registration gives the same layer |
| RemoteUrl.UrlFormNormalizes | crates/loom-cli-git/src/normalize.rs:55-88 | every URL spelling with any of the four schemes, with or without user info, port and ".git", gives lower(host)/path |
| RemoteUrl.ScpFormNormalizesIff | crates/loom-cli-git/src/normalize.rs:12-53 | the form host:path with any user info or none gives lower(host)/path exactly if the path does not start with two slashes and the whole not like a local path; otherwise it is refused, unless the host alone is named like a scheme |
| RemoteUrl.HostCaseIsIgnored | crates/loom-cli-git/src/normalize.rs:84-87 | hosts that differ only in the case of ASCII letters normalise alike |
| RemoteUrl.NormalHostHasNoCapital | crates/loom-cli-git/src/normalize.rs:12-88 | whatever is normalised, the host in the result has no capital |
| RemoteUrl.BlanksAreIgnored | crates/loom-cli-git/src/normalize.rs:13-17 | blanks around a remote make no difference |
| RemoteUrl.AsciiBlanks | crates/loom-cli-git/src/normalize.rs:13-13 | which ASCII characters are blanks |
| RemoteUrl.LocalPathsAreRefused | crates/loom-cli-git/src/normalize.rs:15-22 | blank text and anything that starts like a local path is refused |
| RemoteUrl.OtherSchemesAreRefused | crates/loom-cli-git/src/normalize.rs:55-60 | other schemes are refused |
| RemoteUrl.UrlNeedsHostAndPath | crates/loom-cli-git/src/normalize.rs:76-80 | a URL without a host or a path is refused |
| RemoteUrl.CanonicalFormIsFixed | crates/loom-cli-git/src/normalize.rs:12-34 | "https://" and the normal form normalises to the normal form |
| Backoff.Retry | crates/loom-common-http/src/retry.rs:80-126 | calls the operation between 1 and max(1, max_attempts) times, returns the first success, the first error that cannot be retried or the last allowed one, and sleeps the calculated delays between |
| Backoff.FirstDelay | crates/loom-common-http/src/retry.rs:66-78 | without jitter the first delay is the smaller of base_delay and max_delay |
| Backoff.DelayIsMultiplied | crates/loom-common-http/src/retry.rs:66-78 | a delay below max_delay is followed by the factor times it, capped, whatever the factor |
| Backoff.DelayGrowsByFactor | crates/loom-common-http/src/retry.rs:66-78 | with factor >= 1 that holds for every delay |
| Backoff.JitterScales | crates/loom-common-http/src/retry.rs:70-75 | with jitter the delay is the one without, times 0.5 plus the draw |
| Backoff.DelaysGrowToMaximum | crates/loom-common-http/src/retry.rs:66-78 | without jitter and with factor >= 1, delays never decrease or exceed max_delay |
| Backoff.DelayIsBounded | crates/loom-common-http/src/retry.rs:66-78 | every delay is between 0 and 1.5 times max_delay |
| Backoff.TotalSleepIsBounded | crates/loom-common-http/src/retry.rs:80-126 | the total sleep is at most 1.5 * max_delay * (max_attempts - 1) |

## Left out

- Timestamps, progress reports, token usage and logging of the agent: they decide nothing.
- SafeRunsRecordDebt: background tasks end before the next call. Overlapping tasks are covered for privacy only. The retries inside one request are part of its response.
- PrivateStaysLocalIff: that a blind delete leaks needs a working pending file; with a request that is never sent and a queue that cannot be written, the id goes nowhere.
- HistoriesStayInStep: prompts on one session do not overlap.
- The content blocks of a prompt come as their joined text.
- ACP sessions are values that are moved out of and into the map, as in the source; workspace roots and message chunks sent to the client are not modelled.
- ConfigRegistry.Registry.Load: `LoomConfig::from_layer` and `validate_config` after the merge are not modelled.
- EveryRunIsAccounted: requires max_queue_size >= 1; with 0 the first enqueue panics in the source.
- The background loop of the batch queue and its draining at shutdown; a failed send does not requeue its events.
- The file access, path checks and JSON of `edit_file`.
- QuantifierIff: digits outside ASCII, which `\d` accepts, are not modelled; nor is brace escaping as regex meaning, where forms such as \p{..} matter.
- Lower-casing of hosts outside ASCII.
- Backoff: durations are reals, so rounding and NaN are not modelled; a negative factor panics in the source and is excluded from the bounds.
- `LocalThreadStore::list`, the thread file format, HTTP, authentication, CLI, REPL, websockets, git subprocesses, the spool and the keyring: plumbing around the modelled code.
