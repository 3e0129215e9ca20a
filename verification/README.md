# Verified models of piglet's core

This project models the hard parts of piglet, a terminal coding agent, and proves properties of the models.
The laws are about all inputs or all runs; beside each law that fails stands a run or an input that shows it. Nothing
here executes the original program.

`dafny verify dfyconfig.toml` checks everything.

## What is modelled

**Session store** (`SessionModel`, `SessionReplay`, `SessionTree`, `SessionLegacy`, `SessionFullTree`, `SessionScan`, `SessionDamage`,
`SessionStore`).
A session is a JSONL log and the tree it denotes. `SessionModel` gives two meanings: `Replay`, what opening a file
does, and `Live`/`Written`, what an operation does to the fields and to the file. `SessionStore.Session` is the
object itself, with the source's fields, updated in place and proved against those meanings. A reload rebuilds the live
session exactly when each step was `Harmless`; walks end exactly when ids do not collide with the branch; every past leaf
can be travelled back to; the tree view lists every entry that leads back to a root once, parents first, with the active
branch as one block, also when lines of the file were lost; the one-pass message count of the session list equals the
branch's length exactly when no empty checkpoint discarded messages.

**Extension protocol** (`DeltaStream`, `DeltaRuns`, `DeltaDelivery`, `RpcCorrelation`, `RpcRuns`, `Shutdown`, `Sdk`, `Handshake`,
`AuthorCalls`, `Bridge`, `Registry`, `Supervisor`, `EndToEnd`). Threads of the host and the extension are step relations;
every theorem holds in every interleaving. The wire form is a simplified JSON-RPC 2.0 (sections 4, 4.1 and 5 of the
JSON-RPC 2.0 Specification). `Sdk.Extension`, `Bridge.Host` and `Registry.App` are the objects with in-place updates;
`Handshake` relates what an extension holds to what its host collects, `AuthorCalls` what it holds to the calls its author
made; `Supervisor` runs any number of extensions over one registry, one registration at a time; `EndToEnd` joins them, from
the author's calls to what the app shows.

**Agent loop** (`Conversation`, `ToolExecutor`, `ToolResults`, `ToolSteering`, `Turns`, `Compaction`, `Repair`). Parallel tool
execution, what its calls are answered with and what becomes of the steering messages its tools pick up, the turn loop with
retries, background compaction racing with the message cap, and the repair of interrupted histories.

**Edit and diff** (`EditTool`, `LineDiff`). Search and replace with quote normalisation; LCS line diff with its
counts.

**Three algorithms** (`StreamAssembly`, `Affected`, `Cron`). Reassembling a streamed completion, finding the packages a
change affects, and deciding when a schedule is due.

`Prelude`, `Sorting` and `Subsequences` are shared vocabulary. `Sorting.SortFunc` promises only a sorted permutation,
because `slices.SortFunc` is not stable.

## Where the code does not do what its documentation or callers suppose

Each of these is a lemma, and where the code can meet the expectation the exact condition under which it does is proved
for all inputs.

- A compaction to the empty list empties the branch in memory but not after a reload (`SessionReplay.EmptyCompactionDiverges`);
  ordinary runs reload faithfully if and only if there is none (`SessionReplay.OrdinaryRunAgreesIff`). The same step-wise
  equivalence (`SessionReplay.StepAgreesIff`) covers custom entries of a reserved kind and title or model changes whose
  write failed.
- A generated entry id that is already on the branch closes a cycle on which the leaf-to-root walk never ends
  (`SessionTree.CommitWalksIff`).
- Deltas written after the reply may still be forwarded: for a given log every run is exact if and only if no delta follows
  the reply (`DeltaDelivery.EveryRunExactIff`, `DeltaDelivery.TrailingDeltaIsForwarded`).
- A delta typed as a terminal event ends the stream twice: every run of a log has one terminal event if and only if no delta of
  the call has such a type (`DeltaDelivery.OneTerminalEventIff`, `DeltaDelivery.DoneDeltaEndsTwice`). A provider's stream has one
  terminal event unless it is cancelled while lines are still coming (`StreamAssembly.RunStream`).
- Steering messages that a tool picks up can be lost. Only the first nonempty batch heard of while the executor drains its
  channel is handed on (`ToolSteering.KeptIsFirstHeard`); later batches are dropped, and so is a sole batch that arrives after a
  failed tool has made the executor collect without looking. Without a cancellation no run of a batch of calls loses a message if
  and only if the batch has at most one call, whatever the concurrency (`ToolSteering.NoRunLosesIff`). The turn loop drops what
  the tools handed on when the turn limit is reached: no run drops anything if and only if there is no limit
  (`Turns.NoRunDropsIff`).
- The compaction's length test does not notice that the cap dropped messages as long as at least as many were appended;
  each dropped message then costs one appended message (`Compaction.MergeKeepsAllIff`, `Compaction.CapHidesAppended`). Whatever
  the history and the threshold, no merge of any run loses such a message if and only if there is no cap
  (`Compaction.NoMergeLosesIff`).
- When a supervisor gives up, after a sixth crash in a row without a stable uptime (`Supervisor.GivesUpIff`), or is stopped and
  returns from watching its extension, the registrations stay, and in no other case
  (`Supervisor.UnwatchedStaysRegisteredIff`, reached in `Supervisor.GivingUpIsReachable` and `Supervisor.StoppingKeepsRegistered`).
- A stop that falls into a restart finds no host; if the restart still succeeds its process is left running, unwatched
  (`Supervisor.StopDuringRestart`). A stop leaves no process running if and only if it falls neither into a start nor into a
  restart, and no reload signal is taken after it (`Supervisor.StopLeavesNothingIff`).
- When the read loop ends before any `Stop`, the child is never reaped by the host
  (`Shutdown.StopWaitsForChildAndReader`, reached in `Shutdown.ReaderClosesAlone`).
- Providers registered after the reply to initialize may or may not be bridged; the outcome does not depend on how far the host
  has read if and only if there are none (`Handshake.ReadAheadIff`). Bridging panics if and only if a prompt section was registered
  without a title (`Handshake.BridgeableIff`).
- The edit tool's count ignores overlaps, so a match counted once need not be the only one; it is for every text if and only if the
  search text does not overlap itself (`EditTool.CountOneIsUniqueIff`).
- A tool call whose index skips ahead is finished without its arguments (`StreamAssembly.SkippedIndexLosesArguments`); arguments
  are whole if and only if every fragment carries its call's number (`StreamAssembly.ArgumentsMatchIff`).
- A missed target stops being due at midnight: a weekly one missed by a day waits out the week (`Cron.MissedWeeklyWaits`), and a
  task stays due until it runs if and only if it is due at the midnight after its target (`Cron.StaysDueIff`).

## What single steps do

A few lemmas spell out, in the source's own constants and without naming the functions that compute it, what single steps and
tables do, so that the laws over runs are about those steps: `DeltaStream.FailuresAnswer` and `DeltaStream.DroppedIffFull`,
`Compaction.LoopMoves`, `Sdk.ProperIff` (which registrations panic) and `Sdk.SendingOrder`, `EditTool.StraightTable` (the quotes that are normalised)
and `Cron.WeekdayLaw`.

## Model

| member | source | states |
|---|---|---|
| `SessionReplay.CompactRoundTrip` | session/append.go:33-45 | the compact payload written by AppendCompact decodes, under the replay rules, to the very messages given |
| `SessionReplay.CompactConcat` | session/replay.go:73-95 | the messages of a checkpoint's entries are those of its first entries followed by those of the rest |
| `SessionReplay.CompactOne` | session/replay.go:76-92 | one entry gives the message its type's decoder makes of it, or none |
| `SessionReplay.LineLeaves` | session/replay.go:10-71 | what each kind of line leaves: an entry with its type, time and parent, the message its kind decodes to (an assistant's for a custom message of that role, else a user's), the label set or cleared, and nothing else changed |
| `SessionLegacy.LegacyFileIsChain` | session/replay.go:20-27 | a file whose lines have no ids opens as one chain in file order, with distinct ids, an entry for each line, and the messages of the lines one after the other |
| `SessionLegacy.LegacyIdsDistinct` | session/replay.go:22 | the id made up for the n-th such line is L followed by n in decimal, so no two are the same |
| `SessionReplay.StepAgreesIff` | session/append.go:12-193 | from any state equal to its file's replay, an operation with an unused id leaves memory and file in agreement if and only if it is harmless (nonempty compaction, no reserved custom kind that decodes, no failed title/model write) |
| `SessionReplay.RunAgrees` | session/replay.go:10-95 | after any run of harmless operations, replaying the grown file rebuilds exactly the live id, meta, nodes, labels and leaf |
| `SessionReplay.OrdinaryRunAgreesIff` | session/append.go:29-53 | a run with namespaced custom kinds and successful meta writes reloads faithfully if and only if it never compacted to the empty list |
| `SessionReplay.ReplayNeverEmptyCompact` | session/replay.go:47-52 | no reloaded entry holds an empty, non-nil compact list |
| `SessionReplay.EmptyCompactionStays` | session/append.go:47-51 | a live empty compaction keeps its non-nil empty list for the rest of the run |
| `SessionReplay.EmptyCompactionDiverges` | session/append.go:47-51 | the smallest run whose reload differs from memory: one message, then an empty compaction |
| `SessionTree.WalkUnique` | session/tree.go:246-262 | the leaf-to-root walk is determined by the nodes |
| `SessionTree.WalkDistinct` | session/tree.go:246-262 | a walk that ends visits no entry twice |
| `SessionTree.ShowsUnique` | session/tree.go:224-242 | Messages() has one answer in each state |
| `SessionTree.CommitWalksIff` | session/append.go:137-155 | after committing an entry below the leaf the walk ends if and only if the new id was not on the branch |
| `SessionTree.NoWalkOnCycle` | session/tree.go:252-259 | an id that closes a cycle on the branch has no walk to a root |
| `SessionTree.LiveKeepsWellFormed` | session/append.go:137-155 | every operation with an unused id keeps parent links acyclic and grounded, keeps the leaf an existing entry, and alters no existing entry |
| `SessionTree.LiveKeepsLeafChildless` | session/append.go:150-153 | the leaf never has children, and after a commit it is the newest entry |
| `SessionTree.RunKeepsWellFormed` | session/append.go:12-193 | over whole runs the tree stays well formed, no existing entry changes, and new ids never hit old ones |
| `SessionTree.RunFramesWalk` | session/tree.go:224-262 | a walk and the messages along it survive any run that does not generate an id on it |
| `SessionTree.TimeTravel` | session/tree.go:19-58 | if e was the leaf and Messages() was V, then after any later run avoiding e's branch, branching to e makes Messages() V again |
| `SessionTree.TimeTravelFresh` | session/tree.go:19-58 | with fresh ids every past leaf of a well-formed session can be travelled back to |
| `SessionTree.LiveShows` | session/tree.go:224-242 | what each operation does to Messages(): append adds one, a custom message adds an assistant's message if the role is assistant and else a user's with the commit's time, compaction replaces all, reset empties, custom entries, labels and meta change nothing |
| `SessionFullTree.SearchListsTree` | session/tree.go:150-178 | the depth-first rows are a full listing: exactly the entries that lead back to a root, once each, parents before children, depth the number of ancestors, siblings active first then by time, oldest first, the active branch one contiguous block; and that is every entry if and only if no parent is missing |
| `SessionFullTree.RunIsListedWhole` | session/tree.go:104-179 | after any run with fresh ids a session that was well formed meets what FullTree needs, and the listing leaves out no entry and shows those from before the run with their old parent, type and time |
| `SessionScan.ScanSummary` | session/list.go:48-95 | one pass yields the metadata that Open would hold and the count of message-typed entries since the last decodable compaction |
| `SessionScan.ScanMatchesOpenIff` | session/list.go:66-87 | on a readable log that forms a single chain the one-pass count equals the length of Messages() after Open if and only if no empty checkpoint discarded anything |
| `SessionScan.CountsAgreeIff` | session/list.go:77-85 | by-type counting and by-content counting agree on a readable log under exactly that condition |
| `SessionScan.NonemptyCheckpointsDiscardNothing` | session/list.go:77-81 | any number of nonempty compactions meets the condition |
| `SessionScan.OwnFileIsCounted` | session/list.go:48-95 | for every session that never branched, reset or compacted to nothing the count listed is the length of the conversation it shows |
| `SessionScan.BranchedCountDiffers` | session/list.go:82-85 | off a chain the count includes an abandoned reply |
| `SessionDamage.DamagedFileIsAcyclic` | session/session.go:108-117 | whichever lines of a session's file cannot be read, what is left opens into a tree without cycles |
| `SessionDamage.RunWritesOrdered` | session/append.go:137-155 | in the file a session writes every id is new, as an id and as a parent |
| `SessionStore.Session.New` | session/session.go:44-88 | a session comes about exactly when its file and its first line can be written; it then has no entries, its meta line in the file, and agrees with that file |
| `SessionStore.Session.Open` | session/session.go:92-134 | opening succeeds if and only if the log holds metadata with a nonempty id, and gives exactly the replayed fields |
| `SessionStore.Session.ReplayLine` | session/replay.go:10-71 | one line changes the fields as the replay function says, legacy id assignment included |
| `SessionStore.Session.ReplayCompactEntries` | session/replay.go:73-95 | the loop collects exactly the decodable messages in order |
| `SessionStore.Session.CommitNode` | session/append.go:137-155 | a commit hangs the entry below the leaf, moves the leaf and appends one line, or, if the write fails, changes nothing |
| `SessionStore.Session.Append` | session/append.go:12-24 | fields and file after the call are the live meaning and the written line of an append |
| `SessionStore.Session.AppendCompact` | session/append.go:29-53 | the same for a compact checkpoint, with a copy of the messages |
| `SessionStore.Session.AppendCustom` | session/append.go:58-70 | the same for a custom entry |
| `SessionStore.Session.AppendCustomMessage` | session/append.go:74-91 | the same for a custom message: the entry holds an assistant's message if the role is assistant, else a user's, stamped with the commit's time |
| `SessionStore.Session.AppendLabel` | session/append.go:96-121 | the same for a label; an unknown target is refused and nothing changes |
| `SessionStore.Session.Branch` | session/tree.go:19-38 | the same for a branch; an unknown target is refused and nothing changes |
| `SessionStore.Session.ResetLeaf` | session/tree.go:63-67 | the same for a reset |
| `SessionStore.Session.WriteBranchEntry` | session/tree.go:42-58 | the temporarily moved leaf is restored when the write fails |
| `SessionStore.Session.SetTitle` | session/append.go:158-174 | the title changes in memory whatever the write does; the line is appended if it succeeds |
| `SessionStore.Session.SetModel` | session/append.go:177-193 | the same for the model |
| `SessionStore.Session.BranchPath` | session/tree.go:246-262 | the loop returns the walk from root to leaf |
| `SessionStore.Session.Messages` | session/session.go:157-161 | Messages() is the fold of the active walk |
| `SessionStore.Session.Fork` | session/append.go:197-239 | a fork succeeds exactly when its file, its metadata and every message can be written; then it holds the first messages of the branch, up to the limit, under metadata naming parent and fork point, in agreement with its file; otherwise the file is left with what was written, which opens as a fork of the messages before the failed one |
| `SessionStore.Session.CopyMessages` | session/append.go:231-236 | messages are appended in order up to the first failed write, and the file stays in agreement |
| `SessionStore.Session.FullTree` | session/tree.go:104-179 | the method's rows are a full listing of the tree, parents missing or not |
| `SessionStore.Session.IsInActiveSubtree` | session/tree.go:182-192 | the recursive test holds exactly for the entries on the active path |
| `SessionStore.Session.SortChildren` | session/tree.go:130-143 | every sibling list is sorted active first and then by age, and still lists exactly the children |
| `DeltaStream.StreamIsDeltasThenOneClosing` | ext/external/stream.go:89-171 | when the stream ends its events are the forwarded deltas, each with its kind and text, followed by one closing event, done exactly for a successful reply; those deltas are an in-order subsequence of what the extension wrote for this request since registration |
| `DeltaDelivery.NothingLostBeforeReply` | ext/external/stream.go:132-134 | if no push overflowed and a reply ended the stream, everything written before that reply was forwarded, and nothing beyond what was written |
| `DeltaStream.EachPushedOrDropped` | ext/external/host_notifications.go:118-131 | in every run, of the deltas read while the channel is registered each was put into it, is about to be, or was counted as dropped |
| `DeltaDelivery.QuietStreamIsExact` | ext/external/stream.go:173-184 | for an extension silent after its reply the forwarded deltas are exactly those sent before it |
| `DeltaDelivery.OneTerminalEventIff` | ext/external/stream.go:187-205 | for any log: every run that wrote it ends with exactly one terminal event if and only if no delta of the call in it has a terminal type |
| `DeltaDelivery.OneTerminalEventByReplyIff` | ext/external/stream.go:132-157 | the same over the runs that end with a given reply and drop nothing |
| `DeltaDelivery.QuietStreamEndsOnceIff` | ext/external/stream.go:187-205 | in a single run of an extension silent after its reply there is one terminal event if and only if no delta written before the reply has a terminal type |
| `DeltaDelivery.DoneDeltaEndsTwice` | ext/external/stream.go:187-192 | a run that emits two done events |
| `DeltaDelivery.EveryRunExactIff` | ext/external/stream.go:124-184 | for any log and any of its replies to the call: every run that ends with that reply and drops nothing forwards exactly the deltas before it, if and only if none follows it |
| `DeltaRuns.DeliverAll` | ext/external/stream.go:124-157 | for any log and any of its replies there is a run that forwards every delta and ends with that reply |
| `DeltaRuns.DeliverAndCancel` | ext/external/stream.go:159-162 | for any log there is a run that forwards every delta and is then cancelled |
| `DeltaDelivery.NeverStuck` | ext/external/stream.go:89-170 | after the reply, a cancel or a crash some thread can always move until the stream is closed; before the request is sent, refusing is possible only for a closed host |
| `DeltaDelivery.TrailingDeltaIsForwarded` | ext/external/stream.go:132-134 | a run in which a delta sent after the reply is still forwarded |
| `DeltaStream.ReachableInv` | ext/external/host_notifications.go:118-131 | the invariant over the read loop, the request goroutine and the forwarder holds in every reachable state |
| `RpcCorrelation.IdsNeverReused` | ext/external/host_rpc.go:11-12 | no two requests carry the same id |
| `RpcCorrelation.ReplyReachesItsCaller` | ext/external/host_rpc.go:113-125 | a caller that gets a message gets the first line with its own id that arrived after it was filed, whatever else the peer sends |
| `RpcCorrelation.LineReachesOneCaller` | sdk/run.go:111-123 | a line is returned by at most one caller, even if the peer repeats replies |
| `RpcCorrelation.NoPendingOutlivesItsRequest` | sdk/rpc.go:31-49 | every pending entry belongs to a request that has neither returned nor been cancelled |
| `RpcCorrelation.ReadLoopNeverBlocks` | ext/external/host_rpc.go:19-24 | the read loop can always complete the channel send it is about to make |
| `RpcCorrelation.MatchedReplyIsReceivable` | ext/external/host_rpc.go:37-52 | a waiting caller whose reply was read can receive it, now or after the pending send |
| `RpcRuns.ReplyGetsThrough` | ext/external/host_rpc.go:11-52 | whatever happened before, on either side: a new request can be sent and answered, and then its caller returns with that very answer |
| `RpcRuns.FirstReply` | sdk/rpc.go:11-39 | from the start the first request carries the number 1 and gets its answer |
| `RpcRuns.HostCancels` | ext/external/host_rpc.go:37-52 | on the host a cancelled request returns at once and a later reply is dropped |
| `RpcRuns.GraceDelivers` | sdk/rpc.go:31-49 | in the SDK a reply read before the cancellation still reaches its caller |
| `RpcRuns.GraceExpiresEmpty` | sdk/rpc.go:31-49 | without one the caller returns the cancellation after the grace period, and a reply read during it is dropped |
| `RpcRuns.HostFails` | ext/external/host_rpc.go:26-52 | on the host a request that cannot be written fails, and so does one that waits when the host closes |
| `RpcRuns.CounterCounts` | ext/external/host_rpc.go:11-12 | the counter is the number of ids drawn, for requests and streams alike |
| `RpcCorrelation.ReachableInv` | ext/external/host_rpc.go:11-52 | the correlation invariant holds in every reachable state of either side |
| `Shutdown.ClosedExactlyOnce` | ext/external/lifecycle.go:115-178 | in every interleaving exited, readDone and closed are closed at most once, and readDone and closed exactly once by the end |
| `Shutdown.StopWaitsForChildAndReader` | ext/external/lifecycle.go:143-175 | when Stop did the work, the child was reaped and the read loop had signalled before closed; when the read loop did, the child is never reaped |
| `Shutdown.ReaderClosesAlone` | ext/external/host_rpc.go:78-89 | a run in which the read loop closes the host while the child goes on running |
| `Shutdown.StopCompletes` | ext/external/lifecycle.go:115-178 | for any number of Stop callers a run in which one does the work, the child that ignored the request is killed and reaped, and all return |
| `Shutdown.WorkerWaitsFor` | ext/external/lifecycle.go:132-170 | the caller doing the work waits exactly for room in the pipe, the reaping and the read loop, and kills only while it waits for the exit |
| `Shutdown.SomeThreadCanStep` | ext/external/host_rpc.go:78-89 | once the child has exited some thread can step until all have finished |
| `Shutdown.ShutdownIsBounded` | ext/external/lifecycle.go:115-178 | the threads take at most nine steps per Stop caller and seven more |
| `Shutdown.StepKeeps` | ext/external/lifecycle.go:115-178 | every step of every thread keeps the ownership and channel invariant |
| `Registry.RoundTripIff` | ext/unregister.go:7-82 | unregistering right after bridging restores tables, lists, compactor and infos if and only if the names were free, no compactor competed and no info of that name existed |
| `Registry.AddedConcat` | ext/registry.go:18-207 | adding one group of registrations after another adds their concatenation, and sorted lists stay sorted |
| `Registry.RemovedKeepsSorted` | ext/unregister.go:52-66 | filtering by name keeps every list in priority order |
| `Registry.App.RegisterEntry` | ext/registry.go:18-64 | the entry replaces the one of its name and nothing else changes |
| `Registry.App.RegisterListed` | ext/registry.go:67-102 | the list gains the item, is sorted by priority (highest first for interceptors, lowest first for the others), and no other list changes |
| `Registry.App.RegisterCompactor` | ext/registry.go:170-174 | the last compactor registered wins |
| `Registry.App.UnregisterExtension` | ext/unregister.go:7-82 | everything named by the first info of that name is removed, with every info of that name; without one nothing changes |
| `Sdk.Extension.HandleInitialize` | sdk/handlers.go:42-66 | the hook's calls take effect, then every registration is written, then the reply |
| `Sdk.Extension.SendRegistrations` | sdk/registrations.go:4-76 | each map's entries once in some order, and the lists in theirs, are written kind by kind |
| `Sdk.Extension.RegisterOne` | sdk/register.go:9-93 | tools, commands and shortcuts replace their namesakes, lists grow, the compactor is replaced; a provider is announced at once |
| `AuthorCalls.CallsAreHeld` | sdk/register.go:9-93 | after any calls the extension holds, of tools, commands and shortcuts, the latest registered of each name, every list in the order of registration, the latest compactor, and it has announced every provider in order |
| `AuthorCalls.AnswersWithCalls` | sdk/handlers.go:42-66 | in every run, what the extension held when it answered is that for the calls made up to then, the hook's included |
| `AuthorCalls.ReadAmountsToCalls` | ext/external/host_notifications.go:10-61 | however far beyond the reply the host has read, the lines amount to what those calls registered, followed by the providers registered later that were read too |
| `Handshake.AnnouncedIsCollected` | ext/external/host_notifications.go:10-61 | collecting is inverse to announcing: the host ends up with the very lists, compactor and providers the extension held |
| `Handshake.ReplyMeansCollected` | sdk/handlers.go:54-66 | in every run of an extension, however far beyond the reply the host has read, it holds exactly the tools, commands, shortcuts, lists and compactor registered when the extension answered |
| `Handshake.ReadAheadIff` | sdk/register.go:90-93 | how far beyond the reply the host has read makes no difference if and only if no provider is registered after it |
| `Handshake.BridgeableIff` | ext/registry.go:158-162 | of what an SDK extension announces, nothing lacks a name that bridging demands if and only if every prompt section has a title |
| `Bridge.LateRegistrationsIff` | ext/external/host_notifications.go:10-61 | for the lines of any process: what the host has collected is the same wherever beyond the reply it stops reading, if and only if every later registration repeats the compactor |
| `Bridge.OrderDoesNotMatter` | ext/external/bridge.go:119-137 | bridging kind by kind adds the same as registering in order of arrival |
| `Bridge.Host.HandleNotification` | ext/external/host_notifications.go:10-61 | a register notification appends to its kind's list, or replaces the compactor |
| `Bridge.Host.Bridge` | ext/external/bridge.go:119-137 | the app gains exactly what the host collected, and one info entry naming all of it |
| `Bridge.Host.BridgeEntries` | ext/external/bridge.go:139-169 | a table kind's items are registered in order and marked |
| `Bridge.Host.BridgeListed` | ext/external/bridge.go:171-207 | a list kind's items are merged in priority order and marked |
| `Supervisor.RegistryIsBasePlusLive` | ext/external/supervisor.go:102-226 | over any run of any number of extensions, in every phase of each: under its names the registry holds what it announced in the lines its host had read, all of it while it is whole, the first part while it is being bridged, nothing otherwise; its info entry is there exactly while it is whole; the lists are sorted |
| `EndToEnd.LiveExtensionIsShown` | ext/external/supervisor.go:208-225 | while an extension built on the SDK is live and bridged, the app shows under its names exactly what the author's calls up to the answer had registered (of each tool, command, shortcut and provider the latest, all list items, the latest compactor), followed by the providers registered later that the host had read |
| `Supervisor.ForeignUntouched` | ext/external/supervisor.go:102-226 | what no extension owns is never changed |
| `Supervisor.ServedByLiveHost` | ext/external/bridge.go:139-157 | no table entry of a live extension is served by an earlier process |
| `Supervisor.UnwatchedStaysRegisteredIff` | ext/external/supervisor.go:145-171 | of an extension that is neither bridged nor watched nor about to be unregistered the registry (tables, lists, compactor, info) still holds everything if and only if its supervisor gave up or, stopped, returned from watching it, and nothing otherwise |
| `Supervisor.GivingUpIsReachable` | ext/external/supervisor.go:150-157 | whatever its last process announces, six crashes lead to giving up with all of it still shown |
| `Supervisor.StoppingKeepsRegistered` | ext/external/supervisor.go:139-142 | stopped while live, an extension stays registered though its process is gone |
| `Supervisor.FirstStartFails` | ext/external/supervisor.go:47-52 | a first start that fails leaves nothing registered and no process |
| `Supervisor.ReloadRecovers` | ext/external/supervisor.go:106-117 | after a restart that failed nothing is shown, until a reload brings the extension back with whatever its new process announces |
| `Supervisor.StopLeavesNothingIff` | ext/external/supervisor.go:66-80 | at whatever point of whatever run it is stopped: by the time a supervisor has ended no process of its extension runs, if and only if it was stopped when it had ended, or no reload is taken afterwards and it was stopped with its host set or waiting for a reload without one |
| `Supervisor.StopDuringRestart` | ext/external/supervisor.go:204-225 | whatever the new process announces, a run in which a stop falls into the restart after a crash and that process is left running, unwatched and shown |
| `Supervisor.BackoffLaw` | ext/external/supervisor.go:102-185 | at the loop head at most 5 failures are counted and the backoff is 1, 2, 4, 8, 16, 16 seconds after 0 to 5 of them; the wait before the restart that follows 1 to 5 failures is 1, 2, 4, 8, 16 |
| `Supervisor.CrashStormEnds` | ext/external/supervisor.go:145-157 | without a stable uptime or a reload an extension crashes at most six times and is then not restarted |
| `Supervisor.StepKeeps` | ext/external/supervisor.go:102-226 | every step of every supervisor keeps the registry invariant |
| `Supervisor.UnregisterOneIs` | ext/unregister.go:7-82 | the supervisor's unregistering step is the app's own unregistering |
| `Supervisor.RegisterOneAdds` | ext/registry.go:18-207 | the supervisor's registration step adds exactly that registration |
| `ToolExecutor.OneResultPerCall` | core/tool_executor.go:15-80 | in every interleaving one result per call, in call order, each carrying its call's id and being that tool's result or a cancellation error |
| `ToolResults.ResultIsWhatReturned` | core/tool_executor.go:46-80 | in terms of the actions of the run: a call whose worker was heard from with a result is answered by the text its tool returned, as an error or not, under the call's id and name; a call whose worker was not heard from, bailed out or was aborted is answered by the cancellation error |
| `ToolResults.UncancelledResults` | core/tool_executor.go:46-80 | unless the caller's context ends, every call whose tool returned a result is answered by it |
| `ToolResults.ToolsAreCancelledIff` | core/tool_executor.go:52-62 | until the call returns the tools are cancelled if and only if the caller's context has ended or a worker was heard from, while draining, that failed or brought steering messages |
| `ToolExecutor.ConcurrencyBounded` | core/tool_executor.go:30-34 | at most `concurrency` tools run at once |
| `ToolExecutor.SendsNeverBlock` | core/tool_executor.go:136-156 | a worker about to send always finds room, and one about to release its slot holds one |
| `ToolExecutor.SomeThreadCanMove` | core/tool_executor.go:45-72 | until everything has ended some thread can move |
| `ToolExecutor.RunsAreBounded` | core/tool_executor.go:45-80 | a run takes at most five steps per call and two more |
| `ToolSteering.KeptIsFirstHeard` | core/tool_executor.go:46-72 | what is handed on is the first nonempty batch received while draining, and nothing if there is none |
| `ToolSteering.ArrivalsAreQueuedOrDequeued` | core/agent.go:477-486 | every steering message that arrived is still queued or was dequeued by exactly one worker |
| `ToolSteering.NothingLostIff` | core/tool_executor.go:56-67 | in a run, everything dequeued is handed on if and only if no worker but the first one heard brought a batch |
| `ToolSteering.NoRunLosesIff` | core/tool_executor.go:46-72 | no uncancelled run of a batch loses a dequeued message if and only if the batch has at most one call |
| `ToolSteering.SoleBatchIsLost` | core/tool_executor.go:60-67 | with two calls or more, at any concurrency, an uncancelled run in which the only batch is collected and ignored |
| `ToolSteering.SecondSteerBatchIsLost` | core/tool_executor.go:56-59 | a run in which the second of two batches received while draining is dropped |
| `ToolSteering.KeptArrived` | core/tool_executor.go:56-59 | only messages that were steered are handed on |
| `ToolExecutor.ReachableInv` | core/tool_executor.go:136-156 | the invariant over slots, sends and results holds in every reachable state |
| `Conversation.ExtractToolCalls` | core/tool_executor.go:169-177 | the calls are exactly those in the message, each from its own position, in order |
| `Turns.RetryDelayLaw` | core/stream.go:122-139 | the delay starts at 500 ms, doubles up to the cap, is positive and never shrinks, and is min(500 ms times 2^attempt, cap) if and only if the attempt is at most 20 or the cap is within reach of the shift limit; a positive hint is taken instead, up to the cap, and any other ignored |
| `Turns.StreamWithRetry` | core/stream.go:11-42 | the first reply ends the retries; otherwise the last error is returned when the attempts are used up, and the context's error as soon as the context has ended; the waits are those of the delay rule, one after each attempt that is followed by another |
| `Turns.EndsIff` | core/agent.go:371-454 | a step ends the loop exactly on a cancellation, the last failed attempt, a stopped reply, the turn limit, or a turn without calls and with nothing pending; every other turn goes round again with what the tools brought back, else with what is queued |
| `Turns.EndsWithTalk` | core/agent.go:449-452 | a run that ends by itself ends with a reply that makes no calls, with every steering message handed to it placed |
| `Turns.RepliesAreAnswered` | core/agent.go:371-454 | outside tool execution every reply not stopped by error or abort is directly followed by one result per call in call order, whatever interleaving the executor went through, and earlier history is untouched |
| `Turns.ExecutorAnswers` | core/agent.go:409-421 | what any run of the executor returns answers the calls one by one, in order |
| `Turns.NothingDroppedBeforeTheEnd` | core/agent.go:382-387 | while the loop runs, the steering messages it was handed are those it placed in the conversation and those it still holds, in order |
| `Turns.NoRunDropsIff` | core/agent.go:435-447 | every steering message handed to the loop is placed by the end of every run not cancelled between turns, if and only if the number of turns is unlimited |
| `Turns.AttemptsBounded` | core/agent.go:435-440 | in one round of turns a run holds at most MaxTurns turns and at most MaxTurns times MaxRetries attempts to stream |
| `Turns.RunNeedsNoRepair` | core/agent.go:396-421 | a run over a repaired history needs no repair unless a reply stopped by error or abort made calls |
| `Turns.StepPairs` | core/agent.go:371-454 | every step of the turn loop keeps replies paired with their results |
| `Compaction.CapKeepsFirstAndSuffix` | core/compact.go:84-103 | the cap leaves at most max(4, MaxMessages) messages, the first plus a suffix, and changes nothing below that |
| `Compaction.AtMostOneInFlight` | core/compact.go:34-52 | in every interleaving at most one compaction is being started or is running, exactly while the flag is up |
| `Compaction.MergeLaw` | core/compact.go:62-78 | without replacements in between, a merge yields the compacted list followed by the appended messages short of as many as the cap dropped, or nothing if more were dropped |
| `Compaction.MergeKeepsAllIff` | core/compact.go:64-78 | every later-appended message is kept if and only if the cap dropped none meanwhile |
| `Compaction.MergeChangesNothingIff` | core/compact.go:57-78 | in every run without a replacement in between, a merge leaves the history as it is if and only if there is no summary or an empty one, the cap dropped more than was appended, or the summary is what it would replace |
| `Compaction.CapHidesAppended` | core/compact.go:64-71 | whatever the history, as long as a compaction is due and the cap is the one it just meets: a run that loses the two messages appended while it was compacted, as the cap fires before the merge |
| `Compaction.NoMergeLosesIff` | core/agent.go:425-433 | for any history and positive threshold: no merge of any run loses a message appended while its compaction ran, if and only if the number of messages is not capped |
| `Compaction.Agent.EnforceMessageCap` | core/compact.go:84-103 | the history becomes the capped history |
| `Compaction.Agent.Snapshot` | core/compact.go:9-32 | a snapshot of the whole history is taken exactly when the context size reported with the latest reply (0 if there is none) reaches the threshold and there are at least 8 messages |
| `Compaction.MostRecentIsLatest` | core/compact.go:13-19 | the size used is that of the last reply in the history and of no other |
| `Compaction.Agent.Claim` | core/compact.go:34-40 | the flag is up afterwards and the claim succeeds if it was down |
| `Compaction.Agent.MergeCompacted` | core/compact.go:57-78 | the history becomes the merge of the summary and the messages beyond the snapshot's length |
| `Repair.RepairMessageSequence` | shell/repair.go:19-69 | the two passes compute the repaired history |
| `Repair.UnchangedIffNoOrphans` | shell/repair.go:65-68 | the history is returned unchanged if and only if no call lacks a result |
| `Repair.LeavesNoOrphans` | shell/repair.go:41-62 | afterwards every tool call has a result |
| `Repair.RepairIsIdempotent` | shell/repair.go:16-18 | a second repair changes nothing |
| `Repair.KeepsHistory` | shell/repair.go:33-34 | the input is a subsequence of the result |
| `Repair.InsertsRightAfter` | shell/repair.go:49-60 | around each message: at once the placeholders, one for each of its own calls without a result and no other, in call order, each an error under the call's id and name, then the next message |
| `LineDiff.LcsIsUpperBound` | tool/diff_meta.go:72-92 | no common subsequence of two suffixes is longer than the recurrence says |
| `LineDiff.LcsIsAttained` | tool/diff_meta.go:72-92 | and there is one of that length |
| `LineDiff.LcsTable` | tool/diff_meta.go:74-92 | every cell holds the longest-common-subsequence length of its suffix pair |
| `LineDiff.ScriptLowerBound` | tool/diff_meta.go:43-70 | an insert/delete script keeps at most LCS many lines, so it makes at least the remaining changes |
| `LineDiff.WalkTransforms` | tool/diff_meta.go:47-68 | the greedy walk turns one text into the other and keeps LCS many lines |
| `LineDiff.WalkIsMinimal` | tool/diff_meta.go:43-70 | no script makes fewer insertions or fewer deletions than the walk |
| `LineDiff.RunsAreMaximal` | tool/diff_meta.go:56-66 | the hunk count is the number of maximal change runs |
| `LineDiff.RunsBounded` | tool/diff_meta.go:46-66 | there are at most one more hunks than kept lines |
| `LineDiff.DiffLines` | tool/diff_meta.go:43-70 | removed is the old length less the LCS, added the new length less the LCS, hunks the walk's runs and at most LCS plus one |
| `LineDiff.JoinSplit` | tool/diff_meta.go:34-39 | joining the split lines gives the text back |
| `LineDiff.LinesIff` | tool/diff_meta.go:34-39 | the split is the only nonempty list of texts without newlines that joins to the text |
| `LineDiff.SplitAreLines` | tool/diff_meta.go:34-39 | there is one line more than there are newlines, and none holds a newline |
| `LineDiff.SplitLinesInjective` | tool/diff_meta.go:34-39 | different texts have different lines |
| `LineDiff.ComputeDiffMeta` | tool/diff_meta.go:19-30 | the counts are those of the diff between the lines of the two texts (none for the empty text); zero changes if and only if the texts are equal, likewise zero hunks |
| `EditTool.CountIsLargest` | tool/quotes.go:32 | no set of disjoint occurrences is larger than the greedy count |
| `EditTool.CountIsAttained` | tool/quotes.go:32 | and one is as large |
| `EditTool.CountMeaning` | tool/quotes.go:32-49 | the count is positive if and only if the text occurs, above one if and only if it occurs twice without overlap |
| `EditTool.CountOneIsUniqueIff` | tool/quotes.go:32-49 | a count of one means a single occurrence, overlaps included, in every text if and only if no part of the search text is both its beginning and its end |
| `EditTool.IndexIsFirst` | tool/quotes.go:52 | the index is the first occurrence, or none exists |
| `EditTool.FindCounts` | tool/quotes.go:30-49 | in the mode that applies, none, one and several matches are told apart exactly |
| `EditTool.FindLocates` | tool/quotes.go:51-71 | a unique find names a span of the file equal to the search text in the mode, which is its own first occurrence |
| `EditTool.ApplyCurlyQuotes` | tool/quotes.go:77-110 | the output equals the input up to quote style; if the file used curly quotes, a double quote opens exactly at the start or after white space, punctuation or an opening bracket, a single one there too unless it stands between letters, and nothing else changes; if not, it is the input |
| `EditTool.CurlyIff` | tool/quotes.go:112-121 | a text holds curly quotes if and only if normalising changes it |
| `EditTool.Rewrite` | tool/edit.go:54-74 | there is something to write if and only if the match is unique up to overlaps, and it differs from the old text in that one span |
| `EditTool.TextFile.Edit` | tool/edit.go:32-92 | a refused edit changes nothing; an accepted one changes one span, the match counted once, to the new text up to quote style; each error occurs in exactly its case |
| `StreamAssembly.ParseResponse` | provider/openai_parse.go:16-89 | from the lines before the context ended, the finished message has, block by block, the text and the calls' ids, names and arguments, whatever order the builder maps are iterated in, the last usage, and the stop reason of the last finish reason; the deltas are passed on in order, and a cancellation by a failure event |
| `StreamAssembly.RunStream` | provider/base_stream.go:124-185 | a request that cannot be built or sent fails; otherwise the deltas of the events read are passed on in order, then a failure if it was cancelled while lines were still coming, then the finished message with content, usage and stop reason of the events read; so there is one terminal event, or two in that case |
| `StreamAssembly.ParsePasses` | provider/openai_parse.go:42-73 | of each event first the text, if any, then the argument text of each fragment that has some is passed on, in order |
| `StreamAssembly.ParseSound` | provider/openai_parse.go:42-73 | reading loses no text and no fragment |
| `StreamAssembly.OneTextBlock` | provider/base_stream.go:58-84 | all text deltas, in any mix with fragments, end up concatenated in a single block |
| `StreamAssembly.ArgumentsMatchIff` | provider/openai_parse.go:50-66 | each call gets the text of exactly its own fragments if and only if every fragment with arguments carries its call's number |
| `StreamAssembly.InOrderCallsAreWhole` | provider/openai_parse.go:91-136 | with new indices in order each call block has id, name and arguments from exactly its own fragments |
| `StreamAssembly.EveryCallHasItsBlock` | provider/openai_parse.go:106-125 | with new indices in order every call that was opened has such a block |
| `StreamAssembly.SkippedIndexLosesArguments` | provider/openai_parse.go:127-136 | a response whose only call is not numbered 0 is finished with that call without its arguments |
| `StreamAssembly.StreamedIsFinal` | provider/openai_parse.go:45-71 | joining the deltas passed on gives the text and argument text of the finished message |
| `StreamAssembly.Assembly.FindToolCallAt` | provider/openai_parse.go:93-104 | the counting loop finds the position of the n-th call block, or none |
| `StreamAssembly.Assembly.EnsureToolCall` | provider/openai_parse.go:106-125 | nonempty ids and names overwrite, an index without a call opens the next one |
| `StreamAssembly.Assembly.AppendText` | provider/base_stream.go:60-76 | text joins the first text block's builder, or opens one block |
| `StreamAssembly.Assembly.FinalizeTools` | provider/openai_parse.go:83-86 | any iteration order of the argument map gives the same blocks |
| `Affected.AffectedPackages` | extensions/confirm/affected.go:27-106 | the result is strictly sorted and holds exactly the packages from which one can be reached that is the last to list a changed file among its sources or tests; nothing changed means nothing affected and no listing |
| `Affected.Visit` | extensions/confirm/affected.go:80-98 | the queue search visits exactly the affected packages and ends on any graph |
| `Affected.ReverseGraph` | extensions/confirm/affected.go:51-65 | the reverse graph lists the users of each known package over normal and test imports, skipping unknown ones |
| `Affected.IndexFiles` | extensions/confirm/affected.go:37-43 | a path maps to the last package that lists the file |
| `Affected.DirectlyChanged` | extensions/confirm/affected.go:67-78 | the roots are the owners of the changed files after joining and cleaning |
| `Affected.ChangedIs` | extensions/confirm/affected.go:67-78 | the roots are exactly the packages to which a changed file, made absolute and cleaned, belongs |
| `Affected.LexMeans` | extensions/confirm/affected.go:104 | the order is lexicographic: a prefix first, else by the first character that differs |
| `Affected.ClosedHoldsChain` | extensions/confirm/affected.go:88-98 | a set closed under users that holds the changed packages holds every chain down to one |
| `Cron.NextIsLeastTarget` | extensions/cron/schedules.go:67-73 | Next(last) is a target after last, and the least one |
| `Cron.TargetIff` | extensions/cron/schedules.go:45-92 | the targets are exactly the instants at which the clock shows the hour and minute, on the weekday if one is given |
| `Cron.DueIff` | extensions/cron/schedules.go:49-65 | after an earlier run a task is due if and only if Next(last) has come and either the target of now has come or more than a period has passed; for an interval, once it has passed |
| `Cron.NeverEarly` | extensions/cron/schedules.go:95-110 | a repeated run has a target after the last run and not after now |
| `Cron.DueAfterPeriod` | extensions/cron/schedules.go:58-61 | more than a full period after the last run a target has been missed and a task is due |
| `Cron.StaysDueIff` | extensions/cron/schedules.go:49-65 | from its next target on a task stays due until it runs if and only if it is due at the midnight after that target |
| `Cron.FirstRunIff` | extensions/cron/schedules.go:53-56 | a task that never ran is due at once if it is for an interval, else if and only if today has a target that has come |
| `Cron.RunsNeverShareTarget` | extensions/cron/schedules.go:95-118 | in a sequence of runs no two have a target in common |

## Left out

- JSON text: a value is what each decoder makes of it (`SessionModel.Raw`), and a line that is not JSON is dropped before the model starts.
- File locks, fsync, partial writes and scanner line limits (1 MB in the session list, 10 MB in `Open`): a write succeeds whole or not at all.
- The text and origin of a branch summary, `EntryInfos` and the preview text of tree rows: easy members.
- Random ids, clocks and uuids are parameters; uniqueness of an id is a premise where the code relies on it, and `SessionTree.CommitWalksIff` says what happens without it.
- Tool names and arguments inside stream deltas, cancellation notices and the handlers behind each JSON-RPC method: thin I/O.
- Event-bus subscriptions, the SDK's `cancels` map and dropped events of slow consumers.
- Sdk.Extension.HandleInitialize: a request to initialize with unreadable parameters, which the host never sends, and registrations made by other goroutines while they are being sent.
- Supervisor: a registration that arrives while bridging is under way; the host's lists are read once, when bridging starts.
- Process spawning, pipes and signals: a child exits at some point, and a killed child is one that exits.
- Supervisor: the end of the application's context, which ends every process; `Stop` is one step, at the moment it takes the host.
- Supervisor: notifications to the user and the file watcher that triggers reloads; a reload signal is a step that may happen at any time.
- Registry: renderers, status sections and widgets, which unregistering does not touch.
- EditTool.TextFile.Edit: text is a sequence of characters, so byte offsets agree with character positions as they do for valid Unicode; `unicode.IsSpace`, `IsPunct` and `IsLetter` are parameters; the staleness check and the undo directory are inputs (the latter takes only regular files up to 10 MB).
- StreamAssembly.RunStream: cost, timestamps and debug logging.
- Turns: events and the prompt's turn context; the steering queue itself is outside, and whoever fills it is free.
- Compaction: the summariser is any function from the snapshot to a list, an empty list or an error.
- Affected: `go list` output and the path functions are inputs.
- Cron: daylight-saving changes and parsing of schedule texts; times are at a fixed offset.
- The terminal user interface, commands, configuration, themes, provider aliases and HTTP.
