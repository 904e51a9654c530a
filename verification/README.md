# A verified model of the sandbox control plane

These Dafny files model the parts of the control plane and the sandbox runner whose guarantees span
several functions or a whole run, and prove those guarantees:

- **Checkpoints** (`Git`, `Checkpoint`, `CheckpointRuns`, `CheckpointWitnesses`, `CheckpointScripts`,
  `CheckpointOutput`, `CheckpointTransfer`): Git as a content-addressed commit graph with HEAD, refs and
  their lookup, index, work tree, merges and cherry-picks in progress, commit identity and object store;
  the save and restore scripts line by line; the round trip through a fresh clone; retries; every run of
  a sandbox; the printout's parser and the host's hand-over.
- **Terminal stream** (`MessageQueue`, `TerminalProtocol`, `TerminalTheorems`, `TerminalCalls`,
  `TerminalShell`, `TerminalProgress`, `RemoteTerminal`): the client, the pull-based request queue, the runner's four
  producers, its bounded event channel and its sender as one step system. The wire has no correlation
  ids; the `asker` label exists for the proof only and no step reads it.
- **PTC request stream** (`PtcPipe`), **tunnel registry** (`Tunnel`).
- **MCP** (`McpPool`, `McpRecovery`, `McpPoolObject`, `McpChoice`, `McpChoiceSteps`, `McpChoiceObject`,
  `McpNames`): ownership of started fibers, reconnects and retries, reconcile passes, per-session
  choices across overlapping turns, tool names.
- **"@" file search** (`SearchCache`, `SearchEntries`, `FileReferenceCache`, `SubsequenceMatch`, `FileRanking`).
- **Settings resolvers** (`SandboxConfig`, `SandboxDefaults`), with JavaScript records as own entries
  plus inherited names.
- **Output tails** (`OutputTail`, `OutputBuffers`), **preview addresses** (`Preview`), **byte ranges**
  (`ByteRange`, `RangeBody`).
- Shared: `Prelude`, `Text` (string operations), `Decimal`, `Sorting`, `SortedNames`.

Code that changes fields step by step is a class; each of its methods is proved equal to a step
function, and the theorems about runs are proved about those step functions. A concurrent system is a
step system: one step is one stretch of code that nothing can interrupt (a JavaScript turn up to its
next await, one channel operation of a goroutine). Main results quantify over all runs.

## Main results

- `Checkpoint.RoundTripSucceeds`, `Checkpoint.RoundTripRestores`, `Checkpoint.RestoresByPath`,
  `CheckpointRuns.RetriesRestoreExactly`, `CheckpointRuns.EveryRunRoundTrips`, `CheckpointRuns.SignedRunNeverStacks`, `CheckpointScripts.Carry`,
  `CheckpointTransfer.TransferRestoresExactly`
- `TerminalTheorems.EveryRunMatchesReplies`, `TerminalTheorems.EveryEndSettlesAll`,
  `TerminalTheorems.EveryServerTrace`, `TerminalTheorems.EveryCleanEndIsComplete`,
  `TerminalCalls.EveryRunSendsItsCalls`, `TerminalShell.EveryRunReportsTheShell`,
  `TerminalProgress.NeverStuck`, `TerminalProgress.EveryHandlerReturns`
- `MessageQueue.EveryRunInOrder`, `PtcPipe.EveryRunStreams`, `Tunnel.EveryRunKeepsInv`,
  `Tunnel.RegistrationWakesAll`, `Tunnel.LiveExactly`
- `McpPool.EveryFiberOwnedOrDisposed`, `McpPool.ReconcileIsExact`, `McpRecovery.FailureReconnects`,
  `McpChoice.WholeTurn`, `McpChoice.FlagFollowsServers`, `McpNames.SessionDeniesExactly`, `McpNames.TestsCollideExactly`
- `SandboxConfig.ResolversAgreeExactly`, `SandboxConfig.DegradedDefaultPresent`, `SandboxConfig.OthersUnaffected`,
  `SandboxDefaults.DegradedDefaultIsFirst`
- `SubsequenceMatch.GreedyDecides`, `FileRanking.RankIsBest`, `FileRanking.RankIgnoresOrder`,
  `SearchCache.EveryRunIsCoherent`, `SearchEntries.SnapshotIsFetched`, `SearchEntries.FinishedFetchIsHit`
- `OutputTail.EveryLosslessReaderRebuildsTheStream`, `Preview.ParseInvertsPreviewHost`,
  `Preview.RewriteAgainstPrinter`, `ByteRange.AcceptedMeansSelected`, `ByteRange.BodyIsTheAnnouncedBytes`

## What the code does not promise

These properties one might expect turn out false. Each has a lemma at an input that shows it and the
exact condition under which the code does meet it, read off what the caller holds before the call.

| expectation | fails for | holds exactly when |
|---|---|---|
| a saved session comes back, with its uncommitted changes uncommitted | no first commit (`CheckpointWitnesses.UnbornHeadIsLost`); someone else's cherry-pick in progress, or another author configured (`ForeignAuthorStaysCommitted`); a branch in the clone above the session's path (`BranchPathCollides`); a local branch `origin/HEAD` (`LocalBranchHidesTheRemote`); a path `HEAD~1` (`PathHidesTheParent`) or `HEAD` (`PathHidesHead`) | `Restorable` and `Transferable` (`Checkpoint.RoundTripRestores`): HEAD is born and a checkpoint HEAD has a parent; changes, if any, would be committed as dsh; no path `HEAD~1` stands beside a commit to be undone; the clone has the merge base, or there is none and no path `HEAD`; the clone can create the printed branch |
| a restored session is on its own branch | a branch named like a tag (`CheckpointWitnesses.TagHidesTheBranch`) | also: HEAD is detached or no ref looked up before branches has the name (`Checkpoint.RoundTripRestores`) |
| a lost save changes nothing for the next one | a save during that cherry-pick, an edit, a save (`CheckpointWitnesses.PickStacksSaves`) | `Resavable` besides (`CheckpointRuns.RetriesRestoreExactly`): changes would be committed as dsh now and by the configuration, and no path is called `HEAD~1`; commits stack exactly on a commit the script made under another author (`CheckpointRuns.StacksExactly`) |
| a save's printout reaches the next sandbox | an output over 64 MiB (`CheckpointTransfer.TransferIsRoundTrip`) | it is within the bound (`CheckpointTransfer.TransferRestoresExactly`, `CheckpointTransfer.Collect`) |
| the resolved default names a profile | `defaultProfile: toString` (`SandboxConfig.InheritedDefaultPasses`) | no profile works, the setting is absent or names a working one, or nothing inherited answers to it (`SandboxConfig.DegradedDefaultPresent`) |
| strict succeeds with r exactly when degrading returns r without warnings | a deployment record with its own `__proto__` key (`SandboxConfig.ProtoProfileIsLost`, `SandboxConfig.ProtoProfileHidesABadDefault`) | there is no such profile, or a timer, a profile or the default is bad for both (`SandboxConfig.ResolversAgreeExactly`) |
| a resolved profile's ready timeout is positive | one set to a number that is not (`SandboxConfig.ProfileReadyTimeoutIsUnchecked`) | the profile leaves it unset or positive (`SandboxConfig.DegradedProfileTimers`) |
| an open turn keeps what it hides, resource tools included | a server added in the middle of it (`McpChoice.EditFlipsFlagMidTurn`) | the list is empty or leaves an enabled server out now as it did then (`McpChoice.FlagFollowsServers`) |
| a connection test's tools belong to no configured server | testing `_x` beside a server `probe` (`McpNames.ProbeToolsLookLikeAnothers`); testing `x` beside a server `probe_x`, mounted or not (`McpNames.ProbeToolsLookLikeAConfiguredServers`) | the one server the test's name is taken for is not configured: `probe` for a tested name that starts with `_`, the test's name without its last `_` where it was cut there, the test's name itself otherwise (`McpNames.TestsCollideExactly`) |
| a directory listing waits for a tree as new as the last tool result | a query that joins an older fetch (`SearchCache.ListingCanMissAWrite`) | the joined fetch captured the current counter (`SearchCache.WaitSeesEverything`) |
| a drain flagged lossy lost something | a reader that is up to date on a stream that outgrew its buffer (`OutputTail.UpToDateReaderIsToldOfALoss`) | the stream fits or the cursor lies in the dropped prefix (`OutputTail.FlagIsRightExactly`) |
| the browser's port swap prints the host anew | `007` (`Preview.LeadingZerosAreKept`) | the text has no leading zeros (`Preview.RewriteAgainstPrinter`) |

The `__proto__` record concerns callers that hand a resolver its `base` directly with that own key, as
`JSON.parse` or `Object.fromEntries` make one. On the way from the settings document the record passes
the schema library's `dict` (control-plane/src/sandbox/config.ts:289-297), which is not part of this
model, so nothing here says that a document can bring the key to the resolver. On the page's side the
name is ignored like every inherited one (`SandboxConfig.MergedByName`).

## Model

| member | source | states |
|---|---|---|
| Git.AncestorsTransitive | control-plane/src/sandbox/checkpoint.ts:83-88 | reachability in the commit graph is transitive |
| Git.AncestorsAntisymmetric | control-plane/src/sandbox/checkpoint.ts:83-88 | history has no cycles: two commits that reach each other are one commit |
| Git.MergeBaseExists | control-plane/src/sandbox/checkpoint.ts:83 | every pair of histories has a best common ancestor or none in common, so `git merge-base` always has an answer |
| Git.RangePrerequisites | control-plane/src/sandbox/checkpoint.ts:88 | what a `base..HEAD` bundle expects of its receiver lies in the history of base |
| Git.UnbundleRange | control-plane/src/sandbox/checkpoint.ts:127 | unbundling a range over a store with the base keeps the store closed and brings all of HEAD's history |
| Git.LookupIsFirst | control-plane/src/sandbox/checkpoint.ts:83 | a short name means the ref at the first of the places git looks in that exists, and nothing when there is none |
| Git.ShortNameReadsBack | control-plane/src/sandbox/checkpoint.ts:74 | the printed branch name is read back as the branch, and is the shortest of its forms that is |
| Git.ShortNameIsPlain | control-plane/src/sandbox/checkpoint.ts:74 | the printed short name is the branch itself if and only if no ref looked up before refs/heads answers to it |
| Git.OwnRefsDoNotHide | control-plane/src/sandbox/checkpoint.ts:74-80 | the branch's own ref and the ORIG_HEAD of a reset do not change how a branch is printed, unless it is called ORIG_HEAD |
| Git.RangeExpectsBase | control-plane/src/sandbox/checkpoint.ts:88 | a `base..HEAD` bundle over an ancestor holds HEAD and expects exactly that ancestor among its boundary |
| Checkpoint.PrepareRunsExactly | control-plane/src/sandbox/checkpoint.ts:72-82 | in every sound repository the save gets to its printout if and only if a checkpoint HEAD has a parent and no path is called `HEAD~1`, and HEAD is born or there is something to commit |
| Checkpoint.PrepareKeeps | control-plane/src/sandbox/checkpoint.ts:72-82 | whatever happens, the save keeps branch, work tree, every object and every ref but its branch's own and ORIG_HEAD, and no checkpoint commit sits on another |
| Checkpoint.PrepareCommits | control-plane/src/sandbox/checkpoint.ts:75-82 | the printed commit holds the work tree; it is new exactly when that differs from the session's own commit, then sits on that commit and the heads of a merge in progress, under the configuration's author, or a picked commit's when a cherry-pick is in progress without a merge |
| Checkpoint.RangeArrives | control-plane/src/sandbox/checkpoint.ts:84-127 | a range over an ancestor is received if and only if the clone has that ancestor, and then with all of HEAD's history |
| Checkpoint.BundleCompletes | control-plane/src/sandbox/checkpoint.ts:82-89 | for any merge base git may pick, the printed commit arrives with every ancestor if and only if the clone has the base, or there is none and no path is called HEAD; otherwise it does not arrive at all |
| Checkpoint.FollowedBaseArrives | control-plane/src/sandbox/checkpoint.ts:66-71 | the merge base is in every later clone of a remote that only moved forward, as long as nothing here hides what `origin/HEAD` means |
| Checkpoint.RestoreEndsIn | control-plane/src/sandbox/checkpoint.ts:124-139 | in a clean clone that has the commit, the restore runs through if and only if git can create the branch and a checkpoint can be undone, and ends in the named state |
| Checkpoint.RoundTripSucceeds | control-plane/src/sandbox/checkpoint.ts:72-139 | both scripts run to the end if and only if the save gets to its printout, the commit reaches the clone, its branch can be made there and a commit recognized as the script's own has a parent to go back to |
| Checkpoint.RoundTripRestores | control-plane/src/sandbox/checkpoint.ts:72-139 | for every sound repository, merge base and clean clone the session is back if and only if it is restorable and transferable, and on its own branch if and only if also no tag or other ref hides the name |
| Checkpoint.RestoresByPath | control-plane/src/sandbox/checkpoint.ts:130-135 | a session on a readable branch is back on it if and only if it is restorable, the merge base is there, and no ref's path in the clone lies above or below the branch's; whether the clone already has that branch, and where, does not matter |
| Checkpoint.RestoredIsBackExactly | control-plane/src/sandbox/checkpoint.ts:110-139 | where both scripts run through, what came back is the session if and only if it was restorable |
| CheckpointWitnesses.UnbornHeadIsLost | control-plane/src/sandbox/checkpoint.ts:72-139 | a repository without a first commit saves, cannot be restored, and its next save fails |
| CheckpointWitnesses.TagHidesTheBranch | control-plane/src/sandbox/checkpoint.ts:74 | a branch that shares its name with a tag is printed as `heads/...` and restored under that name |
| CheckpointWitnesses.ForeignAuthorStaysCommitted | control-plane/src/sandbox/checkpoint.ts:54-61 | a save during someone else's cherry-pick, or under another configured author, is restored with everything committed |
| CheckpointWitnesses.PickStacksSaves | control-plane/src/sandbox/checkpoint.ts:54-61 | a save retried during that cherry-pick after an edit puts its commit on the first one's |
| CheckpointWitnesses.BranchPathCollides | control-plane/src/sandbox/checkpoint.ts:131 | a clone with a branch `main` cannot restore a session on `main/wip` |
| CheckpointWitnesses.LocalBranchHidesTheRemote | control-plane/src/sandbox/checkpoint.ts:83-89 | a local branch called `origin/HEAD` makes the save leave out commits the remote does not have |
| CheckpointWitnesses.PathHidesTheParent | control-plane/src/sandbox/checkpoint.ts:75-77 | beside a path called `HEAD~1` the save prints, but neither a restore nor the next save runs through |
| CheckpointWitnesses.PathHidesHead | control-plane/src/sandbox/checkpoint.ts:85-86 | beside a path called `HEAD` a save without merge base fails |
| CheckpointWitnesses.MainComesBack | control-plane/src/sandbox/checkpoint.ts:72-139 | a session on `main` comes back on `main` in a clone that is on its own `main` |
| CheckpointWitnesses.MergeComesBack | control-plane/src/sandbox/checkpoint.ts:75-82 | a save amid a merge keeps both parents, is made under the fixed identity even beside someone's cherry-pick, and comes back |
| Checkpoint.MissingCommitMovesNothing | control-plane/src/sandbox/checkpoint.ts:117-129 | a restore whose commit neither bundle nor clone has stops with branch, HEAD, index and work tree untouched |
| Checkpoint.DirtyCloneIsLeftAlone | control-plane/src/sandbox/checkpoint.ts:130-135 | a restore into a clone with local changes or a merge in progress stops with branch, HEAD, index and work tree untouched |
| Checkpoint.RestoreUndoesOnlyItsOwn | control-plane/src/sandbox/checkpoint.ts:136-138 | the restore steps back over the saved commit if and only if this save made it under the fixed identity, never over one of the session's own commits |
| CheckpointRuns.RetriedKeeps | control-plane/src/sandbox/checkpoint.ts:54-61 | any number of lost saves keeps the session, where a later save sees through them, and the printed branch name unless the branch is called ORIG_HEAD |
| CheckpointRuns.RetriesRestoreExactly | control-plane/src/sandbox/checkpoint.ts:54-61 | after at least one lost save a save brings the session back if and only if it is resavable, restorable and transferable |
| CheckpointRuns.LostForGood | control-plane/src/sandbox/checkpoint.ts:54-61 | a session lost by one save stays lost over all further ones |
| CheckpointRuns.RetriesDoNotMatter | control-plane/src/sandbox/checkpoint.ts:54-61 | where both bring the session back, a save retried any number of times restores the same state as a single save, branch and refs included unless the branch is called ORIG_HEAD |
| CheckpointRuns.ActKeepsGood | control-plane/src/sandbox/checkpoint.ts:54-61 | whatever happens to a sandbox repository, its store stays closed, its branch at HEAD, and no checkpoint commit sits on another |
| CheckpointRuns.EveryRunRoundTrips | control-plane/src/sandbox/checkpoint.ts:72-139 | after every run of edits, commits, merges, cherry-picks, identity changes, moves, fetches, ref changes and lost saves no checkpoint is stacked, and a save brings the session back exactly when it is restorable and transferable |
| CheckpointRuns.StacksExactly | control-plane/src/sandbox/checkpoint.ts:54-61 | a save puts its commit on another save's if and only if it commits on one it does not recognize |
| CheckpointRuns.SignedRunNeverStacks | control-plane/src/sandbox/checkpoint.ts:54-61 | over every run whose saves commit under the fixed identity no save's commit ever sits on another's |
| CheckpointScripts.Repository.ResetToParent | control-plane/src/sandbox/checkpoint.ts:76 | `git reset -q HEAD~1` moves HEAD, branch and index to the first parent, ends a merge or a cherry-pick, keeps the work tree, and fails without a parent or beside a path of that name |
| CheckpointScripts.Repository.CommitCheckpoint | control-plane/src/sandbox/checkpoint.ts:80 | the commit records the index over HEAD and any merge parents, under the author a cherry-pick in progress or the configuration decides |
| CheckpointScripts.Repository.MergeBase | control-plane/src/sandbox/checkpoint.ts:83 | the loop returns a best common ancestor of HEAD and whatever git reads as origin/HEAD, or nothing when they share none |
| CheckpointScripts.Repository.PrintBundle | control-plane/src/sandbox/checkpoint.ts:83-89 | the three branches of the bundle are the printout the theorems are about, for the merge base found |
| CheckpointScripts.Repository.SaveScript | control-plane/src/sandbox/checkpoint.ts:72-90 | the script as it runs line by line is the save the theorems are about, also where it fails half way |
| CheckpointScripts.Repository.RestoreScript | control-plane/src/sandbox/checkpoint.ts:124-139 | the same for the restore script |
| CheckpointScripts.Carry | control-plane/src/sandbox/checkpoint.ts:72-139 | running one script after the other brings the session back in the clone if and only if it was restorable and transferable, on its own branch if and only if the name was readable too |
| CheckpointOutput.ParsedIsPrintout | control-plane/src/sandbox/checkpoint.ts:164-189 | whatever the parser accepts is the printout of what it returns, with a 40-digit commit and an empty or headed bundle |
| CheckpointOutput.ParseInvertsPrintout | control-plane/src/sandbox/checkpoint.ts:162-189 | the parser returns the three parts if and only if the output is their well-formed printout |
| CheckpointOutput.CommitIdExactly | control-plane/src/sandbox/checkpoint.ts:176 | an accepted commit id is 40 lower-case hexadecimal digits, and no other text is |
| CheckpointOutput.BundleAcceptedExactly | control-plane/src/sandbox/checkpoint.ts:162-179 | accepted bundle bytes are none, or start with git's header of one to seventeen version digits, and no others are |
| CheckpointTransfer.ParsedIsSaved | control-plane/src/sandbox/checkpoint.ts:164-189 | the parsed output gives back branch, commit id and bundle as printed |
| CheckpointTransfer.TransferredIsSaved | control-plane/src/sandbox/checkpoint.ts:251-275 | the restore script, fed environment and stdin built from the parsed output, does what a restore of the saved record does |
| CheckpointTransfer.UnreadableBundleStops | control-plane/src/sandbox/checkpoint.ts:126-128 | bundle bytes git cannot read stop the restore before the clone changes |
| CheckpointTransfer.Collect | control-plane/src/sandbox/checkpoint.ts:428-472 | the loop over stdout returns the whole output if and only if it is within the bound, however it is cut up |
| CheckpointTransfer.TransferIsRoundTrip | control-plane/src/sandbox/checkpoint.ts:269-341 | the whole way through the host is the round trip if the printout is within 64 MiB, and else stops before the clone, for one-line branch names and any encoding that reads back these ids and bundles |
| CheckpointTransfer.TransferRestoresExactly | control-plane/src/sandbox/checkpoint.ts:37-341 | the session comes back through the host if and only if its printout is within 64 MiB and it is restorable and transferable |
| MessageQueue.StepKeepsInv | control-plane/src/core/message-queue.ts:23-77 | every operation keeps: accepted messages are the delivered ones followed by the buffered ones, and a waiting consumer never sits beside a message |
| MessageQueue.StepGrows | control-plane/src/core/message-queue.ts:23-77 | a step accepts at most its own pushed message, only on an open queue, and deliveries only grow |
| MessageQueue.EveryRunInOrder | control-plane/src/core/message-queue.ts:23-77 | over all interleavings deliveries are a prefix of the accepted messages and all of them once a pull reported done |
| MessageQueue.AbortStops | control-plane/src/core/message-queue.ts:63-72 | after an abort nothing more is accepted or delivered and every later pull fails |
| MessageQueue.PullIsExact | control-plane/src/core/message-queue.ts:48-62 | in every run a pull fails after an abort, else gets the oldest undelivered message, else reports done on an ended queue, else waits |
| MessageQueue.WaitingPullSettles | control-plane/src/core/message-queue.ts:23-72 | in every run a waiting pull settles with the first push, end or abort, and without one those settle nothing |
| MessageQueue.EndIsFinal | control-plane/src/core/message-queue.ts:36-77 | in every run nothing is accepted after an end, a return or an abort, and an abort fails the queue for good |
| MessageQueue.OpenUntilEnded | control-plane/src/core/message-queue.ts:23-77 | over every run an open queue stays open until the first end, return or abort |
| MessageQueue.MessageQueue.Push | control-plane/src/core/message-queue.ts:23-34 | push hands a waiting pull the message, else buffers it; it refuses on an ended or failed queue |
| MessageQueue.MessageQueue.End | control-plane/src/core/message-queue.ts:36-44 | the first end finishes a waiting pull; later ends do nothing |
| MessageQueue.MessageQueue.Next | control-plane/src/core/message-queue.ts:48-62 | next fails, delivers the oldest message, reports done or waits, in that order of precedence |
| MessageQueue.MessageQueue.Throw | control-plane/src/core/message-queue.ts:63-72 | an abort ends the queue, records the failure and rejects a waiting pull |
| PtcPipe.PushAllAccepts | control-plane/src/ptc/pipe.ts:136-138 | the early writes are accepted in order behind the start message |
| PtcPipe.StepKeepsInv | control-plane/src/ptc/pipe.ts:90-143 | every step keeps: before begin nothing was sent and all writes are held, after it the stream is start followed by all writes |
| PtcPipe.EveryRunStreams | control-plane/src/ptc/pipe.ts:90-143 | for every interleaving the runner pulls a prefix of start plus all accepted writes in order, and all of it before done |
| PtcPipe.EndedFirstYieldsNothing | control-plane/src/ptc/pipe.ts:128-143 | a channel ended before begin never starts and yields no message |
| PtcPipe.EveryRunCarriesItsCalls | control-plane/src/ptc/pipe.ts:90-143 | in every run the accepted writes are the caller's own chunks in order, all of them until the begun stream ends, behind the one command it was begun with |
| PtcPipe.PullGetsTheNext | control-plane/src/ptc/pipe.ts:128-143 | in every run a pull gets the next message of the stream, or its end, or waits |
| PtcPipe.EndIsFinal | control-plane/src/ptc/pipe.ts:110-126 | in every run nothing goes to the runner after the request half ended |
| PtcPipe.OpenUntilEnded | control-plane/src/ptc/pipe.ts:90-143 | over every run the channel takes writes until its first end |
| PtcPipe.PtcChannel.Write | control-plane/src/ptc/pipe.ts:90-108 | a write is held before begin, queued after it, and refused once the stream is closed |
| PtcPipe.PtcChannel.Final | control-plane/src/ptc/pipe.ts:110-126 | ending or destroying the caller's endpoint ends the request half only |
| PtcPipe.PtcChannel.Begin | control-plane/src/ptc/pipe.ts:132-143 | begin queues start and then every held write, or reports a closed channel |
| TerminalTheorems.EmittedFits | runner/terminal/terminal.go:141-180 | each producer's next event keeps the shape of the trace: started first, one exited, closed last but for answers |
| TerminalTheorems.ServerKeepsServer | runner/terminal/terminal.go:124-206 | every goroutine step keeps trace shape, output accounting, forwarding order and the handler's waits |
| TerminalTheorems.ServerKeepsServing | runner/terminal/terminal.go:230-258 | every server step keeps: answers sent are those of the received query and signal controls, in order |
| TerminalTheorems.HeadAnswer | control-plane/src/terminal/remote-terminal.ts:357-361 | with answers in control order and one reply pending, the next unread answer belongs to that reply |
| TerminalTheorems.AnswerMeetsAsker | control-plane/src/terminal/remote-terminal.ts:357-361 | an answer that arrives finds exactly one pending reply, the one that asked for it |
| TerminalTheorems.ConsumeKeepsReplying | control-plane/src/terminal/remote-terminal.ts:327-365 | handling any response keeps replies and answers matched |
| TerminalTheorems.RunNextKeepsReplying | control-plane/src/terminal/remote-terminal.ts:287-320 | sending the next control of the chain leaves at most one reply outstanding |
| TerminalTheorems.OutputCompleteAtClosed | runner/terminal/terminal.go:174-180 | no output follows the closed event, so when the client handles it all the PTY's bytes came before |
| TerminalTheorems.CleanEndIsComplete | control-plane/src/terminal/remote-terminal.ts:366-371 | when the handler returned cleanly and all responses are read, exit and closed were read and no reply is pending |
| TerminalTheorems.ClientConserves | control-plane/src/terminal/remote-terminal.ts:287-320 | every client step conserves promises: each one made is in the chain, pending or settled, and in one place only |
| TerminalTheorems.DrainSettles | control-plane/src/terminal/remote-terminal.ts:308-320 | running out the rest of the chain on a closed terminal settles every promise exactly once |
| TerminalTheorems.StepKeepsInv | control-plane/src/terminal/remote-terminal.ts:107-404 | every client and server step keeps the whole invariant |
| TerminalTheorems.EveryRunMatchesReplies | control-plane/src/terminal/remote-terminal.ts:287-396 | in every interleaving: at most one reply outstanding, each answer resolves the control that asked, no promise settles twice, written output is a prefix of the PTY's bytes and all of them once ended, with no late write |
| TerminalTheorems.EveryEndSettlesAll | control-plane/src/terminal/remote-terminal.ts:366-402 | once the response stream ended, cleanly or by error, no reply is pending, nothing can be sent, and every query and signal promise settles exactly once |
| TerminalTheorems.EveryServerTrace | runner/terminal/terminal.go:141-206 | every trace has at most one exited and one closed event, closed after exited and all output with only answers behind it, nothing sent on the closed channel, and one of each once the handler finished |
| TerminalTheorems.EveryCleanEndIsComplete | runner/terminal/terminal.go:190-206 | a clean end means the exit status is known, all answers arrived and all output was written |
| TerminalTheorems.FlagsFollowEvents | control-plane/src/terminal/remote-terminal.ts:327-404 | in every run the start settles with the first response or the end, quiescence and the finish follow the closed event, and the status is the exit event's, or lost at an end without one |
| TerminalTheorems.ReturnsCleanlyExactly | runner/terminal/terminal.go:187-206 | in every run the handler returns cleanly if and only if every response went out, the client ended its half and the context held |
| TerminalTheorems.EveryEndIsOver | control-plane/src/terminal/remote-terminal.ts:366-404 | in every run the end of the response stream ends the consume loop, settles start and exit, and leaves no reply pending |
| TerminalCalls.EveryRunSendsItsCalls | control-plane/src/terminal/remote-terminal.ts:184-320 | in every run what is sent behind the start is a prefix of what the calls said, in call order with each call's own data; on an open terminal that prefix and the chain are all of it; the handler receives a prefix of what was sent |
| TerminalCalls.EveryRunTypesItsInput | control-plane/src/terminal/remote-terminal.ts:184-189 | in every run the input received is a prefix of the bytes the calls wrote, and all of them once nothing is chained or on its way |
| TerminalCalls.NothingIsSentAfterwards | control-plane/src/terminal/remote-terminal.ts:273-404 | in every run nothing is sent on a terminal once it was terminated, aborted, ended or lost |
| TerminalCalls.OpenUntilClosed | control-plane/src/terminal/remote-terminal.ts:273-404 | in every run the terminal can send if and only if it was not terminated, aborted, ended or lost and the closed event was not handled |
| TerminalCalls.QuiescentAnswersItself | control-plane/src/terminal/remote-terminal.ts:205-241 | in every run a query after the closed event is answered by the terminal itself and never chained, and any other call that asks is chained |
| TerminalShell.EveryRunReportsTheShell | runner/terminal/terminal.go:146-180 | in every run the client writes a prefix of the bytes read from the PTY, all of them once the output ended, which needs the end of the PTY; the status reported is the one reaped |
| TerminalShell.EveryOutputHasBytes | runner/terminal/terminal.go:146-162 | in every run a read that gives no bytes puts no event on the channel |
| TerminalShell.ReceivedIsHandled | runner/terminal/terminal.go:230-258 | in every run the next request sent is taken: a query or signal gets its own answer next, a failed input or size ends the loop with an error |
| TerminalShell.OldestGoesOut | runner/terminal/terminal.go:126-139 | in every run the sender takes the oldest event, which goes out unless the stream fails or has failed, for good |
| TerminalShell.EventsAreBounded | runner/terminal/terminal.go:262-294 | in every run at most 64 events wait for the sender |
| TerminalProgress.NeverStuck | runner/terminal/terminal.go:124-206 | in every reachable state of a running handler, dead response stream or not, one of its goroutines can go on by itself, except exactly where all is handed on and it waits for its client, or after the client's end for the child or the PTY; once the terminal is over too, only the client's end is ever missing |
| TerminalProgress.StepUsesWork | runner/terminal/terminal.go:182-206 | every step uses up work; only a read of the PTY adds some |
| TerminalProgress.EveryHandlerReturns | runner/terminal/terminal.go:187-206 | once the request half has ended the number of steps is bounded but for PTY reads, and no step is left exactly when the handler has returned |
| RemoteTerminal.RemoteTerminal.Call | control-plane/src/terminal/remote-terminal.ts:184-268 | a public call joins the chain, or is answered locally by a quiescent terminal |
| RemoteTerminal.RemoteTerminal.RunNext | control-plane/src/terminal/remote-terminal.ts:287-320 | the chain's next operation sends its control and registers its reply, or rejects on a closed terminal or stream |
| RemoteTerminal.RemoteTerminal.Terminate | control-plane/src/terminal/remote-terminal.ts:270-278 | terminate closes the terminal and ends the request half once |
| RemoteTerminal.RemoteTerminal.ResolveOldest | control-plane/src/terminal/remote-terminal.ts:357-361 | an answer resolves the oldest pending reply |
| RemoteTerminal.RemoteTerminal.OnResponse | control-plane/src/terminal/remote-terminal.ts:330-364 | one response changes replies, flags, output and request queue as the step function says |
| RemoteTerminal.RemoteTerminal.OnStreamEnd | control-plane/src/terminal/remote-terminal.ts:366-377 | a clean end with an exit status finishes; any other end fails the terminal |
| RemoteTerminal.RemoteTerminal.RejectReplies | control-plane/src/terminal/remote-terminal.ts:390-392 | every pending reply is rejected, oldest first |
| RemoteTerminal.RemoteTerminal.Fail | control-plane/src/terminal/remote-terminal.ts:380-397 | a lost terminal is closed and finished, its start and completion settled and its request half ended |
| RemoteTerminal.TerminalEvents.Send | runner/terminal/terminal.go:277-284 | send appends to an open queue with room and drops on a closed one |
| Tunnel.EnqueueKeeps | control-plane/src/core/tunnel.ts:128-150 | a new waiter is filed under its id and nowhere else |
| Tunnel.TimeoutKeeps | control-plane/src/core/tunnel.ts:133-146 | a timeout settles its waiter once and leaves no empty set in the map |
| Tunnel.WakeKeepsMapped | control-plane/src/core/tunnel.ts:244-251 | waking an id takes its set out of the map and leaves all other waiters filed |
| Tunnel.WakeSettles | control-plane/src/core/tunnel.ts:244-251 | waking an id resolves exactly the pending waiters of that id with the new stream |
| Tunnel.StepKeepsInv | control-plane/src/core/tunnel.ts:123-252 | every event keeps the four properties below |
| Tunnel.EveryRunKeepsInv | control-plane/src/core/tunnel.ts:123-252 | over all runs before shutdown: every live stream is the one mapped under its id, no waiter is pending beside a live registration of its id, each waiter settles at most once, no empty waiter set stays mapped |
| Tunnel.CloseRemovesOnlyItself | control-plane/src/core/tunnel.ts:221-226 | a close event unmaps its own stream and nothing else |
| Tunnel.StaleCloseIsHarmless | control-plane/src/core/tunnel.ts:221-226 | in every run a close event never removes a newer registration and never changes which ids are live |
| Tunnel.RegistrationWakesAll | control-plane/src/core/tunnel.ts:213-252 | in every run a registration resolves exactly the waiters pending for its id with its own live stream |
| Tunnel.LiveExactly | control-plane/src/core/tunnel.ts:123-252 | in every run an id is live after an event if and only if the event registered it, or it was live and neither dropped nor destroyed; a new registration has a stream of its own |
| Tunnel.DropForgets | control-plane/src/core/tunnel.ts:153-160 | in every run a drop unmaps its id, destroys the stream it had, leaves every other id and all waiters alone, and the next upgrade of that id is admitted |
| Tunnel.WaitIsAnsweredOrFiled | control-plane/src/core/tunnel.ts:123-151 | in every run a call for a live id gets that id's stream at once, any other waits under its id, and no other waiter notices |
| Tunnel.SettledStays | control-plane/src/core/tunnel.ts:133-146 | in every run a settled call keeps its outcome through every further event |
| Tunnel.TimeoutSettlesItsOwn | control-plane/src/core/tunnel.ts:133-146 | in every run a timer that fires times out its own waiter and touches no other |
| Tunnel.TunnelServer.WaitFor | control-plane/src/core/tunnel.ts:123-151 | a live registration answers at once; otherwise a waiter joins its id's set |
| Tunnel.TunnelServer.OnTimeout | control-plane/src/core/tunnel.ts:133-146 | the timer removes its waiter from the set it captured, drops an emptied set and rejects |
| Tunnel.TunnelServer.Drop | control-plane/src/core/tunnel.ts:153-160 | drop unmaps and destroys the registration of an id |
| Tunnel.TunnelServer.OnUpgrade | control-plane/src/core/tunnel.ts:197-252 | an admitted upgrade is a duplicate check and a registration in one step |
| Tunnel.TunnelServer.WakeWaiters | control-plane/src/core/tunnel.ts:244-251 | the wake loop settles the id's set with the new stream |
| Tunnel.TunnelServer.OnClose | control-plane/src/core/tunnel.ts:221-226 | a close event unmaps the id only when it still maps to that stream |
| McpPool.UnmountKeeps | control-plane/src/mcp/mcp-pool.ts:348-358 | unmounting retires the mount and disposes exactly its fibers |
| McpPool.UnmountAllKeeps | control-plane/src/mcp/mcp-pool.ts:266-278 | disposing the pool does so for every mount |
| McpPool.FirstSettlesKeeps | control-plane/src/mcp/mcp-pool.ts:308-346 | a settled handshake keeps the books; its reconnect mount starts only for a current mount |
| McpPool.StepKeepsInv | control-plane/src/mcp/mcp-pool.ts:80-358 | every step of every operation keeps ownership |
| McpPool.EveryFiberOwnedOrDisposed | control-plane/src/mcp/mcp-pool.ts:280-358 | under every interleaving a started fiber has had dispose called exactly when its mount is not its server's current one, and a mount never holds more than two fibers |
| McpPool.NothingStartsForRetired | control-plane/src/mcp/mcp-pool.ts:332-346 | under every interleaving no step starts a fiber for a retired mount |
| McpPool.PassStepKeeps | control-plane/src/mcp/mcp-pool.ts:94-119 | each step of a pass keeps what the pass already settled |
| McpPool.ReconcileIsExact | control-plane/src/mcp/mcp-pool.ts:94-131 | with store and clock stable a pass ends with exactly the mountable servers mounted, with matching URL and token, whatever handshakes settle meanwhile |
| McpRecovery.FailureReconnects | control-plane/src/mcp/mcp-pool.ts:306-346 | in every run a failed first handshake marks its mount failed and starts exactly one more fiber if the mount is still current and mounting does not throw; a success marks it connected and starts none; no other mount changes |
| McpRecovery.WantedIsMounted | control-plane/src/mcp/mcp-pool.ts:112-117 | in every run a reconcile step mounts exactly an enabled server, signed in if it needs to be, that has no mount |
| McpRecovery.RetryUnmounts | control-plane/src/mcp/mcp-pool.ts:192-194 | in every run a retry first takes its own server's mount away and disposes its fibers |
| McpRecovery.RetryMountsAgain | control-plane/src/mcp/mcp-pool.ts:195-200 | in every run a retry mounts its server anew for the stored entry and token if and only if it may be mounted |
| McpRecovery.MountedExactly | control-plane/src/mcp/mcp-pool.ts:94-131 | after a pass a server is mounted if and only if it is stored, enabled and signed in if it uses OAuth, at the stored URL with the token it would send now |
| McpRecovery.PassBegins | control-plane/src/mcp/mcp-pool.ts:94-99 | a pass begins with every mount and every stored server to visit |
| McpRecovery.PassEnds | control-plane/src/mcp/mcp-pool.ts:99-118 | every step of a pass leaves less of it, some step can be taken until nothing is left, and then it ends |
| McpRecovery.ReconcileLeavesFitting | control-plane/src/mcp/mcp-pool.ts:99-117 | a pass leaves every server alone whose mount already is what the store asks for: same mount, no fiber disposed |
| McpRecovery.DisposalEndsAll | control-plane/src/mcp/mcp-pool.ts:266-278 | in every run disposal leaves nothing mounted and has disposed every fiber ever started |
| McpPoolObject.McpPool.Unmount | control-plane/src/mcp/mcp-pool.ts:348-358 | the map entry goes, the mount is retired and its fibers are disposed before the await |
| McpPoolObject.McpPool.StartMount | control-plane/src/mcp/mcp-pool.ts:321-324 | one more fiber in the mount's set |
| McpPoolObject.McpPool.MountEntry | control-plane/src/mcp/mcp-pool.ts:280-318 | the entry is mapped with its token and first fiber, or kept with its error |
| McpPoolObject.McpPool.OnFirstSettled | control-plane/src/mcp/mcp-pool.ts:308-346 | the settlement callback records the status and starts one reconnect mount for a current mount |
| McpPoolObject.McpPool.Await | control-plane/src/mcp/mcp-pool.ts:348-358 | handshakes delivered during an await keep the map, every mounted entry and ownership |
| McpPoolObject.McpPool.Reconcile | control-plane/src/mcp/mcp-pool.ts:94-119 | the two loops end in the exact configuration, with awaits and throwing mounts in any place |
| SandboxConfig.MergedByName | control-plane/src/sandbox/config.ts:300-332 | a deployment profile always wins; a page profile is an addition unless every object already answers its name |
| SandboxConfig.MergePage | control-plane/src/sandbox/config.ts:316-321 | the merge loop computes the merged record |
| SandboxConfig.ResolveProfile | control-plane/src/sandbox/config.ts:568-662 | a profile resolves if and only if its idle delay is unset or positive and its tunnel address is a WebSocket URL; it keeps its name, backend and every setting, and an unset one becomes its documented default, a ready timeout the shared one first |
| SandboxConfig.AssignProfiles | control-plane/src/sandbox/config.ts:452-466 | the profile loop computes the record and the warnings of the step function |
| SandboxConfig.ResolveDegradingRuntime | control-plane/src/sandbox/config.ts:434-495 | the whole loop program computes the degraded runtime and its warnings |
| SandboxConfig.BootTimer | control-plane/src/sandbox/config.ts:548-562 | a timer is positive with a positive fallback, and warns exactly when a set value is not positive |
| SandboxConfig.AssignedByName | control-plane/src/sandbox/config.ts:452-466 | what the degrading record owns under one name is that name's own profile resolved alone |
| SandboxConfig.OthersUnaffected | control-plane/src/sandbox/config.ts:452-466 | changing or breaking any other profile does not change how one is resolved |
| SandboxConfig.ProfileLoopsAgree | control-plane/src/sandbox/config.ts:351-356 | the strict loop succeeds exactly when the degrading one does not warn, with the same record; otherwise its error is the first warning's |
| SandboxConfig.StrictAgainstDegrading | control-plane/src/sandbox/config.ts:339-384 | for all settings a strict success has no degrading warning and a strict error is the first warning's problem, except that a `__proto__` profile can hide a bad default |
| SandboxConfig.SucceedsExactly | control-plane/src/sandbox/config.ts:344-384 | strict succeeds if and only if the timers are sound, every profile resolves and the default is absent, a profile's name or one every object answers |
| SandboxConfig.WarnsExactly | control-plane/src/sandbox/config.ts:441-494 | degrading has no warning if and only if the timers are sound, every profile resolves and the default is answered, all read off the settings |
| SandboxConfig.ResolversAgreeExactly | control-plane/src/sandbox/config.ts:386-495 | for all settings: strict succeeds with r exactly when degrading returns r without warnings, if and only if there is no `__proto__` profile or the timers, a profile or the default are bad |
| SandboxConfig.ProtoProfileIsLost | control-plane/src/sandbox/config.ts:452-460 | a `__proto__` profile that strict accepts and degrading drops without a warning |
| SandboxConfig.ProtoProfileHidesABadDefault | control-plane/src/sandbox/config.ts:472-479 | with only that profile, a default strict throws for passes without a warning |
| SandboxConfig.ProtoProfileDisagrees | control-plane/src/sandbox/config.ts:452-460 | where strict succeeds, the two results are equal if and only if there is no such profile |
| SandboxConfig.DegradedDefaultPresent | control-plane/src/sandbox/config.ts:468-479 | the degrading default is an own profile, or there are none, if and only if no profile works, the setting is absent or names a working profile, or nothing inherited answers to it, all read off the settings |
| SandboxConfig.InheritedDefaultPasses | control-plane/src/sandbox/config.ts:472-479 | `toString` as the default passes without a warning and names no profile |
| SandboxConfig.DegradedTimersPositive | control-plane/src/sandbox/config.ts:442-451 | the three shared timers of the degrading result are positive |
| SandboxConfig.PageScalarsWin | control-plane/src/sandbox/config.ts:322-331 | a set page timer decides alone, else the deployment's, a bad or missing one is the fallback, and a default naming a working profile is kept |
| SandboxDefaults.MergedInOrder | control-plane/src/sandbox/config.ts:316-321 | the merged profiles are the deployment's in their order, then the page's additions in theirs |
| SandboxDefaults.DegradedDefaultIsFirst | control-plane/src/sandbox/config.ts:467-478 | the degrading default is the set one if it names a working profile or something inherited answers to it, else the first merged profile that works, and none without one |
| SandboxDefaults.StrictKeepsOrder | control-plane/src/sandbox/config.ts:350-355 | the strict resolver returns every merged profile, resolved on its own, in order |
| SandboxDefaults.StrictDefaultIsFirst | control-plane/src/sandbox/config.ts:356-367 | the strict default is the set one, else the first merged profile, and none without profiles |
| SandboxDefaults.StrictScalars | control-plane/src/sandbox/config.ts:368-384 | the strict timers are the page's, else the deployment's, else the fallbacks |
| SandboxConfig.DegradedProfileTimers | control-plane/src/sandbox/config.ts:599-617 | a resolved profile's idle delay is positive; its ready timeout is positive if and only if the profile left it unset or positive |
| SandboxConfig.ProfileReadyTimeoutIsUnchecked | control-plane/src/sandbox/config.ts:613-617 | a profile whose ready timeout is not a number resolves without a warning and keeps it |
| SubsequenceMatch.SkippedTelescopes | control-plane/src/workspaces/file-reference.ts:443-455 | the summed gaps of an embedding are the characters before its last place that it did not use |
| SubsequenceMatch.SubsequenceScore | control-plane/src/workspaces/file-reference.ts:443-455 | the loop answers undefined exactly off the subsequences, else the best score any embedding has |
| SubsequenceMatch.GreedyEmbeds | control-plane/src/workspaces/file-reference.ts:446-453 | the greedy places are an embedding with the greedy gap |
| SubsequenceMatch.GreedyIsMinimal | control-plane/src/workspaces/file-reference.ts:446-453 | no embedding skips fewer characters than the greedy one, which exists whenever any does |
| SubsequenceMatch.GreedyDecides | control-plane/src/workspaces/file-reference.ts:443-455 | the score function decides subsequences and is optimal |
| SubsequenceMatch.OccurrenceIsSubsequence | control-plane/src/workspaces/file-reference.ts:434-436 | a text contained in the path is a subsequence of it |
| FileRanking.OfferedExactlySubsequences | control-plane/src/workspaces/file-reference.ts:414-441 | a candidate is scored if and only if the query is a subsequence of its path, case aside |
| FileRanking.BandsNeverOverlap | control-plane/src/workspaces/file-reference.ts:424-440 | exact, prefix, name, path and subsequence matches never change places whatever the directory bonus; within a literal band a directory wins |
| FileRanking.NameIsLastPart | control-plane/src/workspaces/file-reference.ts:390-420 | the name scored is what follows the path's last slash |
| FileRanking.CloserMatchesWin | control-plane/src/workspaces/file-reference.ts:390-441 | of two candidates of one kind that match only as subsequences, the one that skips less scores higher, below a gap of 100 |
| Text.TextOrderIsFirstDifference | control-plane/src/workspaces/file-reference.ts:461-463 | the text comparison is negative exactly when, at the first difference, the left unit is smaller or the left text ends |
| FileRanking.ComparePutsTheBetterFirst | control-plane/src/workspaces/file-reference.ts:402-410 | the comparator is negative exactly for a higher score, then a directory, then (with a query) a shorter path, then an earlier path |
| FileRanking.CompareOrders | control-plane/src/workspaces/file-reference.ts:402-410 | the comparator is antisymmetric and transitive, and zero only for the same candidate |
| FileRanking.CompareIsTotalOrder | control-plane/src/workspaces/file-reference.ts:402-410 | so it is a total order |
| Sorting.SortIsUnique | control-plane/src/workspaces/file-reference.ts:402 | any two ordered lists of the same elements are equal, so the engine's sort algorithm does not matter |
| FileRanking.Rank | control-plane/src/workspaces/file-reference.ts:390-412 | the scoring loop, sort and cut compute the ranking |
| FileRanking.RankIgnoresOrder | control-plane/src/workspaces/file-reference.ts:390-412 | every permutation of the candidates ranks the same |
| FileRanking.FullRankingIsTheMatches | control-plane/src/workspaces/file-reference.ts:395-401 | the uncut ranking holds every match as often as given and nothing else |
| FileRanking.RankIsBest | control-plane/src/workspaces/file-reference.ts:402-411 | the result is the first `limit` of all matches in order: it is full or complete, and leaves out nothing better than what it holds |
| FileRanking.RankOrdersBands | control-plane/src/workspaces/file-reference.ts:390-441 | in every result a better kind of match comes before a worse one |
| SearchCache.CurrentMeansNothingSince | control-plane/src/workspaces/file-reference.ts:243-249 | a snapshot whose start counter is current comes from a fetch that began after the last tool result |
| SearchCache.StepKeepsInv | control-plane/src/workspaces/file-reference.ts:160-191 | every event keeps the cache invariant |
| SearchCache.EveryRunIsCoherent | control-plane/src/workspaces/file-reference.ts:228-292 | in every run a snapshot served as not stale has seen no tool result since its fetch began, and a live agent has at most one fetch in flight |
| SearchCache.StartNeverGoesBack | control-plane/src/workspaces/file-reference.ts:263-283 | the cached start counter of a live agent never decreases |
| SearchCache.CurrentStays | control-plane/src/workspaces/file-reference.ts:243-249 | a current snapshot stays current through any run without that agent's tool results or a disposal |
| SearchEntries.FinishedFetchIsHit | control-plane/src/workspaces/file-reference.ts:264-284 | a finished fetch of an existing sandbox with no tool result since it began makes every later query a hit on exactly the tree it returned, without a fetch, until the next tool result |
| SearchEntries.SnapshotIsFetched | control-plane/src/workspaces/file-reference.ts:264-284 | in every run an agent's snapshot holds the entries its own fetch returned, and is the last tree any fetch of the agent returned |
| SearchEntries.WaitersGetWhatIsCached | control-plane/src/workspaces/file-reference.ts:264-284 | the queries that wait for a fetch get the tree it leaves in the cache, or an empty one when it leaves none |
| SearchEntries.FailedFetchIsRetried | control-plane/src/workspaces/file-reference.ts:264-290 | a failed fetch keeps every snapshot and lets the next stale query start another |
| SearchEntries.AgentIsForgotten | control-plane/src/workspaces/file-reference.ts:160-191 | a disposed agent is in none of the maps, and no other agent's entries change |
| SearchEntries.ServiceStaysGone | control-plane/src/workspaces/file-reference.ts:160-191 | after the service is disposed every query gets nothing and starts nothing, whatever still settles |
| SearchCache.SawEverything | control-plane/src/workspaces/file-reference.ts:263 | a fetch has seen every tool result so far if and only if it captured the current count |
| SearchCache.StaleAnswersRefresh | control-plane/src/workspaces/file-reference.ts:232-255 | a fresh-preferring query never gets a stale snapshot, any other with a snapshot never waits, and a stale one always leaves a fetch in flight |
| SearchCache.WaitSeesEverything | control-plane/src/workspaces/file-reference.ts:250-262 | a waiting query gets a tree as new as the last tool result if and only if it starts the fetch or joins one with the current counter |
| SearchCache.ListingCanMissAWrite | control-plane/src/workspaces/file-reference.ts:232-262 | a directory query can join a fetch older than the tool result before it |
| FileReferenceCache.FileReferenceCache.Invalidate | control-plane/src/workspaces/file-reference.ts:228-230 | one more invalidation of the agent |
| FileReferenceCache.FileReferenceCache.Refresh | control-plane/src/workspaces/file-reference.ts:258-291 | the fetch in flight is shared; a new one captures the counter |
| FileReferenceCache.FileReferenceCache.Query | control-plane/src/workspaces/file-reference.ts:238-255 | a query is answered, or waits, as the step function says |
| FileReferenceCache.FileReferenceCache.OnFetched | control-plane/src/workspaces/file-reference.ts:265-284 | success clears the flight and caches an existing sandbox's tree with the captured counter |
| FileReferenceCache.FileReferenceCache.OnFailed | control-plane/src/workspaces/file-reference.ts:285-288 | failure clears the flight only |
| FileReferenceCache.FileReferenceCache.OnAgentDisposed | control-plane/src/workspaces/file-reference.ts:160-164 | a disposed agent leaves all three maps |
| FileReferenceCache.FileReferenceCache.Dispose | control-plane/src/workspaces/file-reference.ts:176-182 | disposal clears the maps and stops answering |
| McpChoice.SameServersIsSetEquality | control-plane/src/mcp/mcp-choice.ts:181-191 | on duplicate-free lists sameServers decides set equality |
| McpChoice.DuplicatesFoolSameServers | control-plane/src/mcp/mcp-choice.ts:181-191 | with duplicates it does not |
| McpChoice.DefaultsAreTheOffServers | control-plane/src/mcp/mcp-choice.ts:168-174 | the defaults are exactly the enabled servers configured to start off |
| McpChoice.StepKeepsInv | control-plane/src/mcp/mcp-choice.ts:60-131 | every event keeps lists duplicate-free and a snapshot exactly for the sessions with an open turn |
| McpChoice.OpenTurnKeepsList | control-plane/src/mcp/mcp-choice.ts:90-94 | no step changes the list of servers a session with an open turn hides |
| McpChoice.OpenTurnsKeepList | control-plane/src/mcp/mcp-choice.ts:105-117 | over any run that keeps a turn open the hidden list stays the same |
| McpChoice.WholeTurn | control-plane/src/mcp/mcp-choice.ts:105-131 | from the first open turn to the last overlapping end the list is the frozen choice; the last end applies the stored one and answers true if and only if it differs as a set |
| McpChoice.RecordOutlivesDefaults | control-plane/src/mcp/mcp-choice.ts:133-149 | once recorded, a session's choice changes only by its own set |
| McpChoice.QuietTurnsEndQuietly | control-plane/src/mcp/mcp-choice.ts:119-149 | turns during which nobody called set end without a change, however defaults are edited |
| McpChoice.ChangesAreNoticed | control-plane/src/sandbox/manager/sandbox-manager.ts:484-506 | no step but an edit of the configured servers changes what a session hides, list or flag, without the change notice |
| McpChoice.FlagFollowsServers | control-plane/src/mcp/mcp-choice.ts:95-102 | over any run that keeps a turn open the flag says that the frozen list is not empty and covers today's enabled servers; it is unchanged if and only if the list is empty or leaves some enabled server out now as it did then |
| McpChoice.QuietConfigurationKeepsFlag | control-plane/src/mcp/mcp-choice.ts:90-103 | with no edit of the configured servers an open turn keeps list and flag |
| McpChoice.EditFlipsFlagMidTurn | control-plane/src/mcp/mcp-choice.ts:95-102 | adding a server in the middle of a turn flips the flag under it |
| McpChoice.SetStoresTheSet | control-plane/src/mcp/mcp-choice.ts:60-84 | set stores the given names once each in order, effective at once outside a turn |
| McpChoiceSteps.SetIsExact | control-plane/src/mcp/mcp-choice.ts:60-84 | a choice naming an unknown server changes nothing; any other is recorded, an open turn keeps its snapshot, and the notice goes out exactly outside a turn |
| McpChoiceSteps.LiveWhileTurnsAreOpen | control-plane/src/sandbox/manager/idle.ts:77-97 | in every run a session is in a turn if and only if more of its turns started than ended |
| McpChoiceSteps.StartIsExact | control-plane/src/mcp/mcp-choice.ts:115-164 | a starting turn records the choice once, with a notice exactly then, and only the first open turn takes the snapshot |
| McpChoiceSteps.EndIsExact | control-plane/src/mcp/mcp-choice.ts:124-131 | only the last end drops the snapshot, and it reports a change exactly when the record differs from it as a set |
| McpChoiceSteps.OthersStay | control-plane/src/mcp/mcp-choice.ts:60-164 | no step touches another session, and only an edit changes the configured servers |
| McpChoiceObject.McpChoice.Defaults | control-plane/src/mcp/mcp-choice.ts:168-174 | the servers a new session starts with turned off |
| McpChoiceObject.McpChoice.Chosen | control-plane/src/mcp/mcp-choice.ts:163-166 | the session's own choice, else the defaults |
| McpChoiceObject.McpChoice.Hidden | control-plane/src/mcp/mcp-choice.ts:90-103 | the open turn's snapshot, else the choice, and whether it is non-empty and covers every enabled server |
| McpChoiceObject.McpChoice.Set | control-plane/src/mcp/mcp-choice.ts:60-81 | an unknown name changes nothing; otherwise the choice is stored and applied outside a turn |
| McpChoiceObject.McpChoice.Freeze | control-plane/src/mcp/mcp-choice.ts:133-161 | a session without a record gets the defaults on its first turn and everything on later |
| McpChoiceObject.McpChoice.BeginTurn | control-plane/src/mcp/mcp-choice.ts:113-117 | the first open turn takes the snapshot |
| McpChoiceObject.McpChoice.OnTurnStart | control-plane/src/sandbox/manager/sandbox-manager.ts:486-494 | count, freeze, snapshot, in that order |
| McpChoiceObject.McpChoice.SameServers | control-plane/src/mcp/mcp-choice.ts:181-191 | the comparison decides set equality on duplicate-free lists |
| McpChoiceObject.McpChoice.EndTurn | control-plane/src/mcp/mcp-choice.ts:124-131 | only the last end drops the snapshot and compares |
| McpChoiceObject.McpChoice.OnTurnEnd | control-plane/src/sandbox/manager/idle.ts:77-97 | the count goes down first, then the choice's end |
| SortedNames.SortKeeps | control-plane/src/mcp/mcp-choice.ts:74 | sorting orders names, keeps the set and keeps them distinct |
| McpNames.ReadsBack | control-plane/src/mcp/mcp-store.ts:89-104 | with separator-free names a tool name splits into server and tool in one way only |
| McpNames.PrefixIsUnambiguous | control-plane/src/mcp/mcp-store.ts:71-104 | a valid server's tool carries another valid server's prefix if and only if they are the same server |
| McpNames.CarriesNamesakesPrefix | control-plane/src/mcp/mcp-store.ts:73-80 | whatever name a tool's server was mounted under, the one valid server whose prefix it carries is the text before the first `__` |
| McpNames.ProbeNamesake | control-plane/src/mcp/mcp-pool.ts:360-374 | a connection test's tools are taken for a server of its own name, except for a tested name that starts with `_` (`probe`) or is cut right after one |
| McpNames.TestsCollideExactly | control-plane/src/mcp/mcp-pool.ts:360-374 | for every set of configured servers, the tools of a test, numbered names included, carry none of their prefixes if and only if the one server its name is taken for is not configured |
| McpNames.ProbeToolsLookLikeAnothers | control-plane/src/mcp/mcp-pool.ts:366-367 | testing the valid server `_x` registers tools with the prefix of a server `probe` |
| McpNames.ProbeToolsLookLikeAConfiguredServers | control-plane/src/mcp/mcp-pool.ts:366-367 | testing `x` registers tools with the prefix of a valid server `probe_x`, which nothing asks about unless it is mounted |
| McpNames.TrailingUnderscoreCollides | control-plane/src/mcp/mcp-store.ts:99-103 | without the trailing-underscore rule prefixes collide |
| McpNames.InnerSeparatorCollides | control-plane/src/mcp/mcp-store.ts:94-98 | without the separator rule they collide as well |
| McpNames.OwnerDecides | control-plane/src/mcp/mcp-tool-exclusion.ts:84-144 | for every registered tool, a connection test's included, the name tests hide it if and only if the server it is taken for is hidden or the flag hides resource tools |
| McpNames.HidesExactlyTheHiddenOwners | control-plane/src/mcp/mcp-tool-exclusion.ts:126-144 | the result is sorted and lists, as often as registered, exactly the tools whose owner is hidden |
| McpNames.SessionDeniesExactly | control-plane/src/mcp/mcp-tool-exclusion.ts:93-144 | for every session: a valid server's tools are denied exactly when it is on the session's list, and the resource tools exactly when the list is not empty and no enabled server is missing from it |
| OutputTail.AppendRetains | control-plane/src/sandbox/subprocess.ts:403-409 | appending keeps the buffer exactly the last maxBytes of the stream |
| OutputTail.ReadFromCovers | control-plane/src/sandbox/subprocess.ts:411-420 | one read gives what was written since its offset, or, when lossy, exactly the retained tail |
| OutputTail.EveryReaderCovers | control-plane/src/sandbox/shell.ts:212-227 | in every run of writes and reads the buffer is the stream's tail and each reader's reads cover the stream up to its cursor |
| OutputTail.ReadsAddUp | control-plane/src/sandbox/shell.ts:229-243 | what a reader read and what its lossy reads skipped add up to its cursor; lossless reads join to the stream |
| OutputTail.EveryLosslessReaderRebuildsTheStream | control-plane/src/sandbox/shell.ts:212-243 | both, for any number of independent readers of one buffer |
| OutputBuffers.CollectedBuffer.Append | control-plane/src/sandbox/subprocess.ts:403-409 | the tail stays the last maxBytes of everything appended |
| OutputBuffers.CollectedBuffer.ReadFrom | control-plane/src/sandbox/subprocess.ts:411-420 | the stream from an offset on, lossy exactly when the offset lies in the dropped prefix |
| OutputBuffers.TailBuffer.Append | control-plane/src/sandbox/shell.ts:192-206 | cutting only on overflow still keeps the last maxBytes, and `dropped` says whether the stream outgrew them |
| OutputBuffers.TailBuffer.ReadFrom | control-plane/src/sandbox/shell.ts:217-227 | the same reads as the other buffer |
| OutputBuffers.TailBuffer.ReadSince | control-plane/src/sandbox/shell.ts:232-243 | the text is exact; the flag is set for every read once the stream outgrew the buffer |
| OutputTail.FlagIsRightExactly | control-plane/src/sandbox/shell.ts:238-242 | the flag of a consuming read is right if and only if the stream never outgrew the buffer or the cursor lies in the dropped prefix |
| OutputTail.UpToDateReaderIsToldOfALoss | control-plane/src/sandbox/shell.ts:238-242 | a reader that has read everything is told of a loss and lost nothing |
| OutputBuffers.RemoteShellProcess.ReadOutput | control-plane/src/sandbox/shell.ts:384-393 | one drain returns both unread texts, moves both cursors to the ends and leaves the captures alone |
| Decimal.PrintedValue | control-plane/src/previews/preview.ts:34-36 | a printed number is canonical and reads back |
| Decimal.CanonicalExactly | control-plane/src/client/sandbox/sandbox.tsx:321-328 | a digit text is the print of its value if and only if it has no leading zeros |
| Preview.SanitizeLabel | control-plane/src/previews/preview.ts:88-93 | a sanitized id has the same length and only label characters |
| Preview.LastMarkerIsThePorts | control-plane/src/previews/preview.ts:70-77 | the last `-p` of a label is the port's, whatever the id contains |
| Preview.StrippedHostHasNoSuffix | control-plane/src/previews/preview.ts:60-65 | under a domain that ends in a port no bare host matches |
| Preview.ParsesBare | control-plane/src/previews/preview.ts:51-86 | a printed host without listener port parses to its id and port if and only if the domain does not end in `:digits` |
| Preview.ParsesWithListenerPort | control-plane/src/previews/preview.ts:58-61 | with a listener port it always parses |
| Preview.ParseInvertsPreviewHost | control-plane/src/previews/preview.ts:42-86 | the parser inverts the printer for every non-empty id, up to sanitizing, and every port |
| Preview.AcceptsExactly | control-plane/src/previews/preview.ts:51-86 | a host is accepted for a target if and only if, lowered and stripped, it is id, `-p`, one to five digits of that port and the domain |
| Preview.MarkerIsThePorts | control-plane/src/client/sandbox/sandbox.tsx:325-328 | in a printed host the first marker the rewriter replaces is the port's |
| Preview.RewritesPrinted | control-plane/src/client/sandbox/sandbox.tsx:316-329 | the rewriter swaps exactly the port text of a printed host |
| Preview.RewriteAgainstPrinter | control-plane/src/client/sandbox/sandbox.tsx:310-329 | it refuses exactly what is no port, prints the host anew if and only if the text has no leading zeros, and addresses the asked port either way |
| Text.TrimTakesTheEnds | control-plane/src/client/sandbox/sandbox.tsx:317 | trimming takes the white space off both ends and nothing else |
| Preview.MarkerMeans | control-plane/src/client/sandbox/sandbox.tsx:328 | a marker is `-p`, one to five digits and a dot |
| Preview.ShapedExactly | control-plane/src/client/sandbox/sandbox.tsx:325 | a host has the shape if and only if it is label characters, a marker and anything |
| Preview.RewritesExactlyShaped | control-plane/src/client/sandbox/sandbox.tsx:316-329 | on any host the rewriter answers if and only if the text is a port and the host has the shape |
| Preview.RewritesFirstMarker | control-plane/src/client/sandbox/sandbox.tsx:328 | and then it swaps the digits of the host's first marker and nothing else |
| Preview.LeadingZerosAreKept | control-plane/src/client/sandbox/sandbox.tsx:328 | `007` is kept, so the host is not the printed one |
| ByteRange.MatchSplits | control-plane/src/media/video-media.ts:71-75 | the match is the only way to read the text as two digit texts |
| ByteRange.AcceptedMeansSelected | control-plane/src/media/video-media.ts:64-98 | an accepted header is a valid, satisfiable range-spec and start to end, inside the file, are exactly the positions section 14.1.2 of RFC 9110 selects |
| ByteRange.AcceptedExactly | control-plane/src/media/video-media.ts:79-97 | it is accepted if and only if valid, satisfiable, on a non-empty file, with a suffix within the safe integers |
| ByteRange.OtherTextsAreInvalid | control-plane/src/media/video-media.ts:71-78 | any other text is answered as unsatisfiable |
| ByteRange.StatusSaysHowTheHeaderWasRead | control-plane/src/media/video-route.ts:128-153 | 200 exactly without a header, 206 exactly for a servable range-spec, 416 for the rest without a body; HEAD has GET's headers |
| ByteRange.ServesWhatWasAsked | control-plane/src/media/video-route.ts:128-180 | the body window and Content-Range of a served range-spec are exactly the positions it selects |
| ByteRange.ServesTheWhole | control-plane/src/media/video-route.ts:128-180 | without a header the whole file is served, and a 416 names the file's size |
| ByteRange.BodyWindow | control-plane/src/media/video-route.ts:141-180 | a body's window lies in the file and is as long as the Content-Length |
| ByteRange.ReadTakes | runner/service/service.go:378-396 | a read inside the window gives its next bytes, at least one and at most a chunk |
| ByteRange.PullKeepsStreamed | control-plane/src/media/video-route.ts:200-222 | each pull keeps the sent bytes equal to the window's prefix and makes progress |
| ByteRange.EveryRunStreams | control-plane/src/media/video-route.ts:190-223 | in every run of short reads and failures what was sent is a prefix of the window in chunks of at most 1 MiB |
| ByteRange.DrainsWindow | control-plane/src/media/video-route.ts:198-219 | without failures the loop closes within as many pulls as bytes, having sent the whole window |
| ByteRange.PullPastTheFileCloses | control-plane/src/media/video-route.ts:200-219 | a pull past the end of a file cut short closes the stream and sends nothing |
| ByteRange.BodyIsTheAnnouncedBytes | control-plane/src/media/video-route.ts:105-223 | for every header on an unchanged file the body is exactly start to end and its length the Content-Length |
| RangeBody.RangeBody.Pull | control-plane/src/media/video-route.ts:200-222 | pull advances the captured offset, enqueues and closes as the step function says |

## Left out

- Checkpoint.Checkout: a checkout over local changes is refused outright, where git refuses only when files collide; every theorem starts from a clean clone, where the two agree.
- Checkpoint.Prepare: a ref called HEAD other than HEAD itself beside an unborn HEAD is not modelled.
- Checkpoint.Print: a path whose name spells the bundle's revision range, `<id>..HEAD`, is not modelled.
- Checkpoint.Restored: the upstream setting, submodules and the merge parents a session was about to record are not restored by the scripts and not claimed.
- CheckpointOutput.ParseSaveOutput: a byte is one character; UTF-8 decoding of branch names is not modelled.
- CheckpointRuns.Act: a session that gives its own commits the save script's subject, or amends or picks a save's commit, is not modelled.
- Git.Repo: which paths are ignored is fixed, so an ignore rule that differs between the session's commit and the clone's first checkout, and ignored files in the clone in the way of the commit's, are not modelled.
- Git.Commit: embedded repositories and submodules, attributes and filters, sparse checkouts, index flags such as assume-unchanged, shallow or partial clones, replace refs and grafts, a HEAD outside refs/heads, and SHA-256 repositories, whose ids the parser refuses, are not modelled.
- Configuration that changes git's output or its refusals, commit hooks, commit signing, Git's object and bundle encoding: a bundle is the set of its commits and the commits it expects.
- The artifacts tar beside the Git checkpoint, and a script's stderr and exit status beyond success or failure.
- TerminalProtocol.Start: argument checks, process start, PTY reads, signals and the termination ladder of terminal.go are nondeterministic outcomes of steps; `terminalSession.wait`, `terminate` and `waitQuiescent` are not modelled further.
- TerminalProtocol.CallControl: a written text is the bytes it encodes to, and a size is an integer; the check that a size is one is not modelled.
- HTTP/2 framing and flow control: each half of a stream is a first-in first-out channel that may fail.
- The payloads of terminal answers and the activity revision counter.
- Tunnel shutdown, token checks and the malformed-handshake branch; they change neither map before shutdown.
- The course of a connection test, status views, OAuth token refresh and the store's file; the store is a parameter that may change at any await.
- The MCP choice's view projection and the write of the session file.
- Rewriting of prompt sections for hidden servers, the per-agent deny lists and the preset exclusion.
- SandboxConfig.Dict: names that look like array indexes are enumerated first by JavaScript; the model keeps insertion order for all names.
- SandboxConfig.Host: URL parsing is a parameter of the resolvers.
- Schema defaults applied before resolution, YAML parsing and the boot-only settings.
- FileRanking.Candidate: a candidate is its path and kind; characters are single code units and only ASCII letters are lowered.
- Directory listing, hidden-file filtering and the truncation warning of file search.
- OutputTail.ReadFrom: decoding is the identity, one byte per character; a cut inside a multi-byte character is not modelled.
- Text.Lower: only ASCII letters change case; this matters for sandbox ids, domains and paths alike.
- Text.Trim: only ASCII blanks, tabs and line ends are trimmed; other Unicode white space would also be refused or trimmed by JavaScript.
- ByteRange.Serve: path resolution, stat errors and the content type are not modelled; a file that changes while it streams is not claimed anything of.
- ByteRange.Size: file sizes are safe integers, as JavaScript numbers that count bytes are.
