# A verification of gopls-mcp-manager

gopls-mcp-manager stands between one MCP client and many shared gopls servers,
one per worktree. It tracks every request of the client from admission to its one
answer, carries it over connections that come and go, decides what each gopls is
told to watch, and keeps a registry of servers that several managers share. This
project models that logic in Dafny and proves what it promises.

`dafny verify dfyconfig.toml` checks everything.

## The parts

**The request tracker** (`Tallies`, `Tracker`, `TrackerAnswers`, `Router`). Two tables:
what is owed to the client, and what may still run upstream. `Router.Tables` changes them in
place, as the router does under its mutex; each method is proved against a function
of the tables, and about those functions `Tracker` proves the accounting and
`TrackerAnswers` when each of them grants, refuses or takes what it is asked for.

**Delivery** (`Protocol*`, `Handshakes`). One session as a transition system: the
ingress, the routing owner, a sender and a control worker per lane, a reader and a
roots worker per connection, execution timers, the client's output queue and
shutdown. A step is one critical section of the router, or one effect another
goroutine can see. Timeouts, failing writes, full queues and every interleaving are
choices of the run. `ProtocolInvariant` holds the invariant, the files after it the
proof that each step keeps it, and `ProtocolTheorems` what it means for every state
of every run. `ProtocolFates` and `ProtocolEffects` say what each step makes of each
admission, timer, lane and advice, `ProtocolAttempts` how often a delivery is tried,
`ProtocolKinds` that it goes out as what it is, and `ProtocolRest` that a session left
alone comes to rest. An upstream is assumed to answer each accepted write at most once,
and a closed connection to fail later writes. A token stands for the address of the
admission's call state, so answers are counted per admission and not per id.

**The watch-root planner** (`Filter`, `FilterRules`, `Trees`, `Planner`, `PlanNames`,
`Plans`). Rules are compiled to patterns over text, and the patterns are proved equal to
a matcher over segments. `Trees` and `PlanNames` say what a plan should be, `Planner` is
the walk with its pruning, and `Plans` proves that the walk yields that plan. Where the code and its documentation disagree,
the model follows the code: the comment at `watchroots.go:107` and SPEC S1a say that
"**" matches zero or more segments, while a "**" after the first segment needs at
least one (`Filter.DocumentedExactly`). The worktree itself is never judged by
the rules.

**The shared registry** (`Ports`, `Records`, `Registry`, `RegistryProofs`, `Probe`,
`Usage`). Any number of managers over one file: unlocked snapshots and probes,
reconciliation under the lock, a signal only after a second look at the file. A gone
verdict is assumed to mean that the process is dead or was never this record's, each
start to have an identity of its own (pid and start time), and no manager to crash
between a start and the write that records it. `Usage` is the flush of use counts:
when nothing had been counted the batch is the live map itself, and a delivery made
meanwhile is counted twice, whether the commit succeeds or fails.

**Event streams** (`Sse`, `SseLines`, `Frames`, `SharedBudget`). The parser compacts a frame within
the array it reads; the reader assembles a frame from parts under a budget all
connections share; `SharedBudget` follows every connection through the releases on its
paths. The grammar is the code's own: all surrounding whitespace of a value
is trimmed, by a function that is a parameter and gives a sub-range, a line without a
colon is an error, and a lone carriage return ends no line.

**Small algorithms** (`Eviction`, `Memo`, `Pending`). The choice of servers to evict, the
age of memoized paths, and the mirror of pending operations. A worktree that was resolved
has a name, since resolving links never gives the empty path.

The memo's answer is the resolver's only under a condition. `cachedWorktrees` gives what
`toolCallWorktrees` would, as its comment says, while no later step of the epoch stores
another worktree for a path or clears the level that holds it; with lookups one at a time
only a rollover does (`Memo.AnswerStays`, `Memo.OnlyRolloversForget`), and then the answers
may differ (`Memo.RolloverChangesTheAnswer`).

Two promises of delivery need a qualification, each with its exact statement and a run
that shows it is needed. The first message a connection accepts is its initialize,
unless the client's own initialize was refused, for its size say, and cancelled while
it was being written: then its advice may go first, and nothing else ever does
(`ProtocolTheorems.AcceptedFirst`, `ProtocolCorner.AdviceFirst`). And an advice may be
written after a newer use of its id, but only once that use has been answered: the
fence excludes a newer unresolved operation (`ProtocolTheorems.LateAdviceIsHarmless`,
`ProtocolLate.AdviceAfterReuse`).

## Model

| member | source | states |
|---|---|---|
| Tracker.AdmitKeepsBalance | requests.go:90-108 | admission keeps admitted equal to completed plus outstanding, the peak within the session limit, and both per-worktree tallies exact |
| Tracker.BindKeepsBalance | requests.go:290-316 | binding a call that has no worktree yet keeps the tallies equal to the true counts and within PerLane; a second binding would not, which is why the unbound record is required |
| Tracker.BeginKeepsBalance | requests.go:424-448 | reserving a credit and placing the call in one step keeps every count exact and within Session and PerLane |
| Tracker.FinishKeepsBalance | requests.go:158-170 | finishing, whether or not the caller gets the call, keeps the accounting |
| Tracker.RetryKeepsBalance | requests.go:172-186 | taking a call back for another attempt moves no count |
| Tracker.FailInFlightKeepsBalance | requests.go:384-406 | failing everything a connection owns keeps the accounting |
| Tracker.ClearKeepsBalance | requests.go:217-229 | the end of the session leaves both tables empty and the counts in balance |
| Tracker.RemoveLast | requests.go:388-401 | removing a set of calls and then one more is removing them together, so the order in which the map is walked cannot show |
| Tallies.ReleaseLast | requests.go:134-139 | releasing holders one at a time, in any order, is releasing them all at once |
| Tallies.ReleaseEachKeepsExact | requests.go:134-139 | after any holders are released each tally is again the true count, with no key left at zero |
| TrackerAnswers.AdmitAnswers | requests.go:90-108 | an id is admitted exactly when nobody holds it and the session has room; which refusal comes otherwise; a refusal changes nothing but the count of refusals |
| TrackerAnswers.BindAnswers | requests.go:290-316 | a live binding is granted exactly when the caller still holds the id, the worktree has a lane or one more may be opened, and fewer calls than PerLane are bound to it; otherwise the refusal is the first of these that fails |
| TrackerAnswers.BeginAnswers | requests.go:424-448 | a call is placed exactly when the caller still holds the id, nothing runs under the connection and id, and the true counts are below Session and PerLane; which refusal comes otherwise |
| TrackerAnswers.FinishAnswers | requests.go:143-170 | an answer is the caller's exactly when the id is held by the generation asked for and placed on the connection that asks; who leaves, which operation ends and which is abandoned |
| TrackerAnswers.RetryAnswers | requests.go:172-186 | a call is taken back exactly when its admission still holds the id on the connection that failed, and its operation is abandoned |
| TrackerAnswers.FailInFlightAnswers | requests.go:384-406 | a dying connection takes exactly the calls placed on it and leaves their operations abandoned |
| TrackerAnswers.PlaceAnswers | requests.go:469-482 | a delivery starts over exactly when its admission still holds the id |
| Router.Tables.Admit | requests.go:90-108 | the method that changes the tables in place agrees with the table function: refusals, token, counters |
| Router.Tables.Finish | requests.go:158-170 | new tables, the owner it returns, and exactly when it returns one |
| Router.Tables.Retry | requests.go:172-186 | new tables, and claimed exactly when the connection still owns this admission |
| Router.Tables.BindWorktree | requests.go:290-316 | new tables and every refusal, in the order the code tests them |
| Router.Tables.PlaceDelivery | requests.go:469-482 | new tables, and owned exactly for the generation that asked |
| Router.Tables.BeginOperation | requests.go:424-448 | new tables and every refusal, in the order the code tests them |
| Router.Tables.RemoveLocked | requests.go:114-127 | the operation abandoned, the record gone, the tally given back, one more completed |
| Router.Tables.FailInFlight | requests.go:384-406 | the loop over the map removes exactly the calls of the connection, in whatever order it meets them |
| Router.Tables.ClearRequests | requests.go:217-229 | both loops leave nothing owed, nothing running and no tally |
| ProtocolRuns.NextKeepsInv | lane.go:181-284 | every step of every party keeps the whole invariant of the session |
| ProtocolTheorems.RunIsSafe | bridge.go:336-415 | every state of every run is safe, shutdown included |
| ProtocolTheorems.AnsweredOnce | requests.go:158-170 | every admission is owed in the table, or taken by one party, or was answered exactly once, or went down with a failed session |
| ProtocolTheorems.NeverTwice | requests.go:143-156 | once answered, an admission stays answered for the same cause in every continuation, and is never sent again |
| ProtocolTheorems.AnswersStay | requests.go:143-156 | nothing taken, answered or dropped is ever owed again |
| ProtocolFates.FatesAre | requests.go:143-214 | in every reachable state, what each step makes of each admission: who takes it for which cause, who forwards its answer, and that every other step leaves it alone |
| ProtocolFates.AnsweredBy | requests.go:158-214 | an admission that is owed is taken exactly by its own refused delivery or timer, the sender that carries it, a cancellation of the id it holds, the reply to its own write, or the death of the connection it is placed on |
| ProtocolFates.TimerTakesItsOwn | requests.go:188-198 | a timer, however late, takes the admission it was armed for, if that is still owed, and nobody else, whoever holds its id by then |
| ProtocolEffects.TimersAre | requests.go:188-198 | a timer is armed exactly when a sender adopts the write of a call that is still owed, and is gone exactly when it fires |
| ProtocolAnswers.ReplyAttribution | requests.go:158-170 | a reply takes the admission whose own write it answers, if the connection still owns it, and touches no other |
| ProtocolAnswers.OneUnanswered | requests.go:432-435 | under one connection and id there is never a second accepted write that may still be answered |
| ProtocolTheorems.RepliesFindTheirOwn | bridge.go:373-381 | in every reachable state the operation under a reply's connection and id is that of the write it answers |
| ProtocolTheorems.AnsweredByOwnReply | bridge.go:373-381 | an admission answered by a reply was answered by the reply to its own write, and no two by the same one |
| ProtocolTheorems.NoStrandedCall | bridge.go:350-356 | every owed call is in routing, in a lane's queue, with that lane's sender, or owned by a connection that somebody will still read or fail, unless the session is over |
| ProtocolTheorems.RestWaitsForAnswers | lane.go:298-309 | when nobody has a step of their own left, every owed call waits on an open connection with a live reader and holds its operation there |
| ProtocolRest.RestIsNoStep | lane.go:181-285 | a session is in such a state exactly when no goroutine has a step left that waits for neither client, upstream nor timer |
| ProtocolRest.ComesToRest | lane.go:181-285 | however its goroutines interleave, a session left alone takes at most a known number of steps, and once none is left every call still owed waits for the answer of a live upstream |
| ProtocolTheorems.DeadOwnsNothing | bridge.go:392-415 | in a session that is not over, a connection whose readers are gone owns no call but the one its lane is still placing |
| ProtocolTheorems.CancellationFence | lane.go:152-178 | from its check through its write an advice follows the completed write it names, no other generation holds its connection and id, and none can be placed |
| ProtocolEffects.AdviceIsFor | requests.go:351-364 | advice is queued exactly for the placed call that a cancellation or a timer takes, in its lane and for its connection, id and generation, and stays until the worker takes it up or drops it |
| ProtocolEffects.WorkerChecks | lane.go:168-178 | the worker goes on with it exactly when no later call runs under its connection and id |
| ProtocolTheorems.WriteDiscipline | lane.go:319-350 | the first write on a connection is an initialize and no later one is; advice follows the completed write of its call; no call is written twice on a connection |
| ProtocolTheorems.AcceptedFirst | lane.go:231-252 | the first message an upstream may act on is the initialize; or the client's own initialize was refused, that message is the advice for it, no lane has adopted the connection, and nothing but advice for it is ever written there |
| ProtocolTheorems.CallsAfterInitialize | lane.go:319-350 | a connection that is read, or that any later call was written on, was sent an initialize that it accepted |
| ProtocolTheorems.LateAdviceIsHarmless | lane.go:170-178 | an advice may follow another use of its id on the connection, but every accepted call of another use written before it was answered |
| ProtocolTheorems.AdviceCarriesItsId | requests.go:351-366 | an advice carries the id of the admission it is meant for |
| ProtocolLate.AdviceAfterReuse | lane.go:170-178 | a reachable state in which an advice was sent after a later call under its id had been written and answered |
| ProtocolCorner.AdviceFirst | lane.go:244-252 | a reachable state of the second kind: an oversized initialize, cancelled meanwhile, is followed by its advice, which is accepted |
| ProtocolTheorems.Accounting | requests.go:424-465 | in every reachable state the counts balance within the limits, and the operations not abandoned are exactly the placed calls, but for one being given up for its size |
| ProtocolTheorems.GapIsADelivery | lane.go:244-252 | that exception exists only while the lane's sender is giving the call up |
| ProtocolEffects.LanesWithinLimit | requests.go:297-304 | in every reachable state there are no more lanes than the session may have |
| ProtocolAttempts.TwiceAtMost | lane.go:202-280 | in every reachable state a call was written on two connections at most, and on each once |
| ProtocolAttempts.TakesOwed | lane.go:195-200 | a sender takes up a delivery exactly when its call is still owed |
| ProtocolAttempts.TriesAgain | lane.go:202-227 | an attempt that got no connection is followed by another unless it was the second or the delivery's time is up |
| ProtocolAttempts.PlacesOwed | lane.go:232-240 | a call goes on to its write exactly when it is still owed, nothing runs under its connection and id, and there is room for its operation |
| ProtocolAttempts.RefusedIsClosed | lane.go:236-240 | a connection dialled for a call that is then refused is closed |
| ProtocolAttempts.RetriesOwed | lane.go:266-279 | after a failed write the lane lets its connection go, closed, and tries again exactly when the call is still owed to it there and this was the first attempt |
| ProtocolAttempts.AdoptsConn | lane.go:303-309 | a completed write makes its connection the lane's own, and a new one is read from then on |
| ProtocolAttempts.GivesUpTooLarge | lane.go:244-252 | a message over the limit is given up with its credit back, and its connection is closed exactly if the lane has not adopted it |
| ProtocolEffects.RootsMean | bridge.go:392-416 | a failed roots reply lets go of the connection, then closes it, then leaves it no call |
| ProtocolEffects.ReadFailMeans | bridge.go:350-369 | a reader whose read fails goes on to fail its connection's calls, and closes the connection only when it was the one to find it broken |
| ProtocolEffects.ReaderEndMeans | bridge.go:350-356 | a reader that ends leaves its connection no call |
| ProtocolKinds.SentAsAsked | lane.go:181-184 | in every run, whatever is written of an admission is an initialize exactly if the client's request was one |
| Handshakes.Shake | lane.go:442-477 | exactly what the handshake reads, writes and forwards and when it succeeds: it reads up to the private answer, the end of the stream or a question it cannot answer; it writes the initialize, a reply to every question read, and the notice only once the answer is no error |
| Handshakes.SucceedsMeans | lane.go:454-477 | the script grants the handshake exactly when the part the loop reads ends with a private answer that is no error |
| Handshakes.ClientSees | lane.go:459-475 | of the messages read the client sees every answer but the one under the private id, every notification and no question |
| Handshakes.AllInOrder | lane.go:454-475 | each message that is the client's reaches it once and in its order, and each question with an answer is replied to once and in its order |
| Filter.SplitText | watchroots.go:119 | splitting the text of a path gives its segments back |
| Filter.RulePathOfText | watchroots.go:101-103 | a rule names the path it is written as |
| Filter.PatternCovers | watchroots.go:109-148 | the regular expression of a rule, on the text of a path, matches exactly when the rule's segments cover the path's |
| Filter.DocumentedExactly | watchroots.go:105-129 | the code does what the comment and SPEC S1a say of "**" exactly when no "**" follows the rule's first segment |
| Filter.ApartDiffers | watchroots.go:119-129 | for every other rule, a path on which they differ |
| Filter.CoversBelow | watchroots.go:105-108 | a rule that covers a directory covers everything below it |
| Filter.PathInclude | watchroots.go:109-148 | the loop over the rules gives the verdict of the last usable rule that covers the path |
| Filter.PlusPrefixes | watchroots.go:165-177 | what newDirFilter gathers of the + rules, its early stop included |
| Filter.PlusTextsReach | watchroots.go:178-187 | the string tests of mayInclude say exactly whether some + rule may reach the path |
| Filter.NothingBelow | watchroots.go:158-187 | below an excluded directory that no + rule may reach nothing is included |
| FilterRules.IncludeMeans | watchroots.go:109-148 | told from the texts: a path is included unless the last rule of one to 4096 bytes that begins with + or - and covers it is a - rule |
| FilterRules.CleanedMeans | watchroots.go:101-103 | the path a rule names: empty and "." segments go, ".." takes the one before it along, and at the top there is none |
| FilterRules.StarTakes | watchroots.go:119-129 | a "**" after the first segment takes one segment or more, none with a newline |
| FilterRules.LeadingStarTakes | watchroots.go:119-129 | a leading "**" takes any number of segments |
| FilterRules.NameTakes | watchroots.go:119-129 | any other segment takes its like, and a rule that is used up covers what is left of the path |
| FilterRules.MayIncludeMeans | watchroots.go:165-187 | a directory is looked into exactly for a + rule that may match anywhere, or that covers it or something below it and nothing above it |
| Planner.Walker.Walk | watchroots.go:295-328 | the recursive walk appends exactly the specified roots and partial directories and reports whether the tree is clean |
| Planner.Walker.WalkExcluded | watchroots.go:330-354 | the same for the walk inside an excluded directory |
| Planner.Walker.Relevants | watchroots.go:356-379 | the loop over the entries lists the names of `PlanNames.NamesAre` |
| PlanNames.NamesAre | watchroots.go:356-379 | the names recorded: the seen subdirectories that are included, or, for an excluded directory, that a + rule may reach; the regular files with one of the five suffixes, unless it is excluded; nothing else, and nothing twice |
| PlanNames.WatchedFileIs | watchroots.go:79-87 | a file is watched exactly when its name ends in one of the five suffixes |
| PlanNames.LookupMeans | watchroots.go:71-77 | a subdirectory is seen exactly when it is listed under a name that begins with neither a dot nor an underscore and is not testdata |
| Plans.PrunedWalk | watchroots.go:330-354 | the pruned walk finds the same roots as one that looks into every excluded directory |
| Plans.WalkFindsRoots | watchroots.go:298-328 | a directory is appended as a root exactly when it is included and clean and its parent is not both |
| Plans.WalkOnce | watchroots.go:298-354 | no root is appended twice |
| Plans.PlanRecords | watchroots.go:326-353 | exactly the included unclean directories, and the excluded ones a + rule may reach, are recorded, with exactly the names of the entries that matter |
| Plans.PlanWatch | watchroots.go:274-291 | the plan of a worktree: roots, partial directories, and which subdirectories and files each of them names, the cases without rules and without exclusions included |
| Plans.UnlistedLeadsNowhere | watchroots.go:356-372 | a subdirectory an excluded directory does not list leads to nothing that is watched or recorded |
| Trees.Partition | watchroots.go:21-34 | every directory the planner can see is excluded, or partial, or under exactly one root, and never two of these |
| Trees.RootsAvoid | watchroots.go:21-26 | no root's subtree holds an excluded directory |
| Trees.Minimal | watchroots.go:21-26 | any set of directories that avoids the excluded ones and covers what the plan covers contains every root of the plan |
| Ports.VisitsEachOnce | manager.go:94-96 | the walk from any base visits every port once |
| Ports.NextMeans | manager.go:94-96 | the walk goes up by one, and from the last port to the first |
| Ports.FirstFreeMeans | manager.go:98-111 | the port allocated is the first free one from the base up, or, if there is none, from the first port up |
| Ports.FirstFreeIsOne | manager.go:98-111 | the walk's order leaves one answer |
| Ports.AllocatePort | manager.go:98-111 | the first port from the base that is neither recorded nor unavailable, and none exactly when there is none |
| Records.Reconcile | registry.go:261-280 | the loop that filters the slice in place keeps, marks and condemns exactly the records its verdicts name |
| Records.KeptFrom | registry.go:258-275 | a record is kept exactly when one of the old file that is not judged gone is it, or is it without the mark it is given |
| Records.KeptInOrder | registry.go:258-275 | each such record has its place after those before it, and there are no others |
| Records.ClaimMeans | manager.go:190-226 | a server is handed out exactly when the worktree's first record is not leaving; with no record there is room exactly below the cap |
| Records.FlushMeans | maintenance.go:165-200 | each record that is used and not leaving gains exactly the uses counted, and nothing else changes |
| Records.CondemnedIsKept | registry.go:270-278 | whoever is to be signalled is first written, marked |
| Records.ClaimPort | manager.go:193-233 | the worktree's record unless it is leaving; a port only where there is no record and room |
| Records.Flush | maintenance.go:175-184 | usage is added to every record that is not terminating, and to nothing else |
| Probe.GoneMeans | probe.go:62-96 | a record is given up exactly when its process is gone or shown to be another's, and it is neither serving nor in its grace unless already marked |
| Probe.TerminateMeans | probe.go:62-114 | a server is condemned exactly when it is ours and already marked, or ours, past its grace and refusing connections |
| Probe.LiveMeans | probe.go:62-103 | the exact condition of the live verdict |
| Probe.MatchesMeans | probe.go:142-152 | a command line is a server's exactly when it ends with the path of gopls, mcp, -listen and its address |
| Probe.DigitsMean | probe.go:142-152 | a port is written in decimal, without leading zeros |
| Probe.VerdictIsAllowed | probe.go:62-114 | a probe that finds what is so never gives up a live process, which is what the registry's steps rely on |
| Probe.OnePort | probe.go:142-152 | a command line is that of a server on one port at most |
| RegistryProofs.NextKeepsInv | registry.go:216-290 | every step of every manager keeps the registry's invariant |
| RegistryProofs.NoOrphan | manager.go:190-256 | for any number of managers, every committed live process has its record, and the file stays as bounded in ports and size as it began |
| RegistryProofs.OneServerPerWorktree | manager.go:190-233 | a worktree that began with one record at most never has two live servers |
| RegistryProofs.SignalIsDurable | process.go:55-70 | a signal goes to a marked record that its sender has just seen on disk and which, if its process is alive, is still there with that mark |
| RegistryProofs.MarkStays | registry.go:258-280 | the mark is never cleared, and a marked record leaves only on a gone verdict for that exact record |
| RegistryProofs.MarkedUntilGone | registry.go:258-290 | over any run a marked record stays on disk until its process is gone |
| RegistryProofs.ClaimRespectsRecords | manager.go:194-214 | a claim starts nothing beside a record of its worktree and never hands out one that is leaving |
| RegistryProofs.DeadLeave | registry.go:255-292 | a reconciliation that is committed leaves the records not judged gone, marked if they are to be terminated, and at most the record of the process it has just started |
| RegistryProofs.GoneIsGone | registry.go:264-266 | in every run, no record judged gone is left by it, save one equal to a record it has just marked |
| RegistryProofs.NoDeadServer | manager.go:190-226 | what a claim hands out after it was judged neither gone nor to be terminated |
| RegistryProofs.MarkedAreQueued | registry.go:264-292 | exactly the records it marks are then signalled, before the body is tried again |
| RegistryProofs.CheckMeans | registry.go:276-292 | a marked record goes on to its signal exactly if it is still on disk |
| RegistryProofs.SignalMeans | registry.go:276-292 | after a signal the next marked record is looked at, and after the last the body is tried again |
| RegistryProofs.ClaimComesTo | manager.go:190-226 | what a claim comes to in each case: file, processes and who has a record |
| Usage.StepConserves | maintenance.go:165-192 | a step keeps every delivery in one place exactly when it does not end a flush of the live map, committed or failed, with something in it |
| Usage.FlushedOnce | maintenance.go:165-192 | the same over whole runs, and nothing is lost in any case |
| Usage.CountedTwice | maintenance.go:169-184 | a run in which a flush of the live map commits one delivery twice |
| Usage.KeptTwice | maintenance.go:169-191 | a run in which such a flush fails and leaves one delivery twice in the live map |
| Sse.ParseFrame | internal/transport/sse.go:246-285 | compacting in place returns the last event name and the newline-join of the trimmed values of the original bytes, and every error |
| SseLines.MalformedMeans | internal/transport/sse.go:250-263 | a frame is malformed exactly when some line, without its trailing CR and LF, is not empty and has no colon |
| SseLines.FrameSays | internal/transport/sse.go:264-285 | otherwise its name is that of the last event field and its data the values of all data fields, in their order; no other field says anything |
| SseLines.OtherLine | internal/transport/sse.go:264-278 | a line that is blank, or a field of another key, can be put between any two lines without changing what the frame says |
| SseLines.JoinUndone | internal/transport/sse.go:267-274 | the values can be told apart again by the newlines between them |
| Sse.Append | internal/transport/sse.go:267-274 | a value moved down within the frame touches nothing that is still to be read |
| Sse.RoundTrip | internal/transport/sse.go:246-285 | an event written line by line reads back as it was |
| Frames.ReadFrame | internal/transport/sse.go:197-242 | the frame or failure depends on the stream's bytes and not on how they were cut; the budget refuses the stream exactly when a buffer on the way does not fit beside the old one, so never with room for twice the limit; the budget is charged with exactly the capacity on success and nothing on failure |
| Frames.FrameIsShortest | internal/transport/sse.go:197-242 | the frame is the shortest prefix that ends in a blank line, or the whole of a stream that ends without one |
| Frames.NoFrameMeans | internal/transport/sse.go:201-241 | a stream is refused as too large or failed only when no blank line comes within the limit |
| Frames.Grow | internal/transport/sse.go:205-217 | granted exactly when the larger buffer fits while both are charged, with the capacity the growth rule gives; the old charge is given back whatever happens |
| Frames.GrownIsLeast | internal/transport/sse.go:206-207 | the next buffer is the smallest that is enough, no smaller than 128 bytes or twice the old one, but for the limit |
| Frames.Budget.Acquire | internal/transport/sse.go:307-316 | granted exactly when it fits, with used and peak kept within the limit |
| SharedBudget.BudgetIsLiveCapacity | internal/transport/sse.go:72-158 | over all connections and any interleaving of connecting, filling, handing over, parsing and closing, what is charged is the capacity of the buffers still in use, within the limit |
| SharedBudget.NothingLeaks | internal/transport/sse.go:72-158 | when every connection has stopped and every frame is parsed, nothing is charged |
| SharedBudget.ConnectsFirst | internal/transport/sse.go:74-115 | a connection begins in the call that connects, leaves it only when its first event is judged, and hands no frame over before that |
| SharedBudget.ClosedExactly | internal/transport/sse.go:104-154 | who closes a connection, and nobody else does |
| SharedBudget.StoppedIsClosed | internal/transport/sse.go:104-125 | in every run, nobody fills frames any more only where the connection is closed |
| SharedBudget.FrameIsFilled | internal/transport/sse.go:197-242 | a call of readFrame is a run of the shared budget's steps, which leaves the connection with the buffer `Frames.ReadFrame` returns or with none, and charges accordingly |
| Eviction.OverBudget | maintenance.go:237-275 | the victims are the shortest prefix of the order that meets the budget, or all candidates, and the total is what is left |
| Eviction.CandidatesAre | maintenance.go:241-263 | a candidate is the hottest record of a process none of whose records is spared, and every such process has one |
| Eviction.LineIs | maintenance.go:251-265 | the line of victims has each process that may go once: none of its records leaving, busy or young, and files open; less used before more used, then longer unused first |
| Eviction.HottestIsFirst | maintenance.go:246-250 | of several records of a process the hottest ranks it, and of equally hot ones the first |
| Eviction.SumIsHeld | maintenance.go:238-245 | the total is the sum of what each process holds |
| Eviction.VictimsAreFair | maintenance.go:241-273 | nobody spared is evicted, and each process is ranked by its hottest record |
| Eviction.SortedSorts | maintenance.go:264-266 | the order is by frequency and then by last use, and holds the same records |
| Eviction.SortIsStable | maintenance.go:264-266 | records that rank alike keep their order |
| Eviction.TotalIsSurvivors | maintenance.go:267-274 | the total returned is the files of the processes that survive |
| Memo.Cache.CachedWorktrees | routing.go:242-265 | the answer from the memo alone, or none at the first path it does not know, with one hit per known path and one miss for the unknown one |
| Memo.CachedIsResolved | routing.go:242-283 | in every run, a complete answer from the memo is the one toolCallWorktrees gives, order included, from lookups each made in its own later state of the same epoch, if every step until then was harmless to its path |
| Memo.AnswerStays | paths.go:156-180 | within an epoch an answer survives a step if and only if the step is harmless: it stores no other worktree for the path and clears no level that holds it |
| Memo.AnswerStaysThroughout | paths.go:156-180 | over any stretch of one epoch the memo gives the same answer all along if and only if every step is harmless |
| Memo.OnlyRolloversForget | routing.go:185-196 | with one lookup at a time, as the resolver's worker makes them, only a rollover takes an answer away before its epoch is over |
| Memo.RolloverChangesTheAnswer | paths.go:174-180 | a run in which the memo names one worktree and toolCallWorktrees, within the epoch and after a rollover, another |
| Memo.KnownIsResolved | routing.go:269-283 | the same for any resolution that agrees with the memo on the paths named |
| Memo.FoundOnce | paths.go:77-111 | each worktree once, for exactly the absolute paths that resolve |
| Memo.FoundInOrder | paths.go:77-111 | worktrees come in the order in which they are first named |
| Memo.HitsMean | routing.go:266-283 | one hit for each absolute path before the first unknown one, and a complete answer exactly without one |
| Memo.Cache.Keep | paths.go:158-169 | what the last critical section of a lookup stores |
| Memo.KeepStores | paths.go:156-169 | a lookup's last step stores what that critical section does |
| Memo.KeptMeans | paths.go:156-169 | a lookup of the same epoch that was not cancelled is known at both levels from then on, and any other changes nothing but for the sweep |
| Memo.MemoizeMeans | paths.go:171-180 | a full level forgets everything for a new key; otherwise it keeps what it holds |
| Memo.HitsAreFresh | paths.go:41-53 | in every run, however lookups overlap expiry, a first-level hit is less than one lifetime old and both maps stay within their bound |
| Pending.Newest | pending.go:71-81 | the loop over the map finds the latest start of every worktree |
| Pending.NewestIsOne | pending.go:71-81 | there is one such answer, whatever the order of the walk |
| Pending.SectionTells | requests.go:424-458 | every critical section of a tracker changes the operations exactly as it tells the mirror, and most tell it nothing |
| Pending.MirrorIsUnion | pending.go:41-58 | in every run the mirror holds exactly the operations of all the routers, each in its worktree, and no two routers share a key |
| Pending.NoLostWakeup | pending.go:60-107 | whenever what was published differs from what is pending a token, an update or the publisher is still on its way |

## Left out

- JSON, the MCP SDK, HTTP, files, locks, git, `ps`, `lsof` and process spawning: messages are abstract values, and what the system answers is a parameter or a choice of the run.
- Real time and contexts: a deadline or cancelled context is a step that may come at any moment; only the memo and the pending mirror hold clock values.
- `lane.send` as a loop with its locals: its two attempts are states of the lane's sender, because other parties act between its lines. Dialling, handshake, gate and placement on a fresh connection are one step, since nobody else knows that connection yet; the handshake loop itself is `Handshakes.Shake`.
- A claim and the control it queues (`queueCancellation`) are one step, as are a failed write's claim and the close that follows it, and the binding of a worktree and the creation of its lane; a queued control may still be dropped or acted on at any later time.
- A lane that only ever received notifications: they reach a lane that some call has created, since without a connection they are dropped.
- Admission, binding and placement of notifications, which are owed no answer and tracked nowhere.
- `placeDelivery` without an expected generation, which only direct callers use.
- Messages a server volunteers after the handshake, its questions, and answers to requests nobody made: they take no admission.
- After the session is cleared only the forwarding of answers already taken is modelled, although the readers and the control workers of `bridge.go` and `lane.go` may still act until their connections close; the theorems speak of sessions that are not cleared, or of what clearing leaves.
- Progress in time: `ProtocolRest.ComesToRest` counts steps and says nothing of time, and a dial, a handshake and a write are taken to end.
- The order in which `failInFlight` forwards its errors, which follows a map.
- The sorting of roots and of relevant names: a plan's roots are a sequence without repeats in the order of the walk, and names are in directory order.
- Rules and names as bytes: text is a sequence of characters, `utf8.ValidString` always holds, and the length limit of a rule counts characters. Patterns always compile.
- `moduleIgnoreFilters` and reading `go.mod`: the rule list is the input. Snapshots of plans (`rememberWatch`, `watchChanged`) are not modelled beyond the names they compare.
- The worktree of a directory as the memo's second level sees it after a slow lookup: an answer returned from there without being stored may be older than one lifetime, and nothing is claimed of it.
- `math.Exp2` decay: a record's aged frequency is a given value.
- A failed write of the pending file is reported and its token is spent; `Pending.NoLostWakeup` speaks of the snapshot last handed to the file.
- Hand edits of the registry, managers that crash between start and write, and a child that survives its own failed write: the last is started, never recorded, and outside what `NoOrphan` promises.
- More than one caller of Read on a connection at a time: the handshake ends before the reader starts.
- Trimming of `filepath.Base` for paths that end in slashes, in `Probe.Base`.
- Uses of a worktree that has no record, or one that is terminating, when they are flushed: they are dropped, and `Usage` speaks of the others.
- Metrics, status, log trimming, the command line, the environment and the supervisor design of LEASES.md: they would add easy members only.
