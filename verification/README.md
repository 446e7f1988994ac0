# Evident Output: a verified model

Evident Output runs a program's work as named Tasks and reports it on a terminal. The program declares
Tasks into nested Groups and Sequences, orders them with `After`, and hands each one's work to a
scheduler; a live region on the terminal shows what is running; file trees are digested to decide what is
current; an MCP server speaks over stdio. This project models the parts of that engine where a fast form
stands in for a simple meaning, and proves that the two agree.

## What is modelled

**The run scheduler** (`Outcomes`, `LedgerOrder`, `CollectionTally`, `Topology`, `Eligibility`, `WaitLists`,
`RunState`, `Placing`, `Settling`, `Failures`, `Cascades`, `Followers`, `Rest`, `Starting`, `Draining`, `Growing`,
`Declaring`, `Readings`, `Lineage`, `Tracing`, `Weaving`, `Run`). `Run.Output` is the scheduler: its methods are the engine's steps (declare, After, Define, submit, start,
finish, resolve, seal, drain, interrupt, block cycles), each keeping `Good` and `Traced`, whatever ran before:

- every submitted Task that has not started is in exactly one place: the queue, the worklist of woken Tasks, the
  caller's hand, or one wait list, under a predecessor that still reads pending;
- every collection's counters (`succeededPrefix`, `firstFailed`) are what a recount of its members gives, and its
  parked edges are in cursor order;
- what a predecessor list forgot has succeeded for good; what a started Task named has succeeded for good;
- every Sequence stopped at a step has nothing unstarted after it;
- what a Task or container names leads back, over what that names in turn, to all its container starts after and to
  every step before it, and a Task that started did so once all of that had settled (`Lineage`).

A settle that wakes others may refuse some of them; `Cascades` says who: only Tasks that named a predecessor that
reads failed (`Failures`). Each container above a settled Task is told by the incremental tally, not by a recount.

`CollectionTally.CollectionTally` is the tally, proved against a recount. `Safety` takes the steps
together as whole runs. `Readings` says what an edge to a Group reads by the Tasks below it. `DepthFirst` is
depth-first search as a function, `Cycles` the colour walk that is proved to be it over an arbitrary finite edge
function, `Waiting` the waits-for edges it is given and `Rings` what they are and what blocking their cycles does. `ProofWalk` is the search that proves a consumer ordered after a producer, and
`Provenance` what that proof is worth in a run. `Findings`, `SelfWait`, `Reopened`, `Shortcut`, `LateEntry` and
`ChordedRing` are about runs that go wrong, `NestedStep` a run of the kind `SelfWait` is about.

**The live region** (`Screen`, `Ansi`, `LivePaint`). `Screen` interprets what the driver writes as a terminal does
(CUU, EL, CR and LF of ECMA-48, fifth edition, sections 8.3.22, 8.3.41, 8.3.15 and 8.3.74, with LF also returning
the carriage); `Ansi.Ansi` is the driver, proved to leave the durable lines, then the live frame, then blanks.
`LivePaint` is the paint protocol above it, where frames snapshotted under one lock land later under another.

**The tree digest** (`Merkle`, `TreeWalk`, `TreePaths`, `LeafPool`), over an arbitrary hash: nothing is assumed of it but
its length. Two different trees with one digest yield two explicit byte strings with one hash.

**Indexes and logs that must agree with a recount** (`Census`, `Tallies`, `Children`, `Counters`, `PositionSets`,
`Filings`, `ChildIndex`, `Journal`, `Capture`): the live census, the child index with its lazy heaps and
append-only tallies against the walk of every child, the run journal's batch compaction, the evidence ring.

**MCP framing** (`Decimals`, `Framing`): the reader of both stdio framings over a buffered reader of any size,
against a parser of the whole stream and the printer.

## Results that are not what one might hope

- *The order proof holds on conditions.* `Provenance.ProofHolds`: in any state a run reaches, a producer the search
  finds before a Task that started has succeeded, if it was declared before each container above it took its
  membership and before the drain, and if what the search comes to is clean: every success there is a callback's, and
  no container there was told to start after more once a Task had started after it. `Provenance.OrderHolds` asks it of
  one way only. Without each condition the search misleads: `Provenance.LateMember` (a Task declared into a container
  whose dependents already run, in any run), `Shortcut.RUN` and `LateEntry.RUN` (states at rest where only that
  condition fails, the consumer runs and the producer is pending). `Provenance.EdgeWaitsExactly` is the exact condition
  for one edge. The comment on the search (computed_proof.go:37-41) promises it without conditions.
- *The order proof is incomplete.* `ProofWalk.ProvedExactly` says what it finds: the ways that pass through a member
  or an earlier step at the last hop alone. `ProofWalk.OrderedNotProved` is a family it misses, though
  `Provenance.OrderHolds` shows the run respects that order too.
- *A Task can wait for its own container.* A Group declared into a step its Sequence has passed becomes the
  Sequence's latest step, so the next Task declared into the Group starts after the Group itself.
  `SelfWait.NamesAroundExactly` says when a declaration names a container around it, from what can be read before
  the call. The Task is stuck exactly when that container was not sealed before the Task was declared
  (`SelfWait.HeldExactly`): then it starts in no run (`SelfWait.NeverStarts`), and otherwise the container does not wait
  for it (`SelfWait.SealedBeforeIgnores`). `NestedStep.RUN` is such a run.
- *A closed edge can read a later failure.* While a builder is pending below, the edge is open again, and a member
  declared after its cursor that fails makes it read failed. `Eligibility.LaterReadExactly` says exactly when a later
  member can be read. `Reopened.RUN` is a run that settled a Task NotStarted for one, though the edge will read succeeded
  once the builder has concluded; collection_tally.go:14-17 promises otherwise.
- *A Task on an After cycle is not always Blocked.* The search reports an edge of every cycle, but not every cycle:
  `ChordedRing.LeftOut` is a ring of three parked Tasks, each naming the next, of which two are Blocked and one is left
  for the cascade, though errors.go:49-52 and cycle.go:123-126 promise Blocked for every Task in it.
  `Rings.CaughtExactly` with `BlockedExactly` says who is Blocked, from the state before the call: who stands, on the
  way by which the search first meets some vertex, at or after something that vertex waits for. No ring survives
  (`RingsBroken`), and a ring that waits for nothing else is Blocked whole (`LoneRingsBlocked`).
- *A container sealed before its builder is Defined loses a wakeup.* `Findings.STRANDED` is such a run at rest, its
  Task 1 parked on a Group that reads succeeded; `Findings.StrandedExactly` says when a builder's conclusion leaves
  a Task so. A failure among the members, another builder below or the drain still rescues it.
- *An edge sealed during the drain wakes late.* A Task parked while draining on a membership sealed only
  afterwards stays filed to wait for every member. `Findings.LATE_SEALED` is such a run, `Findings.LateSealedExactly`
  the seal that does it, and `Rest.LateSealedPending` says when such a Task's edge still reads pending.
- Every other parked Task waits for something pending: `Rest.NoLostWakeup`. Its third exception is an edge that a
  pending builder re-opened, which reads pending unless a member failed (`Rest.HeldOpenPending`). When the builder
  returns, nobody parked on a closed edge is woken, and each reads pending again (`Rest.ReleaseKeepsClosed`).
- *A file can spell a tree.* `Merkle.FileCanSpellTree`: a file holding a tree's framing has that tree's digest, and only
  the kind byte in the parent's frame tells them apart. `Merkle.OnlyFilesSpell`: nothing else crosses kinds, unless the
  hash collides.
- *Cutting output differently can change the evidence.* `Capture.SplitExactly`: it changes nothing if and only if no
  completed line is longer than the chunk and the tail is at most one byte longer.

## Model

| member | source | states |
|---|---|---|
| Outcomes.TerminalIffDecided | internal/engine/eligibility.go:29-38 | a state decides the Tasks after it exactly when it is terminal: the two classifications cannot drift apart |
| LedgerOrder.InsertedSorted | internal/engine/ledger_order.go:56-68 | the insert keeps a sorted list sorted and adds the item and nothing else |
| LedgerOrder.InsertAfterOrder | internal/engine/ledger_order.go:61-68 | binary search and splice give the stable insert after every item of equal order |
| CollectionTally.EarliestFailedIsLeast | internal/engine/collection_tally.go:23-27 | the failed member found first in declaration order is at or before every failed one |
| CollectionTally.ReadingIsFold | internal/engine/collection_tally.go:114-138 | while the counters are current, a closed edge's constant-time reading equals the fold over the members declared through its cursor, and the has-member test is whether there are any |
| CollectionTally.FailedThroughMeans | internal/engine/collection_tally.go:128-132 | failed-through holds exactly when some member declared through the cursor failed |
| CollectionTally.SucceededThroughMeans | internal/engine/collection_tally.go:134-138 | succeeded-through holds exactly when every member declared through the cursor succeeded |
| CollectionTally.LaterMembersNeverMatter | internal/engine/collection_tally.go:14-17 | declaring or settling any member after a cursor never changes the fold through that cursor, nor whether there is a member through it |
| CollectionTally.LaterFailuresNeverMatter | internal/engine/collection_tally.go:14-17 | nor whether a member through it failed |
| CollectionTally.PartitionKeepsAll | internal/engine/collection_tally.go:66-100 | splitting the parked edges into kept and woken loses and duplicates none, and splits each by whether its own edge still reads pending |
| CollectionTally.RefreshedOk | internal/engine/collection_tally.go:66-100 | after a settle the counters are current and everybody still waiting reads pending, in cursor order |
| CollectionTally.RefreshedKeepsAll | internal/engine/collection_tally.go:66-100 | every Task that waited is either still waiting or woken, once |
| CollectionTally.DeclaredOk | internal/engine/collection_tally.go:60-64 | declaring a pending member keeps the counters current and every waiter pending |
| CollectionTally.LastReleaseWakesOpen | internal/engine/collection_tally.go:155-169 | the last release wakes everybody on the open membership if and only if the container was not already sealed, or nobody waited |
| CollectionTally.CollectionTally.Declare | internal/engine/collection_tally.go:60-64 | the tally becomes the declared tally, still current |
| CollectionTally.CollectionTally.Settle | internal/engine/collection_tally.go:66-100 | the incremental update is the recount: same counters, same waiters kept, same Tasks woken in the same order |
| CollectionTally.CollectionTally.SettleFailed | internal/engine/collection_tally.go:70-85 | the same on a failure, which wakes a suffix of the parked edges |
| CollectionTally.CollectionTally.SettleSucceeded | internal/engine/collection_tally.go:86-96 | the same on a success, which wakes a prefix of them |
| CollectionTally.CollectionTally.AdvancePrefix | internal/engine/collection_tally.go:86-89 | moving the prefix on from where it was reaches the recounted prefix |
| CollectionTally.CollectionTally.Seal | internal/engine/collection_tally.go:102-112 | sealing wakes the open waiters, once, and never while a builder holds the membership open |
| CollectionTally.CollectionTally.Park | internal/engine/collection_tally.go:140-148 | a parked edge is filed under its cursor, in order |
| CollectionTally.CollectionTally.Release | internal/engine/collection_tally.go:155-169 | one hold fewer; the last one seals or re-opens the membership and wakes who waited on it |
| CollectionTally.CollectionTally.FailBuilder | internal/engine/collection_tally.go:171-181 | a failed builder wakes everybody, open and parked |
| Eligibility.BlockerIsPending | internal/engine/eligibility.go:141-209 | the predecessor a pending reading parks on is itself pending, and is the one named or one that its container's entry leads to |
| Eligibility.DirectIsOutcome | internal/engine/eligibility.go:141-191 | a predecessor that is directly pending reads pending and blocks on itself |
| Eligibility.SucceededEdgeMeansMembers | internal/engine/eligibility.go:162-191 | a collection edge that reads succeeded means every member through its cursor succeeded |
| Eligibility.EdgeReads | internal/engine/eligibility.go:162-191 | what any collection edge reads, as a fold: over every member while a builder holds it open or nothing closed it, over those through its cursor once closed, over the entry when there are none |
| Eligibility.EntryReads | internal/engine/eligibility.go:193-209 | what a container starts after reads failed exactly when one of it does, and succeeded exactly when all of it does |
| Eligibility.LaterUnread | internal/engine/collection_tally.go:14-17 | what is declared or settled after a populated edge's cursor never changes what it reads, while no builder is pending below or once something there failed |
| Eligibility.LaterFailureRead | internal/engine/eligibility.go:92-97 | and while a builder is pending and nothing failed, one more member that fails makes it read failed |
| Eligibility.LaterReadExactly | internal/engine/eligibility.go:90-106 | so later members can change what such an edge reads exactly then |
| Eligibility.ScanSucceeds | internal/engine/eligibility.go:224-259 | a scan, to the blocker or of everything, says succeeded exactly when every predecessor reads succeeded |
| Eligibility.ScanFails | internal/engine/eligibility.go:224-259 | a scan that says failed names a predecessor that reads failed |
| Eligibility.ScanAllFindsFailure | internal/engine/eligibility.go:211-259 | a full scan fails exactly when some predecessor reads failed, even behind a pending one |
| Eligibility.ForgetsLater | internal/engine/eligibility.go:224-259 | what was forgotten stays forgettable as states move on, since terminal states never revert |
| Eligibility.ForgettingPreservesMeaning | internal/engine/eligibility.go:224-259 | the filtered predecessor list gives the same outcome and the same blocker as the full one |
| Eligibility.FoldPreds | internal/engine/eligibility.go:231-259 | one pass returns the fold and a list that forgot only succeeded Tasks |
| Settling.DecidedOk | internal/engine/settle.go:21-40 | after a terminal transition only the Task's dependents, the collections above it and the containers it gated are still owed anything |
| Settling.RecountOk | internal/engine/eligibility.go:333-340 | settling one collection's tally pays what it was owed and moves the debt one container up |
| Settling.ReleasedColOk | internal/engine/builder.go:184-207 | releasing a builder's hold on one container pays it and moves on up, also when the container was sealed already |
| Settling.StartedShrunk | internal/engine/eligibility.go:86-88 | sealing a membership after a Task started holds that Task to nothing new |
| Failures.FailedLasts | internal/engine/eligibility.go:162-209 | a predecessor that reads failed goes on reading failed however a cascade moves the rest: a membership sealed meanwhile takes every failed member, and an empty collection's entry stays failed |
| Failures.DoomedLasts | internal/engine/eligibility.go:277-298 | so whoever was refused for a failed predecessor is rightly refused at the end of the cascade |
| Cascades.RefreshedFails | internal/engine/collection_tally.go:66-100 | a settle forgets no failure of any other member |
| Cascades.SettlesHere | internal/engine/eligibility.go:333-340 | when a settle reaches a container its tally is still current for the states before, its waiters pending and the settled Task its only change: what the incremental update asks for |
| Growing.GrownOk | internal/engine/declare.go:64-110 | a new Task is counted in every container above it, and every invariant holds on for everybody already waiting or started |
| Growing.GrownColOk | internal/engine/declare.go:138-179 | a new container keeps every invariant |
| Followers.DescendantsAreBelow | internal/engine/execution.go:339-356 | the walk down a container visits exactly the Tasks below it |
| Followers.WalkCutShort | internal/engine/execution.go:322-337 | where a Sequence already stopped at or before the failed step, that Sequence and every one above it has nothing left to stop: returning early is what the memo-free walk comes to |
| Followers.WalkEnds | internal/engine/execution.go:322-337 | when the walk ends nobody after the failed Task, in any Sequence above it, is left unstarted |
| Followers.StepIs | internal/engine/execution.go:339-356 | the step of a container that holds a Task is the Task itself, or the container's own child that the Task sits in |
| Followers.FollowsExactly | internal/engine/execution.go:308-337 | a Task follows a failed one exactly when some Sequence holds the failed one in one step and it in a step declared later |
| Rest.NoLostWakeup | internal/engine/eligibility.go:277-340 | at rest every parked Task is on exactly one list, once, led there by a predecessor it still remembers, and that predecessor reads pending unless a builder holds its membership open, it was sealed during the drain, or its container was sealed before it was Defined |
| Rest.PlacedAfterDone | internal/engine/eligibility.go:277-298 | a Task whose named predecessors are all Tasks Done or Skipped is queued |
| Rest.PlacedAfterFailed | internal/engine/eligibility.go:29-38 | one that named a Task Failed, Blocked, Cancelled or NotStarted is settled NotStarted by a full scan |
| Rest.PlacedBeforeDone | internal/engine/eligibility.go:29-38 | one that named only Tasks, none of them failed and one undecided, is parked |
| Rest.PlacedUndefined | internal/engine/eligibility.go:152-160 | while draining, one that named a Task never submitted is settled NotStarted |
| Rest.RunningAfterDone | internal/engine/eligibility.go:29-38 | at rest, every Task that a running Task named is Done or Skipped |
| Rest.ParkedBeforeDone | internal/engine/eligibility.go:287-290 | and a Task that a parked one is listed under is in none of the states that decide it |
| Rest.LateSealedPending | internal/engine/eligibility.go:92-106 | the edge of such a late-sealed Task reads pending if and only if a member through the seal is undecided and none failed |
| Rest.HeldOpenPending | internal/engine/eligibility.go:92-97 | an edge a pending builder re-opened reads pending if and only if no member failed |
| Rest.ReleaseKeepsClosed | internal/engine/collection_tally.go:155-169 | the last release wakes none of those parked on closed edges, and each reads pending again through its own cursor |
| Rest.AllHalted | internal/engine/interrupt.go:41-65 | when every Task ran or was resolved, nothing is parked and the drain waits for running work alone |
| Starting.StartSecures | internal/engine/execution.go:118-136 | a predecessor that reads succeeded when a Task starts is succeeded for good, over the members it held the Task to |
| Starting.ClaimedOk | internal/engine/execution.go:118-136 | claiming a queued Task whose predecessors all read succeeded keeps every invariant |
| Starting.NobodyQueued | internal/engine/execution.go:76-88 | with the queue empty, no Task is queued |
| Safety.RunningWasStarted | internal/engine/execution.go:79-136 | over any interleaving of steps, a running Task was started by one of them: with every predecessor it has ever named reading succeeded, a slot free, and the run not cancelled |
| Safety.StartRuns | internal/engine/execution.go:113-136 | a start takes one slot, never beyond the ceiling, and shows a Task that was pending as running; nobody else's state changes |
| Safety.CeilingHolds | internal/engine/execution.go:90-117 | over any interleaving, never more claimed slots than the ceiling |
| Safety.NothingStartsCancelled | internal/engine/interrupt.go:17-39 | once cancelled, a run stays cancelled and what runs was running already |
| Run.Output.constructor | internal/engine/scheduler_state.go:10-54 | a run with nothing declared is at rest |
| Run.Output.PredsOutcome | internal/engine/eligibility.go:224-259 | the in-place filter gives the outcome and blocker of every predecessor the Task ever named |
| Run.Output.EnterPhase | internal/engine/eligibility.go:266-275 | the parked count moves with the phase |
| Run.Output.Enqueue | internal/engine/sched_queue.go:22-25 | the Task joins the queue in declaration order |
| Run.Output.Park | internal/engine/eligibility.go:287-294 | the Task joins the one wait list of its blocker: the dependents of a Task, or the edge's place in a collection |
| Run.Output.Place | internal/engine/eligibility.go:277-298 | queued if all predecessors succeeded, in particular when all are Tasks that are Done or Skipped; parked on the pending one found; settled NotStarted if one failed; all invariants kept, and either nothing was settled or fewer Tasks are unresolved |
| Run.Output.Settle | internal/engine/settle.go:21-40 | the Task is terminal and abandoned if it awaited its start; beyond it only Tasks that named a predecessor that reads failed are settled, all NotStarted; a failure that was read anywhere still is; everybody the settle decided is placed again before the step ends |
| Run.Output.Decide | internal/engine/settle.go:21-32 | the state is recorded and unstarted work gives back its hold |
| Run.Output.Abandon | internal/engine/execution.go:301-306 | submitted work that settled unstarted releases its hold on the drain and its place in the parked count |
| Run.Output.Propagate | internal/engine/eligibility.go:331-340 | the dependents and every collection above are told; whoever that refuses named a predecessor that reads failed; all invariants hold again |
| Run.Output.SettleTally | internal/engine/eligibility.go:333-340 | the incremental update of one container's tally, on the run's own state, is the recount: counters, kept waiters and woken Tasks |
| Run.Output.ConcludeGate | internal/engine/builder.go:181-207 | the builder's outcome is recorded; every container from its own up has given back one hold, told of a failure first if there was one and sealed if its own; then everybody who waited is placed again |
| Run.Output.Wake | internal/engine/eligibility.go:300-309 | woken Tasks are placed now, or left to the step that holds the wakes |
| Run.Output.Drain | internal/engine/eligibility.go:318-329 | the worklist empties however long the chain, ending because each settle leaves fewer Tasks unresolved |
| Run.Output.StopUnstarted | internal/engine/execution.go:378-385 | an unstarted Task settles NotStarted; one that started or resolved is left alone |
| Run.Output.StopFollowers | internal/engine/execution.go:339-356 | every unstarted Task in a later step of the Sequence, at any depth, is settled; beyond those only Tasks that named a predecessor that reads failed |
| Run.Output.FailSequenceFollowers | internal/engine/execution.go:322-337 | with the memo, every unstarted follower a walk of every Sequence above would stop is stopped, and beyond those only Tasks that named a predecessor that reads failed |
| Run.Output.Resolve | internal/engine/task_resolve.go:149-188 | a verb settles an unresolved Task, unless it claims Done or Skipped for work queued, parked or running; a failure of submitted work stops every Sequence step after it in the same step; anybody else settled follows it or named a predecessor that reads failed |
| Run.Output.ConcludeBuilder | internal/engine/builder.go:152-165 | a gate settles Done, or Failed if its builder panicked, with the builder's outcome recorded and its holds given back before anybody is placed |
| Run.Output.Submit | internal/engine/execution.go:14-55 | accepted once, if unresolved; settled NotStarted after an interrupt; otherwise placed by a scan of every predecessor: queued when all it named are Tasks Done or Skipped, NotStarted when one is Failed, Blocked, Cancelled or NotStarted, or while draining was never submitted, and parked when one is undecided and none of these |
| Run.Output.Head | internal/engine/sched_queue.go:27-39 | stale entries are dropped and the earliest-declared live one found; none is found only once the queue is empty |
| Run.Output.NextEligible | internal/engine/execution.go:76-88 | the queue head whose predecessors all read succeeded, placing again what lost its eligibility; none only once the queue is empty |
| Run.Output.TakeEligible | internal/engine/execution.go:90-111 | starts the earliest-declared eligible Task only below the ceiling, never once cancelled, and only with every predecessor it ever named succeeded; with a slot free and no interrupt it starts one unless nobody is left queued, and otherwise nothing changes |
| Run.Output.Claim | internal/engine/execution.go:119-136 | the phase, the running state and the start of the callback are recorded together |
| Run.Output.FinishClaimed | internal/engine/execution.go:151-166 | the slot and the hold on the drain are given back |
| Run.Output.SealCollection | internal/engine/eligibility.go:83-88 | the membership is taken as declared so far exactly when no builder at or below it is still to run, and nothing changes otherwise; while draining nobody is woken by it |
| Run.Output.Interrupt | internal/engine/interrupt.go:17-39 | only the cancellation changes |
| Run.Output.AbandonQueuedWork | internal/engine/interrupt.go:41-65 | every unstarted Task and gate is settled NotStarted, nothing stays parked, and the drain waits for running work alone |
| Run.Output.StartDrain | internal/engine/execution.go:283-293 | every list is emptied, and each Task that was parked is placed again by a scan of every predecessor, now reading undefined Tasks and empty collections as not pending: whoever named a Task that failed or was never submitted is NotStarted |
| Draining.RescanRefuses | internal/engine/execution.go:283-293 | the rescan a drain begins with refuses whoever named a Task that failed or was never submitted |
| Run.Output.CloseMembership | internal/engine/eligibility.go:67-81 | a handle on a collection with some Task below it and no builder there still to run is closed at the current declaration, and the collection sealed; any other edge is the handle and nothing changes |
| Declaring.ClosingMeans | internal/engine/eligibility.go:67-81 | a handle takes a membership as declared exactly when some Task sits below the collection and no builder there is still to run |
| Declaring.HoldsMeans | internal/engine/eligibility.go:92-97 | a container is held open exactly while a builder at or below it has not settled |
| Declaring.MembersMean | internal/engine/eligibility.go:342-348 | a tally has members exactly when some Task sits below its container |
| Readings.OpenReads | internal/engine/eligibility.go:162-191 | an edge nothing has closed reads failed once some Task below failed, and pending until then |
| Readings.ClosedReads | internal/engine/eligibility.go:162-191 | a closed one reads failed once a Task declared in time is Failed, Blocked, Cancelled or NotStarted, succeeded once all of those are Done or Skipped, and pending otherwise |
| Readings.EmptyReads | internal/engine/eligibility.go:162-209 | one closed over no Task reads what its container starts after says |
| Run.Output.After | internal/engine/eligibility.go:42-65 | refused once submitted; otherwise the handles are appended in order: one on a collection with some Task below it and no builder still to run reads those declared so far and seals it, one on a collection with no Task below it, or with a builder still to run afterwards, stays the handle |
| Run.Output.AppendStepPreds | internal/engine/sequence.go:65-74 | the next step's predecessors are appended in order, and each collection among them with some Task below it and no builder still to run is sealed |
| Run.Output.JoinPassedSequences | internal/engine/sequence.go:89-108 | what is declared into a step a Sequence already passed starts after that Sequence's latest step, at every depth, and after nothing else beyond what it was given: every Sequence joined holds the container in a step that is sealed and not its latest |
| Run.Output.RecordSteps | internal/engine/sequence.go:76-84 | exactly the Sequences named take the new step as their latest |
| Run.Output.TallyDeclared | internal/engine/eligibility.go:342-348 | the Task is counted in every collection above it and in no other |
| Run.Output.StopIfFollower | internal/engine/execution.go:365-376 | a Task declared after a failure stopped its step is settled at once, and any other is untouched |
| Run.Output.DeclareTask | internal/engine/declare.go:64-110 | the Task takes the next declaration; it starts after the step before it and after every Sequence that passed its step, and after nothing else; only those Sequences take it as latest step; what was sealed meanwhile was sealed as declared by now; it is terminal exactly when its step was already stopped |
| Run.Output.DeclareContainer | internal/engine/declare.go:138-179 | the same for a container, whose own entry holds those edges and whose tally is empty |
| Run.Output.ContainerAfter | internal/engine/builder.go:34-68 | refused once the container has a builder, a Task or a container of its own; otherwise its entry grows by the handles, each closed as After closes it |
| Declaring.UndefinedMeans | internal/engine/builder.go:34-68 | a container may still be told to start after more, or be given a builder, exactly while no builder was Defined for it and no Task or container is declared into it |
| Run.Output.DefineBuilder | internal/engine/builder.go:98-150 | a gate is declared that starts after what the container starts after, every container above is held open, sealed or not, and the gate is placed or, after an interrupt, refused |
| Run.Output.BlockCycles | internal/engine/cycle.go:123-160 | every reported cycle is a closed walk of waits-for edges reachable from a parked Task, and none is reported exactly when none is reachable; an unresolved Task becomes Blocked exactly when the search catches it, before any wake cascades; of every ring of parked Tasks, each naming the next, two neighbours are Blocked, and all of them when they wait for nothing else |
| Rings.TaskWaits | internal/engine/cycle.go:24-42 | a parked Task waits for what it ever named that reads pending, Tasks and containers alike, and no other Task waits for anything |
| Rings.EmptyWaits | internal/engine/cycle.go:43-51 | a container with no Task below it waits for what it starts after and reads pending |
| Rings.PopulatedWaits | internal/engine/cycle.go:52-60 | a populated one waits for its own Tasks not yet resolved and its own containers that read pending |
| Rings.RingCaught | internal/engine/cycle.go:123-149 | of every ring of parked Tasks, each naming the next, some Task and the next are on one reported cycle |
| Rings.LoneRingCaught | internal/engine/cycle.go:123-149 | and all of them when they wait for nothing else |
| Rings.CaughtExactly | internal/engine/cycle.go:62-99 | a Task is on a reported cycle exactly when, on the way by which the search first met some vertex, it stands at or after something that vertex waits for |
| DepthFirst.SearchCloses | internal/engine/cycle.go:62-121 | the cycles the search reports are those its ways close, no less and no more |
| DepthFirst.ReportedExactly | internal/engine/cycle.go:62-121 | the same for any vertex of any finite graph |
| Cycles.EachMeets | internal/engine/cycle.go:62-99 | when the finishing order follows no edge forward but those that close a reported cycle, every cycle a root leads into has such an edge |
| Cycles.CycleThrough | internal/engine/cycle.go:109-121 | the end of the path from the vertex met again is a closed walk, and it is the cycle the search reports |
| Cycles.NoneReachable | internal/engine/cycle.go:62-99 | with no cycle reported, no root leads into one |
| Cycles.WalkRoot | internal/engine/cycle.go:76-97 | the loop over the explicit path does what the search does from its root, and ends because each turn visits a vertex or uses up an edge left on the path |
| Cycles.DependencyCycles | internal/engine/cycle.go:62-99 | for any finite edge function the loop is the depth-first search: every cycle reported is one, every cycle a root leads into has an edge that closes a reported one, and none is reported if and only if there is none |
| Waiting.WaitsGraph | internal/engine/cycle.go:24-60 | the waits-for edges of a run stay among its Tasks and containers |
| Waiting.CycleTasksParked | internal/engine/cycle.go:24-60 | every Task on a waits-for cycle is parked |
| ProofWalk.OrderedAfter | internal/engine/computed_proof.go:37-51 | true if and only if the producer is reached over declared After edges, container entries, membership and earlier Sequence steps, on cyclic graphs too |
| ProofWalk.OrderedPlainly | internal/engine/computed_proof.go:37-41 | a Task is ordered after what it names, after every Task below a container it names, after every earlier Task of its own Sequence, and after whatever comes before what it names or sits in |
| ProofWalk.ContainerOrderedPlainly | internal/engine/computed_proof.go:74-87 | the same for a container |
| ProofWalk.Search.Task | internal/engine/computed_proof.go:60-72 | found means proved; not found means nothing the Task leads to proves it, given what was marked before |
| ProofWalk.Search.Col | internal/engine/computed_proof.go:74-87 | the same from a container up to the root |
| ProofWalk.Search.Preds | internal/engine/computed_proof.go:89-99 | the same over a list of declared predecessors |
| ProofWalk.Search.SequenceStepBefore | internal/engine/computed_proof.go:101-109 | whether a Sequence holds the producer in a step declared earlier |
| ProofWalk.Search.StepDeclaration | internal/engine/computed_proof.go:111-123 | the declaration of the step that holds the producer, or zero |
| ProofWalk.Search.ContainsTask | internal/engine/computed_proof.go:125-133 | membership at any depth |
| ProofWalk.ProvedExactly | internal/engine/computed_proof.go:60-99 | the search finds the producer if and only if some way of the order to it is made of declared edges but for its last hop |
| ProofWalk.OrderedNotProved | internal/engine/computed_proof.go:74-99 | a family of producers that are ordered before and not found: those a member of the named container waits for |
| ProofWalk.ThroughMemberHappens | internal/engine/computed_proof.go:74-99 | three declarations make such a run |
| Lineage.SucceededIsFirm | internal/engine/eligibility.go:162-209 | a predecessor that reads succeeded has succeeded at every remove through what is clean: what its members, or its entry when it is empty, started after has too |
| Lineage.MemberInherits | internal/engine/eligibility.go:171-172 | a member of a container, at any depth, starts after what the container starts after, by way of what else sits in it |
| Tracing.TracedStart | internal/engine/execution.go:118-136 | a Task starts only once everything it starts after, at every remove, has settled |
| Tracing.TracedKept | internal/engine/eligibility.go:231-259 | no step that declares nothing undoes that |
| Weaving.LatestAdded | internal/engine/sequence.go:48-108 | after a declaration a Sequence's latest step still starts after every other step of it, also one that joined from inside an earlier step |
| Weaving.TaskTraced | internal/engine/declare.go:90-97 | a Task or a gate declared starts after all it should, and changes nothing for whoever started |
| Weaving.NamedTraced | internal/engine/eligibility.go:42-65 | a Task not yet submitted may name more: nobody who started starts after it |
| Weaving.EntryTraced | internal/engine/builder.go:34-60 | a container may be told to start after more; if a Task may have started after it, that container is put on record |
| Provenance.ProofHolds | internal/engine/computed_proof.go:37-41 | in any state a run reaches, whoever the search proves before a Task or gate that started has succeeded, if declared in time and if what the search comes to is clean |
| Provenance.OrderHolds | internal/engine/computed_proof.go:37-41 | and so has whoever any way of the order leads to, when what the way passes through is clean and the Tasks it meets inside containers were declared in time |
| Provenance.EdgeWaitsExactly | internal/engine/eligibility.go:175-191 | a closed edge's success implies a member's if and only if the member was declared through its cursor |
| Provenance.ProofIgnoresCursor | internal/engine/computed_proof.go:89-99 | a member declared after an edge closed is still proved, though the edge reads succeeded whatever that member does |
| Provenance.LateMember | internal/engine/computed_proof.go:89-99 | in any run, declaring a Task into a container whose dependent already runs makes the search prove it settled before that dependent, and it has not |
| Shortcut.RunGood | internal/engine/task_resolve.go:149-188 | a run whose program reported a success for a Task that never ran satisfies every invariant |
| Shortcut.RunTraced | internal/engine/computed_proof.go:60-72 | and what its started Task starts after is on record |
| Shortcut.Misleads | internal/engine/computed_proof.go:60-72 | its Task 2 runs, the search proves Task 0 settled before it, and Task 0 is pending; no other condition fails |
| LateEntry.RunGood | internal/engine/builder.go:34-60 | a run that told a container to start after more, once a Task had started after it, satisfies every invariant |
| LateEntry.RunTraced | internal/engine/computed_proof.go:74-87 | and what its started Task starts after is on record |
| LateEntry.Misleads | internal/engine/computed_proof.go:74-87 | its Task 0 runs, the search proves Task 1 settled before it, and Task 1 is pending; no other condition fails |
| Reopened.RunGood | internal/engine/eligibility.go:92-97 | a run with a closed edge a pending builder re-opened satisfies every invariant |
| Reopened.Refused | internal/engine/collection_tally.go:14-17 | its Task 1 is settled NotStarted for a member declared after the edge closed, and the edge reads succeeded once the builder gave back its hold |
| SelfWait.NamesAroundExactly | internal/engine/sequence.go:48-108 | what is declared into a container names one around it exactly when what the container's next step starts after does, or a Sequence above has passed its step and its latest step is one |
| SelfWait.HeldExactly | internal/engine/eligibility.go:83-106 | edges to a container named while empty wait for a Task declared now exactly when the container was not sealed before |
| SelfWait.NeverReads | internal/engine/eligibility.go:162-191 | such a Task never reads succeeded while it names a container it sits in |
| SelfWait.SealedBeforeIgnores | internal/engine/eligibility.go:83-106 | a container sealed before a Task was declared reads the same whatever that Task does |
| SelfWait.NeverStarts | internal/engine/sequence.go:91-108 | in no run does a Task stuck behind its own container ever start |
| NestedStep.RunGood | internal/engine/sequence.go:91-108 | a run with such a Task satisfies every invariant |
| NestedStep.RunTraced | internal/engine/sequence.go:91-108 | with everything it declared on record |
| NestedStep.RunStuck | internal/engine/sequence.go:91-108 | its Task 2 is parked on Group 2, which it sits in, and stuck |
| ChordedRing.RunGood | internal/engine/cycle.go:123-149 | a run with a ring of three parked Tasks and a chord satisfies every invariant |
| ChordedRing.RunTraced | internal/engine/cycle.go:123-149 | and what its Tasks start after is on record |
| ChordedRing.SearchFinds | internal/engine/cycle.go:62-99 | the search reports one cycle of it, which leaves Task 2 out |
| ChordedRing.LeftOut | internal/engine/errors.go:49-53 | so once its cycles are blocked Tasks 0 and 1 are Blocked and Task 2, on a cycle with them, is not |
| ChordedRing.RingBlockedExactly | internal/engine/errors.go:49-53 | a ring is Blocked whole if and only if the search catches each of its Tasks |
| Findings.StrandedGood | internal/engine/collection_tally.go:102-112 | the run with a stranded Task satisfies every invariant |
| Findings.StrandedReads | internal/engine/collection_tally.go:155-169 | its Task 1 is parked on a Group that reads succeeded |
| Findings.StrandedExactly | internal/engine/collection_tally.go:155-169 | a concluded builder leaves a Task so if and only if it declared its children, its container was sealed already, and no other builder below is pending |
| Findings.LateSealedGood | internal/engine/eligibility.go:90-106 | the run with a late-sealed edge satisfies every invariant |
| Findings.LateSealedReads | internal/engine/eligibility.go:90-106 | its Task 1 waits for a later member, though what it reads has succeeded |
| Findings.LateSealedExactly | internal/engine/eligibility.go:83-106 | a seal does this to a Task if and only if the run drains, the seal is taken, and the Task is parked on the membership through a handle named while empty |
| Screen.RunAppend | terminal/ansi.go:238-247 | what is written in pieces reads on the terminal as written at once, when no piece ends inside a control sequence |
| Screen.RunLine | terminal/ansi.go:290-299 | a line that fits, styles and all, shows its text at the end of its row |
| Ansi.RegionGrows | terminal/ansi.go:290-299 | moving down from the region's last row may scroll the screen and never scrolls the region off it |
| Ansi.RunDurable | terminal/ansi.go:184-200 | a text and its last newline add its lines to the durable ones and leave the cursor on a fresh row |
| Ansi.Ansi.constructor | terminal/ansi.go:73-86 | a new driver shows nothing |
| Ansi.Ansi.EraseLive | terminal/ansi.go:267-288 | whatever the height of the live frame, the screen is left with the durable lines alone and the cursor below them |
| Ansi.Ansi.WriteFrame | terminal/ansi.go:290-299 | the frame is shown below the durable lines with the cursor on its last row |
| Ansi.Ansi.WriteLive | terminal/ansi.go:148-166 | the screen is the durable lines and the new frame, whatever the heights of the frames before |
| Ansi.Ansi.ClearLive | terminal/ansi.go:168-182 | the frame is gone, the durable lines stay, the cursor shows |
| Ansi.Ansi.WriteDurable | terminal/ansi.go:184-200 | the lines join the durable ones where the frame was |
| Ansi.Ansi.WriteFinal | terminal/ansi.go:202-215 | the same for the final text, with the cursor restored |
| LivePaint.NewestWins | internal/engine/live_paint.go:81-103 | in whatever order paints land, the newest frame not superseded is what stays |
| LivePaint.PaintOrderDoesNotMatter | internal/engine/live_paint.go:81-103 | two orders of the same paints leave the same screen |
| LivePaint.ClearIsFinal | internal/engine/live_paint.go:105-120 | a clear is never undone by a paint in flight |
| LivePaint.LiveEngine.Snapshot | internal/engine/live_paint.go:26-43 | each frame takes the next sequence number |
| LivePaint.LiveEngine.Paint | internal/engine/live_paint.go:81-103 | a superseded frame writes nothing; any other is on screen afterwards, even when the same text was not written again |
| LivePaint.LiveEngine.Clear | internal/engine/live_paint.go:105-120 | the region is empty and every frame snapshotted so far is superseded |
| LivePaint.LiveEngine.Durable | internal/engine/live.go:465-478 | the line is above whatever frame comes next |
| Merkle.UvarintPrefixFree | internal/checksum/tree.go:183-202 | no length's encoding is the start of another's |
| Merkle.FrameReadsBack | internal/checksum/tree.go:183-202 | kind, length, name and digest are read back in one way, whatever follows |
| Merkle.FramesReadBack | internal/checksum/tree.go:183-202 | equal framings list the same kinds, names and digests |
| Merkle.Binding | internal/checksum/tree.go:183-202 | for any hash, two different trees with equal digests yield two different byte strings with equal hashes |
| Merkle.EntryBinding | internal/checksum/tree.go:163-202 | the same for one entry of each kind |
| Merkle.FileCanSpellTree | internal/checksum/tree.go:163-202 | for every tree and link there is a file with its digest, and only the parent's frame tells them apart |
| Merkle.OnlyFilesSpell | internal/checksum/tree.go:163-202 | two entries of different kinds with one digest are a file that opens with a tag and spells the other, or exhibit a collision |
| Merkle.Combine | internal/checksum/tree.go:183-202 | the running hash over the children in turn is the hash of their framing |
| TreeWalk.PruneSorted | internal/checksum/tree.go:104-126 | pruning a listing and sorting it come to the same in either order |
| TreeWalk.WalkIsPrune | internal/checksum/tree.go:86-153 | walking with an exclusion is walking the tree with excluded entries and in-flight stages cut out at every depth, including what fails |
| TreePaths.WalkTrails | internal/checksum/tree.go:104-153 | an entry is in what the walk returns exactly when the tree has it there and neither its path nor that of a directory above it is excluded, or is a directory's or regular file's with a stage name |
| TreePaths.WalkFails | internal/checksum/tree.go:104-153 | the walk fails exactly when some entry so kept cannot be read |
| TreePaths.WalkSameExactly | internal/checksum/tree.go:128-141 | two trees read the same exactly when they differ in nothing but what is left out |
| TreePaths.ExcludedNeverMatters | internal/checksum/tree.go:128-141 | so changing, adding or removing what is excluded, or making it unreadable, leaves the digest |
| TreeWalk.LessExactly | internal/checksum/tree.go:115 | one name sorts before another when it is a proper start of it or has the smaller byte where they first differ |
| TreeWalk.ListingOrder | internal/checksum/tree.go:104-126 | the walk does not depend on the order directories list their entries in, at any depth |
| TreeWalk.SameDigest | internal/checksum/tree.go:86-102 | two trees on disk with one digest read the same or exhibit a collision |
| TreeWalk.List | internal/checksum/tree.go:104-153 | the loop over the sorted entries returns the walk's children, or fails as it does |
| LeafPool.OrderDoesNotMatter | internal/checksum/leafpool.go:22-57 | over every interleaving of the walk and its leaves, cancelled ones included, the walk fails exactly when it meets a leaf, listing or link that cannot be read, and otherwise every leaf's digest is in its own node |
| LeafPool.BadIsUnread | internal/checksum/tree.go:104-153 | what the walk meets is bad exactly when the tree cannot be read |
| LeafPool.CombinedIs | internal/checksum/tree.go:183-202 | combining over the nodes is the framing of the tree read, when every leaf's digest is in its node |
| LeafPool.WalkIsTreeDigest | internal/checksum/tree.go:86-102 | the whole walk, in every interleaving, fails exactly when the tree cannot be read and otherwise gives its digest |
| LeafPool.FailureFound | internal/checksum/leafpool.go:42-49 | a failure is kept exactly when some leaf that returned failed |
| LeafPool.LeafPool.Schedule | internal/checksum/leafpool.go:22-40 | a leaf takes a slot, or is dropped only once the walk failed |
| LeafPool.LeafPool.Finish | internal/checksum/leafpool.go:30-49 | the digest lands in its own node and the first failure is kept |
| LeafPool.LeafPool.Wait | internal/checksum/leafpool.go:51-57 | the first failure of a leaf, and none exactly when every leaf that returned gave a digest |
| Census.RecountMoves | internal/engine/live_census.go:95-119 | moving one Task's state, stamp or warning by deltas is recounting everything, in the containers above it, and changes no other container's recount |
| Census.RecountMeans | internal/engine/live_census.go:47-62 | each count is the number of Tasks at or below the container in the states it is named for, and likewise for warned and unpainted ones |
| Census.LiveCensus.Declare | internal/engine/live_census.go:77-93 | every collection's census is the recount of the Tasks at or below it, with the new one |
| Census.LiveCensus.Move | internal/engine/live_census.go:95-106 | the same after a transition |
| Census.LiveCensus.StampFirstSeen | internal/engine/live_census.go:108-114 | the same after a first paint |
| Census.LiveCensus.WarnFirst | internal/engine/live_census.go:116-119 | the same after a first warning |
| Tallies.ReasonsInFirstOrder | internal/core/tally.go:8-15 | Reasons are listed in the order of their first records |
| Tallies.ReasonsOnce | internal/core/tally.go:8-15 | each recorded Reason is listed exactly once and no other is |
| Tallies.PartsSum | internal/core/tally.go:8-15 | the reason parts always sum to the headline total |
| Tallies.Tally.AddItem | internal/core/tally.go:45-66 | the indexed in-place update is the tally of the records so far: order, names, Facts aligned once any are known, causes and total |
| Tallies.Tally.Clone | internal/core/tally.go:84-112 | a copy of the same tally that later records do not reach |
| Children.MergeIsAppend | internal/core/child_tally.go:59-70 | merging two counts is counting both lists |
| Children.CountTasks | internal/core/child_tally.go:72-79 | the loop is the fold |
| Children.CountedMeans | internal/core/child_tally.go:26-56 | the total, how many are Done or Skipped, and whether some Task is running, pending or not yet terminal |
| Children.CountedBounds | internal/core/child_tally.go:26-56 | the earliest stamp there is, or none, and the widest name |
| Children.ShownExactly | internal/render/live/live_projection.go:89-114 | a position is among those a frame could show exactly when few enough of its kind come before it: at most the frame's rows of items, or of others, or fewer than that of the same rank, for the ranks that claim attention |
| Children.Dispositions.AddTask | internal/core/tally.go:135-144 | both tallies move on by the Task's own records, in order |
| Children.LiveChildren.Admit | internal/render/live/live_projection.go:89-114 | the counters decide exactly whether the child is among the first of its kind or of its attention rank, and the roster counts it |
| Children.WalkChildren | internal/engine/live_index_audit_internal_test.go:20-30 | the walk of every child yields the positions a frame could show and the roster of all |
| Counters.ChildCounters.Add | internal/engine/child_counts.go:20-27 | the counters count exactly the filed Tasks, with the new one |
| Counters.ChildCounters.Remove | internal/engine/child_counts.go:29-42 | the same without it: the widest name survives a removal |
| Counters.CountersAreWalk | internal/engine/child_counts.go:60-68 | counters filed as the Tasks are read as CountTasks does over them |
| Counters.StateCounts.Move | internal/engine/child_counts.go:76-98 | the state counts count exactly the filed Tasks |
| Counters.FoldIsVerdict | internal/engine/child_counts.go:100-106 | the counted verdict is the verdict folded over every Task |
| Children.VerdictMeans | internal/engine/child_counts.go:100-106 | each part of the verdict says whether some Task is in the states it is named for |
| Counters.SeenHeap.Earliest | internal/engine/child_counts.go:130-141 | whatever stale entries are left behind, the earliest stamp of a Task still in the set, or zero; no live entry is discarded |
| PositionSets.AppendFirst | internal/engine/position_set.go:113-119 | the k smallest members are appended, and nothing else |
| ChildIndex.Collection.MarkFiling | internal/engine/child_index.go:63-73 | a marked Task is listed for refiling, once |
| ChildIndex.Collection.FileItem | internal/engine/child_index.go:171-181 | an item after every item is appended to the tally, any other marks it stale |
| ChildIndex.Collection.File | internal/engine/child_index.go:115-147 | the Task is entered in every set, count, heap and list it belongs in |
| ChildIndex.Collection.Unfile | internal/engine/child_index.go:149-169 | and taken out of every one |
| ChildIndex.Collection.Refile | internal/engine/child_index.go:88-108 | the index counts the Task as it now reads, also when nothing it counts changed |
| ChildIndex.Collection.Settle | internal/engine/child_index.go:75-86 | every Task is filed as it reads |
| ChildIndex.Collection.Declare | internal/engine/declare.go:91-97 | a new Task is marked and nothing else is refiled |
| ChildIndex.Collection.Change | internal/engine/child_index.go:63-73 | after any change that is marked, the index is still settled by the next read |
| ChildIndex.Collection.ItemTally | internal/engine/child_index.go:183-193 | appended or rebuilt, the items' tally is that of every item in declaration order, as a copy |
| ChildIndex.Collection.Project | internal/engine/child_index.go:207-228 | the positions and the roster are those of the walk of every child |
| ChildIndex.Collection.StampDirectTasks | internal/engine/child_index.go:195-205 | exactly the live Tasks no frame had painted are stamped |
| ChildIndex.Collection.LiveSnapshot | internal/engine/snapshot.go:285-299 | a frame from the index is the frame a walk of every child builds |
| ChildIndex.Collection.Verdicts | internal/engine/snapshot.go:124-227 | the verdict, the all-not-started and the warned-or-failed tests equal their folds over every Task |
| Filings.FramesAgree | internal/engine/child_index.go:207-219 | the first of each set, sorted and compacted, are the positions the walk admits |
| Journal.RetainedTwice | internal/engine/journal.go:43-73 | compact(compact(s) + t) == compact(s + t) |
| Journal.EagerIsRetained | internal/engine/journal.go:25-35 | evicting at every append retains what one compaction of the whole history does |
| Journal.RetainedFits | internal/engine/journal.go:43-73 | never more than the limit, and nothing dropped within it |
| Journal.Survives | internal/engine/journal.go:43-84 | an event of a run's start or end, or of a Task that failed or was blocked, is retained exactly when fewer than the limit of those kinds come after it; any other exactly when fewer of the others come after it than the room those leave |
| Journal.KeptIncreasing | internal/engine/journal.go:25-41 | sequence numbers stay strictly increasing |
| Journal.DropIsKeep | internal/engine/journal.go:43-73 | dropping the oldest of each class is keeping the newest of each |
| Journal.Journal.Append | internal/engine/journal.go:25-35 | the event takes the next sequence number, the history grows by it, and the buffer stays within twice the limit |
| Journal.Journal.Snapshot | internal/engine/journal.go:37-41 | a reader gets compact(whole history), strictly increasing |
| Journal.Journal.Compact | internal/engine/journal.go:43-73 | one pass in place leaves what the history retains |
| Capture.LongestIs | internal/engine/capture.go:488-519 | the retained lines are the longest suffix within both limits |
| Capture.LongestAppend | internal/engine/capture.go:488-519 | evicting as lines arrive leaves what evicting from all of them would |
| Capture.SplitWrites | internal/engine/capture.go:219-248 | cutting the same bytes into Writes differently changes nothing, when no completed line is longer than the chunk and the tail at most one byte longer |
| Capture.SplitExactly | internal/engine/capture.go:219-248 | and otherwise some cut does |
| Capture.Evidence.Write | internal/engine/capture.go:219-248 | the completed lines join the ring in order, the rest stays pending on its own stream |
| Capture.Evidence.FlushPending | internal/engine/capture.go:488-519 | the pending line is completed, numbered and retained, with the byte count and the truncation flag true |
| Capture.Evidence.Keep | internal/engine/capture.go:507-518 | the ring is the longest suffix that fits, and truncation is set exactly when a line was dropped |
| Capture.Evidence.Close | internal/engine/capture.go:250-276 | every partial line is completed, in stream order |
| Decimals.DecimalReads | cmd/evident-output-mcp/main.go:627-629 | a printed length reads back as itself |
| Framing.BufReader.ReadSlice | cmd/evident-output-mcp/framing.go:88-124 | a slice is up to the delimiter, a full buffer, or what is left |
| Framing.BufReader.SkipBlankLines | cmd/evident-output-mcp/framing.go:34-45 | blank bytes before a message are skipped, and the end of the stream reported |
| Framing.BufReader.ReadNDJSONFrame | cmd/evident-output-mcp/framing.go:88-114 | the line, or too large with the rest of it skipped, whatever the buffer's size |
| Framing.BufReader.DiscardLine | cmd/evident-output-mcp/framing.go:116-124 | the stream is left at the next line |
| Framing.BufReader.ReadContentLengthFrame | cmd/evident-output-mcp/framing.go:47-86 | after a leading Content-Length header, in any case, other headers in any order, the body, or too large with the body skipped; any other line that starts with a C comes back as a broken message of the other framing |
| Framing.BufReader.ReadMessage | cmd/evident-output-mcp/framing.go:15-32 | the next message is the parse of the stream, independent of the buffer's size |
| Framing.Writer.WriteFramed | cmd/evident-output-mcp/main.go:618-642 | the message is printed in the current framing |
| Framing.LineReadsBack | cmd/evident-output-mcp/framing.go:88-114 | a printed line is read back whole, or answered as too large, with the next frame intact |
| Framing.FrameReadsBack | cmd/evident-output-mcp/framing.go:47-86 | the same for a printed Content-Length frame |
| Framing.HeadedFrameReadsBack | cmd/evident-output-mcp/framing.go:47-86 | a Content-Length frame with any further headers, ended by a blank line of either kind, reads back as one without, with the next frame intact |
| Framing.RoundTrip | cmd/evident-output-mcp/framing.go:15-124 | any mixture of the two framings is read back in order, and what follows is untouched |
| Framing.ReadAll | cmd/evident-output-mcp/framing.go:15-32 | so reads a loop over a reader of any buffer size, ending at the end of the stream |

## Left out

- Run.Output.ContainerAfter: takes only predecessors declared before the container. The engine does not check it; with a later one, reading an entry need not end.
- Run.Output.After: whether a later handle of one call is closed is claimed when no builder was pending before the call, or one is after it; naming the handles before it can settle a builder in between.
- Rest.NoLostWakeup: the exact predecessor is claimed when no builder is pending below it; while one is, a closed edge reads as open. The two other exceptions are the engine's, as `Findings` shows.
- ProofWalk.OrderedAfter: states what the search finds; what that is worth is stated by `Provenance.ProofHolds`, on conditions the comment on the search does not make.
- Provenance.ProofHolds: takes After handles as declared in this run and named without a cursor, as the engine's handles are.
- Run.Output.StartDrain: the wait for running work and the sweep at Finish that resolves leftovers are not modelled.
- ChildIndex.Collection.Change: takes a stamp that stays once set, as the engine's stamping does. A stamp taken back and set again could be missed by the heaps.
- Ansi.Ansi.WriteLive: frames fit the screen and no line is wider than it; short writes, resizing and write errors are not modelled.
- Framing.BufReader.ReadMessage: a message is bytes from `{` to `}` with no newline; JSON itself and the write mutex are not modelled.
- Merkle.Combine: builds the digests as values, so the in-place update of each node's digest is not captured.
- TreeWalk.List: works on a file tree as a value; races with a changing disk are not modelled.
- The scheduler's fields are one record, replaced by each method, so aliasing between Tasks' own structures is not captured.
- The ready queue is a sorted list in place of a heap, and the position set a finite set in place of its bit tree; both give the same order.
- Woken Tasks are appended as they are collected, and a Sequence's latest step is recorded at the end of a declaration; no other step can come between.
- Duplicate and rejected declarations, the entity limit, and the width of the declaration counter: errors that add only easy branches.
- Waits that donate their goroutine, the stall resolver, the sealing of inputs the run proved final, Confirm gates and the active row a cancel picks: the scheduler's surroundings.
- The rule that a success over a recorded Problem settles Failed, and the text of proposals a callback ratifies: the state a verb asks for is a parameter.
- Goroutine identity, stack marks and frame markers: runtime introspection.
- Derived states of nested collections beyond one collection's own Tasks, collection projection and flattened row names.
- Normalising, redacting and mirroring captured lines: the normaliser is an arbitrary function of a line. Reading the text of one stream back is not modelled.
- Wire events, snapshots' remaining fields, clocks, spinner cadence and visibility delay.
- Unicode: names and lines are sequences of characters of width one, and header names fold case in ASCII only.
- Files, subprocesses, manifests, installers, the MCP tool handlers, renderers and the conclusion: foreign calls and shallow branching.
- Liveness beyond the cascade and the walks: whether every run finishes depends on the stall resolver, which is not part of this model.
