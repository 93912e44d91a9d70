# A verified model of the graph executor, its contract and its nodes

This project models the parts of the repository whose behaviour is hardest to see from one function, and proves what they
promise over every input, every schedule and every run.

- **Graph structure** (`Structure.dfy`, `Reach.dfy`, `Validation.dfy`): what makes a shape a structure, the worklist that
  decides reachability, the canonical order, and the checked evaluation of an edge.
- **Executor** (`Machine.dfy`, `Executor.dfy`): the slots, the phase, the failures and the message loop, proved to be an
  abstract machine of a state and a set of active nodes that moves by applied `Result`s only; the order in which a run reads
  and triggers the token, offers checkpoints and hands over; and chains of runs, crashes and resumes, proved to be one run.
- **Cancel token** (`Waiters.dfy`, `Cancel.dfy`, `CancelTree.dfy`): the tree protocol with every mutex section as one
  action, interleaved freely; and the code of the calls, proved to be runs of that protocol.
- **Instance channel** (`Instance.dfy`): the input queue, the gate, the terminal event and the three kinds of wakers, under
  every interleaving of both sides.
- **Map-reduce** (`MapReduce.dfy`): bounded concurrency with arbitrary scheduling, and a result that does not depend on it.
- **Agent loops** (`AgentWorker.dfy`, `GeneratorCritic.dfy`, `React.dfy`): fallback, steps, passes and drains, with a
  journal of what was done and the laws every journal obeys although a drain may reset the counters.
- **Conversation, session, inbox, boundary** (`Conversation.dfy`, `Session.dfy`, `Inbox.dfy`, `Boundary.dfy`): the local
  copy and the store, paging and the queue, and storing once what is delivered at least once.
- **Occurrences and maps** (`Occurrence.dfy`, `FanOut.dfy`): the written form of an occurrence and its parser, and a map
  over recorded items that a resume does not run again.

`Prelude.dfy` holds the shared vocabulary. A class stands where the source updates fields in place, with one method for each
method of the source (a long one is cut at its steps); each such method is proved against a function or a relation, and the
lemmas are about those. What the source leaves to somebody else (the host that triggers a token, an instance that closes its
input, a sink, a model, a critic, a store or an inbox that fails, an interruption) is a parameter, a function of how far the
run is, so that what the code makes of each answer is fixed; the scheduler alone is an arbitrary choice inside a method.

## What the proofs assume

- A state that serializes rebuilds to an equal state, and applying an update and evaluating an edge are deterministic. This
  is what the repository's README leaves to the implementer (README.md:107).
- Instance ids are fresh.
- The rules of br-llm-messages are a function that allows or refuses a change; entry ids and turn ids are never reused.
- Atomic loads and stores are sequentially consistent.
- An internal instance of a map-reduce, while the cancel token is untriggered, ends by an event of its own that is fixed by its
  position; once it is triggered, anything may come.
- The bodies of a map are deterministic: an item run again on the same value gives the same updates.
- Fewer than 2^64 registrations are made in a run of the cancel protocol, and fewer than 2^64 polls of a drop watch in one of
  an instance channel: the key counter wraps there, and two waiters could then share a slot.

## Where code and documentation part

- `RunFailed` is not always "the executor triggered the token first" (README.md:206). `fail` reads the token and then
  triggers it (crates/br-graph-executor/src/run/stopping.rs:48-60); when the host triggers in between, the host was first
  and the outcome is still `RunFailed`. `Executor.FailedByAnUntriggeredRead` says exactly when, over every run: `RunFailed` if
  and only if a failure read an untriggered token; and in such a run the executor was first if and only if the host did not
  trigger between that read and the executor's own trigger. `Executor.HostFirstYetRunFailed` is the history that shows it.
- The store's open objects are not always exactly those the session tracks: an id open both as a response and as a result
  names one object in the in-memory store. Starting from agreement, discarding a response keeps it if and only if the id is
  not tracked as a result; completing one keeps it if and only if that, or the id is not tracked as a response and the rules
  refuse the response, for then nothing is ended; and the other way round. `Sessions.OneIdUnderBothKinds` is the smallest
  case. That nothing open is untracked, and that every ending leaves nothing open, holds always.
- `OccurrenceKey::parse` accepts an index with zeros in front, which no key is written with: an accepted text is what its key
  is written as if and only if no index has one.

## Model

| member | source | states |
|---|---|---|
| Structure.FirstUndeclaredMeans | crates/br-graph-contract/src/graph/evaluate.rs:5-40 | the target that is reported as undeclared is the first one returned that the edge does not declare, and there is none exactly when all are declared |
| Structure.ChooseMeansReturned | crates/br-graph-contract/src/graph/evaluate.rs:5-40 | an evaluation succeeds if and only if the edge answers, answers something, declares all of it and does not mix END with nodes; the result then has exactly the returned targets, each once; of the errors, failed is a broken edge, empty an empty answer, mixed END beside a node, and undeclared names the first target not declared |
| Structure.PickedKeepsOrder | crates/br-graph-contract/src/graph/evaluate.rs:5-40 | the targets of an evaluation come in the order in which the edge declares them |
| Structure.Mark | crates/br-graph-contract/src/graph/evaluate.rs:14-31 | the marking loop finds the first undeclared target, or marks exactly the returned positions |
| Structure.EvaluateEdge | crates/br-graph-contract/src/graph/evaluate.rs:5-40 | the code with its marks computes the evaluation that the lemmas above are about |
| Reach.Flood | crates/br-graph-contract/src/graph/reach.rs:52-70 | the worklist marks exactly the positions that a path from a seed reaches |
| Reach.NothingMissed | crates/br-graph-contract/src/graph/reach.rs:52-70 | a marking that holds the seeds and is closed under neighbours holds everything a path reaches |
| Validation.BuildLinks | crates/br-graph-contract/src/graph/reach.rs:8-32 | the forward and backward tables hold exactly the declared links, the exits exactly the nodes that lead to END |
| Validation.FromEntryIsReached | crates/br-graph-contract/src/graph/reach.rs:7-50 | a position is reached forward from the entries if and only if a walk along declared targets leads from an entry to its node |
| Validation.ToEndIsReached | crates/br-graph-contract/src/graph/reach.rs:7-50 | a position is reached backward from the exits if and only if a walk leads from its node to END |
| Validation.FloodAll | crates/br-graph-contract/src/graph/reach.rs:37-49 | a position that was not reached is reported if there is one |
| Validation.CheckReach | crates/br-graph-contract/src/graph/reach.rs:7-50 | no fault if and only if every node is reachable from an entry and END from every node; a fault names a node for which that very thing fails |
| Validation.CheckNodes | crates/br-graph-contract/src/graph/check.rs:21-51 | no fault if and only if there is a node, every name, kind and subkind is an identifier and no name occurs twice; a fault names what is wrong |
| Validation.CheckEntries | crates/br-graph-contract/src/graph/check.rs:53-71 | no fault if and only if there is an entry, every entry is a node and none occurs twice; a fault names what is wrong |
| Validation.CheckTargets | crates/br-graph-contract/src/graph/check.rs:112-140 | no fault if and only if there is a target, every target is a node or END and none occurs twice; a fault names the edge and what is wrong |
| Validation.CheckEdges | crates/br-graph-contract/src/graph/check.rs:73-110 | no fault if and only if the edges are well named, with known sources and targets, no name or source twice, and every node has one; a fault names what is wrong |
| Validation.Validate | crates/br-graph-contract/src/graph/check.rs:9-19 | a shape is accepted if and only if it is well named, every node is reachable from an entry and END is reachable from every node; what a fault says is so, and what is checked before it is in order |
| Validation.AcceptanceIsOrderBlind | crates/br-graph-contract/src/graph/structure.rs:60-71 | neither acceptance nor the resulting structure depends on the order of entries, nodes and edges |
| Validation.FromShape | crates/br-graph-contract/src/graph/structure.rs:60-71 | a shape becomes a structure exactly when it is acceptable as given, and the structure is its canonical form |
| Validation.CanonicalReorders | crates/br-graph-contract/src/graph/structure.rs:60-71 | the canonical form has the same parts, each kind in the order of its names |
| Prelude.SortBySorts | crates/br-graph-contract/src/graph/structure.rs:61-68 | the canonical order is sorted and loses nothing |
| Prelude.SortIsOrderBlind | crates/br-graph-contract/src/graph/structure.rs:61-68 | elements told apart by their keys have one canonical order, whatever order they were given in |
| AbstractMachine.EvaluatedTargetsAreNodes | crates/br-graph-executor/src/run/result_step.rs:52-62 | every node an evaluated edge names has a slot |
| AbstractMachine.EvaluationMeans | crates/br-graph-executor/src/run/result_step.rs:24-46 | a node that ended has its own edge asked, with the targets that edge declares; a node without an edge is an error |
| AbstractMachine.OfferDescribes | crates/br-graph-executor/src/run/checkpointing.rs:30-53 | every checkpoint the sink was offered describes the state and the non-idle nodes of that moment |
| AbstractMachine.ReplayFoldsUpdates | crates/br-graph-executor/src/run/result_step.rs:11-73 | the state of a run is the fold of the updates it applied, in order |
| AbstractMachine.LeavesOnlyByOwnResult | crates/br-graph-executor/src/run/result_step.rs:11-73 | over any run a node leaves the active set only by an applied Result of its own |
| AbstractMachine.EntersOnlyAsTarget | crates/br-graph-executor/src/run/result_step.rs:11-73 | over any run a node enters the active set only as a target that the edge of an applied Result named |
| AbstractMachine.ActiveAreNodes | crates/br-graph-executor/src/run/mod.rs:48-61 | the active nodes stay nodes of the graph |
| AbstractMachine.HandedIsTheState | crates/br-graph-executor/src/run/handover.rs:29-91 | whatever is handed over in a run is the state of that moment, and goes to an active node |
| AbstractMachine.EachInstanceOnce | crates/br-graph-executor/src/run/ended.rs:9-24 | over any run no instance has two applied Results |
| AbstractMachine.TriggerIsFixed | crates/br-graph-executor/src/run/stopping.rs:31-65 | over any run, who stopped it never changes once it is stopping |
| AbstractMachine.NothingHandedOnceStopping | crates/br-graph-executor/src/run/handover.rs:11-24 | over any run no creation begins and no held input is released once the run is stopping |
| AbstractMachine.CheckpointBeforeHandOver | crates/br-graph-executor/src/run/result_step.rs:66-72 | over any run with a sink, a checkpoint is offered between an applied Result and the next hand-over |
| AbstractMachine.DecidedByARead | crates/br-graph-executor/src/run/stopping.rs:31-65 | over any run, the executor stopped it if and only if a failure read an untriggered token, the host if and only if a failure or a step read a triggered one |
| AbstractMachine.FirstIsWhoCameFirst | crates/br-graph-executor/src/run/stopping.rs:48-60 | over any run, the token is triggered if and only if somebody triggered it, and the host was first if and only if it triggered before the executor |
| AbstractMachine.ExecutorFirstUnlessHostBetween | crates/br-graph-executor/src/run/stopping.rs:48-60 | of a run that the executor stopped: it was first if and only if the host did not trigger between the read and the trigger of that failure |
| Executor.Run.constructor | crates/br-graph-executor/src/run/mod.rs:64-94 | a run begins running, with idle slots, no failure, at the given state |
| Executor.Run.ReadToken | crates/br-graph-executor/src/run/stopping.rs:24-28 | a running run reads the token, and the log says so: triggered, it stops the run on behalf of the host; afterwards a running run has an untriggered token |
| Executor.Run.Fail | crates/br-graph-executor/src/run/stopping.rs:48-60 | the failure is recorded and the run stopped; the first failure logs its read of the token, and the run is the host's if the read saw it triggered and the executor's if not |
| Executor.Run.FailNode | crates/br-graph-executor/src/run/stopping.rs:43-46 | the input of the failed node is left untaken, so the node stays active; its failure is recorded |
| Executor.Run.GiveInput | crates/br-graph-executor/src/run/handover.rs:53-62 | an input is offered to the instance that is present and to no other; whether it is taken is settled by when that instance closes its input end |
| Executor.Run.GiveHeld | crates/br-graph-executor/src/run/handover.rs:40-45 | the current state is offered; it is released and logged exactly when it was taken, and stays held when it was not; machine unchanged |
| Executor.Run.BeginCreation | crates/br-graph-executor/src/run/handover.rs:64-88 | a creation takes the held input with a fresh id and the log says so exactly when an id can be minted; else the node fails to start; machine unchanged |
| Executor.Run.HandTo | crates/br-graph-executor/src/run/handover.rs:26-38 | while the run is running a held input goes to the instance that is present, which takes it unless its input end is closed, or into a creation; no other slot is touched |
| Executor.Run.HandOverOrder | crates/br-graph-executor/src/run/handover.rs:11-24 | the targets come first as given, then every other held node in name order, and no held node is left out |
| Executor.Run.HandOver | crates/br-graph-executor/src/run/handover.rs:11-24 | needs, with a sink, a checkpoint of the state offered before; machine unchanged; if the run goes on, every slot was delivered: an input still held is at an instance being created or was offered and refused, and each one let go of went to its instance |
| Executor.AllDelivered | crates/br-graph-executor/src/run/handover.rs:11-45 | after a hand-over that went through every held node, an input still held waits for an instance being created or was offered and refused |
| Executor.NamedAreTheNodes | crates/br-graph-executor/src/run/result_step.rs:54-62 | what an evaluation names to activate and to hand over to are the nodes among its targets |
| Executor.Run.BuildCheckpoint | crates/br-graph-executor/src/run/checkpointing.rs:11-28 | a checkpoint is built exactly when the state serializes, and then describes state and non-idle nodes |
| Executor.Run.TakeStepCheckpoint | crates/br-graph-executor/src/run/checkpointing.rs:30-53 | a state that does not serialize is a failure; with a sink the first thing to happen is the offer of a checkpoint that describes the machine; the run then fails exactly when the sink refuses that checkpoint |
| Executor.Run.OutcomeCheckpoint | crates/br-graph-executor/src/run/checkpointing.rs:19-28 | the checkpoint of an outcome describes the machine, or names its nodes with no text when the state does not serialize |
| Executor.Run.OnCreated | crates/br-graph-executor/src/run/created.rs:11-44 | a stale message changes nothing; an instance made under its id is settled without a failure; anything else fails the node to start, leaves its input untaken, and only that |
| Executor.Run.FailCreation | crates/br-graph-executor/src/run/created.rs:11-44 | a failed creation leaves its node active and records the failure |
| Executor.Run.SettleCreated | crates/br-graph-executor/src/run/created.rs:46-71 | a new instance is offered the input its creation began with and, if it took that, the state its slot holds; what it refuses stays held; machine unchanged |
| Executor.Run.GiveFirst | crates/br-graph-executor/src/run/created.rs:46-60 | a first input that is not taken is held again, and it is taken exactly while the input end is open |
| Executor.Run.HoldTargets | crates/br-graph-executor/src/run/result_step.rs:54-62 | exactly the nodes the edge named become active |
| Executor.Run.Accept | crates/br-graph-executor/src/run/result_step.rs:11-73 | the applied Result is one step of the abstract machine: new state, the node away unless it still holds an input, the named targets in |
| Executor.Run.ApplyResult | crates/br-graph-executor/src/run/result_step.rs:11-53 | a Result is applied if and only if its update is accepted and its edge evaluates; a refused update fails as such, a broken edge as such, and then nothing changes but the node stays active |
| Executor.Run.Continue | crates/br-graph-executor/src/run/result_step.rs:63-73 | the checkpoint comes first, the hand-over needs it, and neither moves the machine |
| Executor.Run.ResultStep | crates/br-graph-executor/src/run/result_step.rs:11-73 | a Result is applied, as the only one, if and only if update and edge allow it, and the checkpoint follows at once while nodes are active and the run runs; else it is undone as a whole with the failure that says why |
| Executor.Run.OnEnded | crates/br-graph-executor/src/run/ended.rs:8-65 | a stale message changes nothing; the end of the instance held is handled by its event |
| Executor.Run.HandleEnd | crates/br-graph-executor/src/run/ended.rs:13-65 | a Result is applied exactly when update and edge allow it; a refused one and every other event leave the machine as it was, each with its own failure |
| Executor.Run.NoResult | crates/br-graph-executor/src/run/ended.rs:31-65 | a failed instance is NodeFailed, one that refused its input NodeRefusedInput, one that vanished or only finished NodeVanished; a cancelled one fails only when the token, as logged, was untriggered |
| Executor.Run.OnCancelledEvent | crates/br-graph-executor/src/run/ended.rs:44-58 | a cancelled instance leaves its input untaken, and is a failure exactly when the read of the token, as logged, saw no trigger |
| Executor.Run.AbandonAllLive | crates/br-graph-executor/src/run/stopping.rs:62-68 | exactly the live slots lose their instance and keep their input as untaken; no activation is lost |
| Executor.Run.AllIdle | crates/br-graph-executor/src/run/mod.rs:150-152 | all slots are idle exactly when the machine has no active node |
| Executor.Run.Conclude | crates/br-graph-executor/src/run/conclude.rs:9-40 | RunEnded exactly with every slot idle and no failure, RunFailed when the executor stopped the run, RunCancelled otherwise; a starting checkpoint is handed back, any other describes the machine |
| Executor.Run.HoldNames | crates/br-graph-executor/src/run/mod.rs:97-101 | the nodes of the origin are the active nodes at the start |
| Executor.Run.Begin | crates/br-graph-executor/src/run/mod.rs:96-106 | a start or a resume begins in the abstract state of its origin; a token already triggered concludes with the starting checkpoint itself |
| Executor.Run.AtLoopHead | crates/br-graph-executor/src/run/mod.rs:108-130 | the token is read; the run ends exactly when all is idle, or it is stopping and nothing is live or the grace period is over; else an instance is live that can send a message |
| Executor.Run.AwaitWake | crates/br-graph-executor/src/run/mod.rs:113-132 | while running, the wait reports a cancel request exactly when the token is triggered, before any message, and that stops the run |
| Executor.Run.Handle | crates/br-graph-executor/src/run/mod.rs:142-148 | the token is read, then the message has the effect its kind, its instance and its event call for, whatever it is; nothing recorded is lost and a trigger once set is fixed |
| Executor.Run.Receive | crates/br-graph-executor/src/run/mod.rs:133-148 | the message that arrives is the one handled, and the story of the run is longer by what came of it |
| Executor.Run.Drive | crates/br-graph-executor/src/run/mod.rs:96-140 | over any messages in any order: each is handled as its kind and its instance ask for, in the order they came, and nothing happens in between; all of them, unless the run ends; what is reported is classified; a run that waits has a live instance to wait for and no held input that an instance would take |
| Executor.CheckNodeNames | crates/br-graph-executor/src/node_names.rs:13-27 | names are accepted if and only if there are some, all known and none twice |
| Executor.Perform | crates/br-graph-executor/src/run/mod.rs:96-140 | what a run reports is a history of the abstract machine, of the token and of what the host did, no instance has two applied Results, the outcome is about where that history ends, and the history is the story of the messages |
| Executor.FailedByAnUntriggeredRead | crates/br-graph-executor/src/run/stopping.rs:48-60 | of a run that did not end as RunEnded: RunFailed if and only if a failure read an untriggered token, and then the executor was first if and only if no host trigger lies between that read and its own; RunCancelled only with the host first |
| Executor.HostFirstYetRunFailed | crates/br-graph-executor/src/run/stopping.rs:48-60 | read untriggered, host triggers, executor triggers: a faithful history of a run that failed although the host was first, and of none that was cancelled |
| Executor.LeftAloneIsNotCancelled | crates/br-graph-executor/src/run/stopping.rs:24-60 | a run whose host never triggers the token is never cancelled |
| Executor.Start | crates/br-graph-executor/src/start.rs:8-17 | a start is accepted if and only if its names are good, and runs from exactly these nodes, on exactly these messages |
| Executor.CheckStructure | crates/br-graph-executor/src/resume.rs:42-67 | a version mismatch is another version; a structure mismatch is the same version with other edges or other node names; anything else fits |
| Executor.Resume | crates/br-graph-executor/src/resume.rs:11-22 | a resume is accepted if and only if the checkpoint has good names, fits and rebuilds: other edges, another version or other node names refuse it; it then starts in the state and the non-idle set of the checkpoint |
| Executor.ResumesWhereItWas | crates/br-graph-executor/src/resume.rs:11-22 | a resume from any checkpoint a run left puts the machine where it was when the checkpoint was taken |
| Executor.ChainIsOneRun | crates/br-graph-executor/src/resume.rs:11-22 | any chain of runs, crashes and resumes is one run over the Results applied before the checkpoints resumed from |
| Executor.ChainLosesNoNode | crates/br-graph-executor/src/resume.rs:11-22 | over any chain an activated node stays active until a Result of its own was applied |
| Executor.ChainStateIsTheFold | crates/br-graph-executor/src/resume.rs:11-22 | over any chain the state is the fold of the updates that count |
| Executor.ChainEnds | crates/br-graph-executor/src/run/conclude.rs:9-40 | a chain whose last run ended has the folded state and nothing active |
| Waiting.Waiters.Register | crates/br-graph-contract/src/waiters.rs:32-48 | the waker is filed under the given or a new key, and the one displaced is handed back |
| Waiting.Waiters.Remove | crates/br-graph-contract/src/waiters.rs:51-53 | the slot of the key goes and its waker is handed back |
| Waiting.Waiters.Drain | crates/br-graph-contract/src/waiters.rs:56-58 | all wakers are handed out and none is left; keys are not reused |
| Cancel.FireKeepsTree | crates/br-graph-contract/src/cancel/shared.rs:68-76 | firing hands every live unfired child to the firing trigger |
| Cancel.ChildKeepsTree | crates/br-graph-contract/src/cancel/shared.rs:78-91 | pruning loses no live child, and the tree stays sound with the new token in it |
| Cancel.ChildIsLinked | crates/br-graph-contract/src/cancel/shared.rs:78-91 | what child() makes is live; of an unfired token it is unfired, listed and under it; of a fired one it is fired; no other token gets another parent, fires or goes |
| Cancel.UpgradeKeepsTree | crates/br-graph-contract/src/cancel/shared.rs:60-64 | a weak child that is still held stays on the worklist |
| Cancel.FireKeepsWaiting | crates/br-graph-contract/src/cancel/shared.rs:68-76 | the wakers of a fired token are taken by the trigger that fired it |
| Cancel.RegisteredKeepsWaiting | crates/br-graph-contract/src/cancel/shared.rs:93-108 | a registration under the lock is on a token that has not fired |
| Cancel.DropFutureKeepsWaiting | crates/br-graph-contract/src/cancel/triggered.rs:34-38 | dropping a future removes its registration and no other |
| Cancel.EveryRunIsOk | crates/br-graph-contract/src/cancel/shared.rs:9-108 | every interleaving of triggers, creations, polls and drops keeps the tree, the waiters, the counters and the answers right |
| Cancel.TriggerReachesEveryDescendant | crates/br-graph-contract/src/cancel/shared.rs:57-66 | once every trigger has returned, each live token at or under a fired one has fired |
| Cancel.ChildIsReached | crates/br-graph-contract/src/cancel/shared.rs:57-91 | over any run: a token made by child(n), still live once every trigger has returned, has fired if n or anything above n has |
| Cancel.BegunMeansFired | crates/br-graph-contract/src/cancel/shared.rs:57-66 | over any run: the token a trigger was called on has fired once every trigger has returned |
| Cancel.UnfiredIsUnderAWorklist | crates/br-graph-contract/src/cancel/shared.rs:57-76 | while triggers run, a live unfired token under a fired one is under a token on a running worklist |
| Cancel.NoWakeUpIsLost | crates/br-graph-contract/src/cancel/shared.rs:44-108 | once every trigger has returned, a future that still waits is registered under its own key and no token at or above its own has fired |
| Cancel.CancelledWaiterIsOnItsWay | crates/br-graph-contract/src/cancel/shared.rs:44-108 | while triggers run, a waiter whose token is cancelled has its waker taken, or its token under a worklist |
| Cancel.NoPollMissesAFiredToken | crates/br-graph-contract/src/cancel/shared.rs:44-55 | a poll that has a fired token ahead of it can only end as ready, whatever happens meanwhile |
| Cancel.NoFalseAnswer | crates/br-graph-contract/src/cancel/triggered.rs:23-30 | a future is ready only when its token or one above has fired, and no registration outlives its future |
| Cancel.RegistrationsStayApart | crates/br-graph-contract/src/waiters.rs:32-48 | two futures of one token never share a registration |
| Cancel.ChildLeavesAShortList | crates/br-graph-contract/src/cancel/shared.rs:78-91 | over any interleaving, after child() the list holds at most twice the children left at the call plus 16 |
| Cancel.PruningIsAmortised | crates/br-graph-contract/src/cancel/shared.rs:78-91 | over any interleaving the slots scanned by pruning are at most twice the children ever created |
| Cancel.ReleaseKeepsCounts | crates/br-graph-contract/src/cancel/shared.rs:115-119 | the live-children counter counts the children not yet released and never underflows |
| CancelTree.Tree.IsTriggered | crates/br-graph-contract/src/cancel/shared.rs:44-55 | the walk upwards answers whether the token or one above it has fired, and is the walk of a poll |
| CancelTree.Tree.Fire | crates/br-graph-contract/src/cancel/shared.rs:68-76 | the first time takes children and wakers, afterwards nothing |
| CancelTree.Tree.Child | crates/br-graph-contract/src/cancel/shared.rs:78-91 | the code of one creation is the creation action of the protocol: a new live token, of an unfired token its child and under it, of a fired one fired at once; no other token gets another parent or fires |
| CancelTree.Tree.Trigger | crates/br-graph-contract/src/cancel/shared.rs:57-66 | the whole call is a terminating run of the protocol; it fires only at and under its token, and alone it leaves no live token there unfired |
| CancelTree.Tree.PollTriggered | crates/br-graph-contract/src/cancel/shared.rs:93-108 | the call is a run of the protocol with whatever others do before it gets the mutex: ready if the first look saw a fired token, else ready or registered by what the look under the mutex sees |
| CancelTree.Tree.RemoveWaiter | crates/br-graph-contract/src/cancel/shared.rs:110-113 | the call is the dropping of a future in the protocol; exactly that registration goes |
| CancelTree.Tree.Drop | crates/br-graph-contract/src/cancel/shared.rs:137-144 | the iterative drop is a run of the protocol and leaves no token alive that nothing holds |
| Instance.Core.Give | crates/br-graph-contract/src/instance/core.rs:60-71 | the call is the giving action of the channel: the input goes to the end of the queue of a working open gate and the reader is woken, anything else refuses |
| Instance.Core.CloseInput | crates/br-graph-contract/src/instance/core.rs:73-85 | the call is the closing action of the channel: a working open gate closes and the waiting reader is woken, anything else is left alone |
| Instance.Core.PollNext | crates/br-graph-contract/src/instance/core.rs:87-100 | the oldest input, or the end, or a stored waker |
| Instance.Core.ForgetReaderWaker | crates/br-graph-contract/src/instance/core.rs:102-105 | the reader's waker goes and nothing else |
| Instance.Core.Drain | crates/br-graph-contract/src/instance/core.rs:107-110 | the whole queue in order |
| Instance.Core.Finish | crates/br-graph-contract/src/instance/core.rs:112-124 | a working node side keeps the event and anything else hands it back; queue and wakers go out |
| Instance.Core.SenderGone | crates/br-graph-contract/src/instance/core.rs:126-136 | a working node side has vanished; queue and wakers go out |
| Instance.Core.Detach | crates/br-graph-contract/src/instance/core.rs:146-161 | the executor side is dropped: a working node ends, a sent event is discarded or stays by which end went, every waiter is woken |
| Instance.Core.PollRecv | crates/br-graph-contract/src/instance/core.rs:163-181 | the event once, then the end; a vanished side stays vanished; else a stored waker |
| Instance.Core.ForgetEventWaker | crates/br-graph-contract/src/instance/core.rs:183-186 | the receiver's waker goes and nothing else |
| Instance.Core.PollDropped | crates/br-graph-contract/src/instance/core.rs:192-202 | ready exactly once an end was dropped, else registered |
| Instance.Core.RemoveDroppedWaiter | crates/br-graph-contract/src/instance/core.rs:204-207 | exactly that registration goes |
| Instance.Remember | crates/br-graph-contract/src/instance/lifecycle.rs:28-33 | the slot holds this waker and the one displaced is handed back |
| Instance.EveryRunIsGood | crates/br-graph-contract/src/instance/core.rs:25-206 | every interleaving of the calls of both sides keeps the channel's invariants |
| Instance.InputsArriveInOrder | crates/br-graph-contract/src/instance/core.rs:60-110 | accepted inputs are read in order, then queued while the node works or thrown away once it does not |
| Instance.ReaderIsToldTheTruth | crates/br-graph-contract/src/instance/core.rs:60-110 | at any point of any run: an input is accepted exactly while nobody closed the input and the node side has not ended; the reader gets the oldest input it has not had, and the end exactly when none is left and the input is closed |
| Instance.ClosedForGood | crates/br-graph-contract/src/instance/core.rs:73-100 | over any run: once the input is closed nothing is accepted, the reader is not left waiting, and an empty queue answers with the end of input |
| Instance.FirstEndDecides | crates/br-graph-contract/src/instance/core.rs:112-161 | over any run: the node side is what its first ending made it, and the gate is closed exactly when somebody closed it |
| Instance.OneEventArrives | crates/br-graph-contract/src/instance/core.rs:112-181 | at most one event is ever received, and it is the first one finished with |
| Instance.ReceiverIsToldTheTruth | crates/br-graph-contract/src/instance/core.rs:163-181 | the answer of any receive in any run agrees with what was sent, received and dropped before |
| Instance.ReceiverIsToldTheFirstEnd | crates/br-graph-contract/src/instance/core.rs:163-181 | what a receive answers follows from the calls made before it: the event of the first ending once, then the end; a vanished side as vanished |
| Instance.WatcherIsToldTheTruth | crates/br-graph-contract/src/instance/core.rs:192-202 | a watcher is told of a drop exactly once the executor side was dropped |
| Instance.NoEventIsLost | crates/br-graph-contract/src/instance/core.rs:112-181 | over any run: each event the node finished with was received, is still held, or was handed back to be dropped |
| Instance.NobodyWaitsInVain | crates/br-graph-contract/src/instance/core.rs:60-202 | no wake-up is lost: a reader, receiver or watcher that still waits would be told to wait again |
| Instance.StoredWakersArePending | crates/br-graph-contract/src/instance/core.rs:60-207 | a stored waker belongs to a future that is still pending, and no registration outlives its watcher |
| MapReduce.InitialStates | crates/br-flow-nodes/src/map_reduce/initial.rs:9-28 | all initial states in order, or the first that cannot be made |
| MapReduce.ScheduleDoesNotMatter | crates/br-flow-nodes/src/map_reduce/work.rs:61-114 | left alone, the lenient mode has one outcome whatever the schedule: the list, or the error of the first creation to fail |
| MapReduce.StrictReducesTheSame | crates/br-flow-nodes/src/map_reduce/work.rs:61-114 | left alone, the strict mode reaches reduce under every schedule or under none, exactly when all start and no element fails, and with one list |
| MapReduce.ExpectedTells | crates/br-flow-nodes/src/map_reduce/child.rs:92-124 | an element is done with a state if and only if its instance ended with a result whose update takes its initial state there, and each fault is that of its own end |
| MapReduce.LeftAloneReports | crates/br-flow-nodes/src/map_reduce/work.rs:61-120 | left alone, a run that reduces tells of each element how its instance ended, in strict mode a result of each; one that fails names the position and the cause, a failed creation with all before it started |
| MapReduce.Work.constructor | crates/br-flow-nodes/src/map_reduce/work.rs:49-57 | nothing started, every element at its initial state |
| MapReduce.Work.ElementEnded | crates/br-flow-nodes/src/map_reduce/child.rs:92-124 | the state advances only by an applied update; each other end is its own fault, a cancelled one a cancel if the token is triggered |
| MapReduce.Work.Receive | crates/br-flow-nodes/src/map_reduce/child.rs:78-90 | an end settles its own element alone, by that element's initial state and event; the lenient mode keeps the fault with the element |
| MapReduce.Work.Join | crates/br-flow-nodes/src/map_reduce/work.rs:77-86 | whichever child ends, there is one fewer, and any halt is justified |
| MapReduce.Work.Start | crates/br-flow-nodes/src/map_reduce/child.rs:25-46 | the next position is started, once and in list order, with at most the limit live; ends may come meanwhile |
| MapReduce.Work.Launch | crates/br-flow-nodes/src/map_reduce/child.rs:47-76 | a fault of creation is that of the first position whose creation fails |
| MapReduce.Work.StartAvailable | crates/br-flow-nodes/src/map_reduce/work.rs:89-97 | starts until the limit is reached or all have started |
| MapReduce.Work.Finish | crates/br-flow-nodes/src/map_reduce/work.rs:99-114 | the list given to reduce has one outcome per element in list order; in strict mode none is a failure; a triggered token gives cancelled |
| MapReduce.Work.Complete | crates/br-flow-nodes/src/map_reduce/work.rs:71-87 | terminates; it gives the expected list or halts for a reason that holds |
| MapReduce.Work.StopFailed | crates/br-flow-nodes/src/map_reduce/work.rs:116-120 | no child is left |
| MapReduce.Work.StopCancelled | crates/br-flow-nodes/src/map_reduce/work.rs:122-132 | waits for every child unless dropped meanwhile |
| MapReduce.Work.Drive | crates/br-flow-nodes/src/map_reduce/work.rs:62-69 | every ending is justified by what the host did or by a real fault; a token triggered before the first look never reduces |
| MapReduce.Run | crates/br-flow-nodes/src/map_reduce/work.rs:37-59 | the whole node, from the initial states to its outcome; left alone, a list says of each element how its own instance ended, and an error names the instance and the cause |
| AgentWorker.LawfulThroughout | crates/br-agentic-nodes/src/generator_critic/execute.rs:237-291 | every pass began with a step left, with rounds to spare unless it was the last, and with refusals below the limit; the critic was asked only in passes that were not the last |
| AgentWorker.LawfulIsBounded | crates/br-agentic-nodes/src/limits.rs:83-105 | steps never exceed the limit, nor rejections and refusals since the last stored request |
| AgentWorker.RejectionsAreLimited | crates/br-agentic-nodes/src/generator_critic/execute.rs:171-203 | between two drains that store a request the critic rejects at most round-limit times |
| AgentWorker.Worker.Drive | crates/br-agentic-nodes/src/slot.rs:47-70 | tries each client at most once and in turn, until one answers or fails for good: the last call alone decides the answer, and a settled slot keeps its client |
| AgentWorker.Worker.Step | crates/br-agentic-nodes/src/step.rs:124-161 | a step is noted exactly when its last call was answered and the response stored, and it is never beyond the limit |
| AgentWorker.Worker.Advance | crates/br-agentic-nodes/src/pass.rs:44-78 | one step and what its response asks for: the end of the pass, or its tools and perhaps a drain; what breaks it off is named |
| AgentWorker.Worker.AfterTools | crates/br-agentic-nodes/src/pass.rs:44-78 | the inbox is drained exactly after tools that ran to a boundary |
| AgentWorker.Worker.Drain | crates/br-agentic-nodes/src/drain.rs:30-63 | stores what arrived and notes it; a stored request, and nothing else, resets the counters; an inbox that cannot be read leaves everything as it was |
| AgentWorker.Worker.Pass | crates/br-agentic-nodes/src/pass.rs:44-78 | goes on after every step that is neither a final response nor the last one, drains after exactly the steps whose tools ran to a boundary, breaks off only for a call, a response, a tool, the store or the inbox that failed; makes at most its steps plus the fallbacks left over in calls |
| GeneratorCritic.Loop.Ask | crates/br-agentic-nodes/src/generator_critic/execute.rs:42-62 | the critic answers at the place of the generator on the ladder, never for a last generation; it fails exactly when it cannot be asked or no call is answered |
| GeneratorCritic.Loop.Programmatic | crates/br-agentic-nodes/src/generator_critic/execute.rs:64-98 | the program is asked if there is one and its answer alone decides: an acceptance resets the refusals, a refusal leads to a pass that may start or fails the run |
| GeneratorCritic.Loop.Refuse | crates/br-agentic-nodes/src/generator_critic/execute.rs:88-98 | a refusal fails the run exactly at the refusal limit or with no step left, and keeps the place on the ladder |
| GeneratorCritic.Loop.ValidatedEnd | crates/br-agentic-nodes/src/generator_critic/execute.rs:153-169 | with an inbox and a step left it drains, and goes on exactly when something was stored; else it drains nothing and ends |
| GeneratorCritic.Loop.RejectedEnd | crates/br-agentic-nodes/src/generator_critic/execute.rs:171-203 | counts a round; at the limit fails, keeps the rejected generation or schedules the last pass; a pass follows only with a step left |
| GeneratorCritic.Loop.JudgeAtStepLimit | crates/br-agentic-nodes/src/generator_critic/execute.rs:117-131 | a last generation, and any when the critic is spared, ends as not judged and nothing is asked; else the critic is asked once and its answer decides between validated and a failure |
| GeneratorCritic.Loop.JudgeGeneration | crates/br-agentic-nodes/src/generator_critic/execute.rs:135-151 | a last generation is not asked about; else the critic is asked once and its answer alone decides what follows |
| GeneratorCritic.Loop.Judge | crates/br-agentic-nodes/src/generator_critic/execute.rs:100-151 | the program is asked first and only what it accepts is judged; a validated generation ends the run unless a drain finds something, a rejected one is followed by the next pass or the end; every failure has its cause in the journal |
| GeneratorCritic.Loop.DrainFirst | crates/br-agentic-nodes/src/generator_critic/execute.rs:256-265 | drains exactly when the last judgement asked for it; a stored request takes back the last pass and the kept place |
| GeneratorCritic.Loop.Schedule | crates/br-agentic-nodes/src/generator_critic/execute.rs:266-269 | the pass runs at the kept place or at the rounds, and is the last if so scheduled |
| GeneratorCritic.Loop.Generate | crates/br-agentic-nodes/src/generator_critic/execute.rs:255-271 | the drain that was asked for, then the pass noted where and as what it runs; it takes a step, and makes at most its steps plus the length of its fallback list minus one calls |
| GeneratorCritic.Loop.Execute | crates/br-agentic-nodes/src/generator_critic/execute.rs:237-291 | terminates within the step limit although drains reset the counters; at most one pass per step; a run restored at the end of a pass begins with its judgement; a failure has its cause at the end of the journal |
| GeneratorCritic.Run | crates/br-agentic-nodes/src/generator_critic/execute.rs:237-291 | over a whole run: a lawful journal, passes within steps, an outcome whose judgement is what the journal shows, and a failure whose cause is at its end; restored at the step limit with the critic spared it ends as not judged and nothing is asked |
| React.Agent.Execute | crates/br-agentic-nodes/src/react.rs:73-102 | terminates within the step limit; each pass but the first answers something that arrived after a final response; ends with a final response and an inbox found empty, or at the step limit; calls at most steps plus fallbacks minus one |
| React.Run | crates/br-agentic-nodes/src/react.rs:73-102 | over a whole run from a fresh worker: the same, after a first look into the inbox; a restored run ends as it was restored |
| Conversations.PushTurnGains | crates/br-agentic-contract/src/rules.rs:29-36 | a pushed turn adds exactly the ids of its entries, none of them there before |
| Conversations.ApplyEntryGains | crates/br-agentic-contract/src/rules.rs:46-60 | an applied entry adds exactly its id, whether it opens its turn or not |
| Conversations.ApplyClosureGains | crates/br-agentic-contract/src/rules.rs:62-73 | a closure adds exactly its id |
| Conversations.ApplyEntryMeans | crates/br-agentic-contract/src/rules.rs:38-60 | an entry goes to the end of the AI turn of its id, agent and author, or into a new one if no turn has that id; a turn of somebody else under that id is an error of its own, and only the rules refuse the rest |
| Conversations.ApplyClosureMeans | crates/br-agentic-contract/src/rules.rs:62-73 | a closure goes to the end of the AI turn of its id, agent and author, which has to be there |
| Conversations.ApplyInputTurnMeans | crates/br-agentic-contract/src/rules.rs:29-36 | an input turn becomes the last one if and only if its id and the ids of its entries are new and the rules allow it |
| Conversations.OpenAiTurnMeans | crates/br-agentic-contract/src/session.rs:59-71 | the open turn of an agent is its last AI turn without a closure, and there is none only if it has no such turn |
| Conversations.HeldIsIn | crates/br-agentic-contract/src/session.rs:46-48 | a conversation holds an id if and only if some entry in it has that id |
| Sessions.Store.Read | crates/br-agentic-contract/src/memory/thread.rs:94-103 | the stored conversation, to its own thread only |
| Sessions.Store.Apply | crates/br-agentic-contract/src/memory/thread.rs:69-76 | a change is stored exactly when it is for this thread, the rules allow it and the store does not fail before; a refused one leaves the store as it was |
| Sessions.Store.Begin | crates/br-agentic-contract/src/memory/thread.rs:78-84 | unless the store fails before, the entry is open with a stream of its own and the stream of an earlier one is dead |
| Sessions.Store.End | crates/br-agentic-contract/src/memory/thread.rs:86-90 | unless the store fails before, the entry is not open and its stream is dead |
| Sessions.Store.Complete | crates/br-agentic-contract/src/memory/thread.rs:168-185 | a stored object is no longer open unless its ending fails, a refused one still is |
| Sessions.Session.AddInputTurn | crates/br-agentic-contract/src/session.rs:73-79 | copy first, and the store is asked exactly for what the copy took; with equal conversations it never refuses that, and they stay equal |
| Sessions.Session.AddEntry | crates/br-agentic-contract/src/session.rs:81-91 | copy first, and the store is asked exactly for what the copy took; with equal conversations it never refuses that, and they stay equal |
| Sessions.Session.CloseTurn | crates/br-agentic-contract/src/session.rs:93-103 | copy first, and the store is asked exactly for what the copy took; with equal conversations it never refuses that, and they stay equal |
| Sessions.Session.OpenResponse | crates/br-agentic-contract/src/session.rs:105-117 | tracked exactly when opened |
| Sessions.Session.OpenResult | crates/br-agentic-contract/src/session.rs:142-154 | tracked exactly when opened |
| Sessions.Session.CompleteResponse | crates/br-agentic-contract/src/session.rs:119-135 | the copy changes first; a refused response is discarded if it was tracked; what is open stays exactly what is tracked if and only if the id is not tracked as a result, or is not tracked as a response and the rules refuse it |
| Sessions.Session.CompleteResult | crates/br-agentic-contract/src/session.rs:156-172 | the copy changes first; a refused result is discarded if it was tracked; what is open stays exactly what is tracked if and only if the id is not tracked as a response, or is not tracked as a result and the rules refuse it |
| Sessions.Session.DiscardResponse | crates/br-agentic-contract/src/session.rs:137-140 | what is open stays exactly what is tracked if and only if the id is not tracked as a result |
| Sessions.Session.DiscardResult | crates/br-agentic-contract/src/session.rs:174-177 | what is open stays exactly what is tracked if and only if the id is not tracked as a response |
| Sessions.Session.DiscardAll | crates/br-agentic-contract/src/session.rs:179-192 | nothing is tracked, each object is ended in the store unless the call fails before, and on the in-memory store nothing is open; an error is counted exactly if some call failed |
| Sessions.End | crates/br-agentic-contract/src/ending.rs:5-32 | every ending lets go of all that is tracked; a result fails exactly when an ending failed in the store, so a result that stands leaves nothing open |
| Sessions.Live | crates/br-agentic-contract/src/session.rs:73-204 | over any calls on the in-memory store: copy and store end equal and nothing is left open |
| Sessions.OneIdUnderBothKinds | crates/br-agentic-contract/src/session.rs:137-154 | an id open as a response and as a result, one discarded, is tracked but no longer open |
| Inboxes.Refusal | crates/br-agentic-contract/src/mail.rs:63-78 | a mail is refused if and only if it has no recipient in to or names one twice |
| Inboxes.ListedIsIncreasing | crates/br-agentic-contract/src/memory/inbox.rs:79-101 | one agent's deliveries are listed in strictly increasing numbers |
| Inboxes.UnreadIsIncreasing | crates/br-agentic-contract/src/memory/inbox.rs:103-110 | so are its unread ones |
| Inboxes.ListedMeans | crates/br-agentic-contract/src/memory/inbox.rs:45-101 | a mail is listed in full for exactly those in to, by its subject alone for exactly those in cc, an entry for its agent, and nothing else is listed |
| Inboxes.UnreadMeans | crates/br-agentic-contract/src/memory/inbox.rs:103-110 | an agent has unread exactly what was delivered to it under ids it has not marked |
| Inboxes.PageIsTheNextItems | crates/br-agentic-contract/src/memory/inbox.rs:188-214 | a page holds the next items after its cursor, and a cursor is given exactly when more follow, never the same twice |
| Inboxes.MemoryInbox.DeliverEntry | crates/br-agentic-contract/src/memory/inbox.rs:136-143 | the entry is filed last |
| Inboxes.MemoryInbox.DeliverMail | crates/br-agentic-contract/src/memory/inbox.rs:145-159 | a good mail is filed last unless its id is already filed |
| Inboxes.MemoryInbox.Items | crates/br-agentic-contract/src/memory/inbox.rs:189-214 | one page of the agent's unread items |
| Inboxes.MemoryInbox.MarkRead | crates/br-agentic-contract/src/memory/inbox.rs:231-251 | exactly the items of that id are no longer among the unread ones of the agent; nothing changes for others |
| Inboxes.PushedAllAppendsFresh | crates/br-agentic-contract/src/queue.rs:16-22 | pushing a list appends exactly the items not queued before, first of their id, in order; no id twice |
| Inboxes.Queue.Push | crates/br-agentic-contract/src/queue.rs:16-22 | added exactly when its id is not queued |
| Inboxes.Queue.Read | crates/br-agentic-contract/src/queue.rs:36-61 | whatever the page size, one read: terminates, never meets the repeated cursor, and appends exactly the unread items not queued; every unread id is then queued |
| Boundaries.Build | crates/br-agentic-contract/src/boundary.rs:111-126 | a notice gives its own entry; a mail the one built for it if the rules allow it and it is the one of that mail; a wrong entry is refused by name |
| Boundaries.Run.SkipHeld | crates/br-agentic-contract/src/boundary.rs:47-52 | held items are done, skipped and marked, in order |
| Boundaries.Run.StoreInOpenTurn | crates/br-agentic-contract/src/boundary.rs:54-66 | the first new items are stored, in order, at the end of that turn and nowhere else; all of them, unless the rules refuse the next or the store fails |
| Boundaries.Run.StoreInNewInputTurn | crates/br-agentic-contract/src/boundary.rs:68-87 | all of the new items or none, as one input turn at the end |
| Boundaries.Sorted | crates/br-agentic-contract/src/boundary.rs:169-177 | items are sorted into those the copy holds and the rest, with the entry of each; or some new item cannot be built |
| Boundaries.RunBoundary | crates/br-agentic-contract/src/boundary.rs:163-183 | everything held is skipped and of the new a first part stored: at the end of the last open turn of the agent, or in a new input turn if it has none; a fault is an item that cannot be built, a refusal of the rules or a failure of the store |
| Boundaries.StoreBuilt | crates/br-agentic-contract/src/boundary.rs:178-183 | the open turn of the agent is used if there is one, and a new input turn if there is none |
| Boundaries.ReportSplits | crates/br-agentic-contract/src/boundary.rs:128-161 | stored, skipped and left over are a disjoint split of what was pending |
| Boundaries.StoreAtBoundary | crates/br-agentic-contract/src/boundary.rs:128-161 | whatever fails: stored, skipped and restored split the pending ids; restored ones keep their order; no id enters the copy twice; nothing pending is in neither copy nor queue; the entries end up in the last open turn of the agent or in a new one; what could not be marked is reported; with copy and store equal before, whatever was marked as read is in the store, and without a fault they stay equal |
| Boundaries.Run.Mark | crates/br-agentic-contract/src/boundary.rs:40-45 | the item is done, and unread no longer unless the inbox failed before; it is reported as unmarked exactly if the inbox failed |
| Boundaries.Live | crates/br-agentic-contract/src/boundary.rs:128-183 | over any reads and boundaries everything that arrived is in the copy or the queue, and nothing is in the copy twice |
| Boundaries.Serve | crates/br-agentic-contract/src/boundary.rs:128-183 | a worker from its start to its first fault, on a store that may fail anywhere: everything ever delivered is unread or in the store, and nothing is in the store twice |
| Boundaries.ServeInTurn | crates/br-agentic-contract/src/boundary.rs:128-183 | the same over any number of workers, each taking over from wherever the one before ended |
| Occurrences.Display | crates/br-llm-graph/src/origin/mod.rs:135-143 | the loop writes the segments with slashes between them |
| Occurrences.ShowOneMore | crates/br-llm-graph/src/origin/mod.rs:135-143 | a longer key is the shorter one, a slash and the last segment |
| Occurrences.ShownInDecimal | crates/br-llm-graph/src/origin/mod.rs:135-143 | an index is written in decimal with no zero in front |
| Occurrences.Parse | crates/br-llm-graph/src/origin/mod.rs:108-131 | the loop gives the parsed key or refuses |
| Occurrences.SegmentRoundTrips | crates/br-llm-graph/src/origin/mod.rs:116-128 | the written form of a segment parses back to it |
| Occurrences.KeyRoundTrips | crates/br-llm-graph/src/origin/mod.rs:108-144 | the written form of any key parses back to that key |
| Occurrences.ShowIsInjective | crates/br-llm-graph/src/origin/mod.rs:134-144 | two keys are never written alike |
| Occurrences.ParsedIsAKey | crates/br-llm-graph/src/origin/mod.rs:108-131 | what parses is a key; only the empty text is the top level |
| Occurrences.AcceptedIsWritten | crates/br-llm-graph/src/origin/mod.rs:108-131 | an accepted text is the written form of its key if and only if no index has a zero in front |
| Occurrences.LeadingZeroIsAccepted | crates/br-llm-graph/src/origin/mod.rs:119-124 | a zero in front of an index is accepted, so that two texts parse to one key |
| Occurrences.ItemRoundTrips | crates/br-llm-graph/src/origin/mod.rs:95-103 | the key of an item parses back from its written form, carries its index last and stays under its node |
| Occurrences.ItemsStayApart | crates/br-llm-graph/src/origin/mod.rs:95-103 | items of one node are told apart by their index |
| FanOut.RecordedItem | crates/br-llm-graph/src/graph/context.rs:129-136 | a record counts only on the very item it was made on, and only with recording on |
| FanOut.RecordItem | crates/br-llm-graph/src/graph/context.rs:112-114 | the record replaces what was there, if recording is on |
| FanOut.RestartWhole | crates/br-llm-graph/src/graph/context.rs:160-165 | exactly the entries strictly below go, and recording is off |
| FanOut.Isolated | crates/br-llm-graph/src/graph/context.rs:191-195 | a recorder of its own with a copy of the entries |
| FanOut.Unrecorded | crates/br-llm-graph/src/graph/context.rs:199-203 | an empty recorder of its own, recording off |
| FanOut.CheckAppends | crates/br-llm-graph/src/graph/map.rs:225-239 | the first update that is no append the state takes |
| FanOut.ItemResultMeans | crates/br-llm-graph/src/graph/map.rs:191-239 | an item yields exactly what its body returned, or under the capturing policy what captures its failure, if the item can be set and all of that is appends the state takes; else it fails as the item, the body or the first refused update says |
| FanOut.RecordingIsFaithful | crates/br-llm-graph/src/graph/context.rs:112-114 | recording a result on its item keeps every record faithful: no two items share a key |
| FanOut.FaithfulAttempt | crates/br-llm-graph/src/graph/map.rs:191-213 | with faithful records an item gives what a run of it would |
| FanOut.ItemUpdates | crates/br-llm-graph/src/graph/map.rs:191-213 | the record of the item, else its run; recorded when it is all appends |
| FanOut.SortedEndsAreInOrder | crates/br-llm-graph/src/graph/map.rs:98-100 | sorting by index puts the ends back into list order, whatever order they came in |
| FanOut.AppendsAreInListOrder | crates/br-llm-graph/src/graph/map.rs:98-105 | the forwarded appends are those of the items one after the other in list order: item i stands exactly between two offsets |
| FanOut.WholeMapsTo | crates/br-llm-graph/src/graph/map.rs:80-107 | a whole map gives all that its items yield in list order, or the failure of the first item to fail |
| FanOut.Forward | crates/br-llm-graph/src/graph/map.rs:101-105 | the appends item after item, or the fault of the smallest failing index |
| FanOut.Attempt | crates/br-llm-graph/src/graph/map.rs:80-107 | an attempt that ends gives all that the items yield, in list order, or the first failure in list order, for any order of ends and any faithful records; bodies begin in list order, as soon as fewer than the limit run and never more; no recorded item is run, no item twice; with FailFast and no limit everything is run as with Finish |
| FanOut.RunItems | crates/br-llm-graph/src/graph/map.rs:88-97 | terminates, with bodies begun in list order as soon as and while fewer than the limit run, and none after a failure that stops them |
| FanOut.Resume | crates/br-llm-graph/src/graph/map.rs:80-107 | any number of interrupted attempts, each from the records of the earlier: the first to end gives the whole map, one that is not interrupted ends, and the body of an item that yields is run at most once in all of them |

## Left out

- The observer, its events and the tasks behind them: they see what happens and change nothing.
- Tokio tasks, timers and `select!`: which message comes next, and when the grace period is over, is given from outside.
- `NodeSlot` is a value in the slot map of `Executor.Run` rather than an object of its own; the sharing of `Arc`s of states is
  not modelled.
- The messages of a run are an arbitrary finite list, so a run that waits for ever is one whose list is used up.
- The tokens of the cancel tree live in one map under their ids, where the source has reference-counted objects; when a last
  reference goes is an action of its own.
- Waking happens together with the mutex section that took the wakers in the instance channel, and as actions of their own in
  the cancel tree. A panic of a waker is not modelled.
- Which waker instances are equal (`will_wake`) is equality of their ids.
- JSON, serde and the wire forms of checkpoints and structures; the describing of graphs.
- Error texts, causes and panic payloads: only which named error occurs. A caught panic is one more error answer.
- The model calls, tools, hooks, prompts, streams and the thinking and structure checks: how they end is given from outside.
- The races of an agent run with its cancel signal and with the drop of its instance: they end the loops from outside.
- The internals of br-llm-messages: projection, turn states, closures beyond "an AI turn with a closure is not open".
- `InboxPort::wait`, documents and attachments of mails (the body of a mail stands for them), and inboxes other than the
  in-memory one, against which paging need not end: only a cursor given twice in a row is caught.
- A cursor is a number, not the text of one; a foreign cursor is not modelled. Delivery numbers do not wrap.
- The superstep loop of br-llm-graph, subgraphs and the records of nodes; only the records of map items are modelled.
- The resolution of a concurrency limit from the configuration, and the merger, the builders and `start_state`.
- `MapReduce.Work.StopFailed`: does not model that the children's token is triggered, because no child is left to see it.
