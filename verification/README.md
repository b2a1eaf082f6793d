# A verified model of the megastructure runtime

The megastructure runtime connects components (host processes) through slaves to a master. Every component
serves its own simulation state to the others under a lock protocol, reads the others' state through a cache,
and is driven by an activity queue. The master and the slaves route requests by type. Config files save and
restore a component's constants. This project models that logic in Dafny and proves what it keeps.

The order of the files is the order of the argument.

| file | what it holds |
|---|---|
| `Prelude.dfy`, `Arithmetic.dfy` | shared types, division with remainder |
| `LockTable.dfy`, `LockServer.dfy` | the entry vector of a simulation lock and the lock handlers as functions |
| `Component.dfy` | the same handlers as classes and loops over mutable state, proved equal to the functions |
| `LockProtocol.dfy` | one lock server, any finite set of clients, FIFO channels, the message queue and the main thread as a step system |
| `Access.dfy`, `WriteStream.dfy` | reads and writes of remote cells and what doing them directly returns; the write stream |
| `LockInvariant.dfy`, `LockRounds.dfy` | the inductive invariant, the work left in a round, the cycles of grants |
| `LockSessions.dfy`, `LockEntries.dfy`, `LockHistory.dfy`, `LockEarly.dfy`, `LockFinished.dfy`, `LockGrants.dfy`, `LockRuns.dfy` | what a client's copies stand for, and what the history of a run records: sessions, reads before a waited upgrade, finished cycles, grants |
| `LockTheorems.dfy`, `LockAtomicity.dfy`, `LockLiveness.dfy` | what holds in every run: exclusion, isolation, serial order; atomicity; when a round ends |
| `LockOrder.dfy`, `LockMain.dfy`, `LockMessages.dfy` | who is granted when, by the places of the entries in the vector; when the main thread waits and what it owes; the responses as messages and the cycle they carry |
| `LockRunExamples.dfy` | two runs: where atomicity ends, and how a host gets stuck |
| `LockScripts.dfy`, `LockTraces.dfy` | a client seen from its own side, and its transactions in the log |
| `ReadLayout.dfy`, `ClientCache.dfy`, `ClientDiscipline.dfy`, `ClientTraces.dfy` | the read-bit layout, the caching client, the accesses a server throws at, the client's cycles in the server's log |
| `ActivityQueue.dfy`, `ActivityAnswers.dfy`, `ActivityThrows.dfy`, `ActivityProgress.dfy` | the scheduler of activities: what every run keeps, who gets the answers, when it throws, when it stops |
| `Routing.dfy`, `RoutingRest.dfy` | the address tables and the dispatchers; the types no host owns, other replies and misrouted requests |
| `ConfigTree.dfy`, `ConfigShape.dfy`, `ConfigIO.dfy`, `ConfigComponent.dfy`, `ConfigInstances.dfy` | the division of constants into object trees, their shape and order; saving and loading one of them, and all of a component; which constants of a running component survive |
| `PythonIterator.dfy` | the range iterator given to Python |

## How to read the lock model

`LockProtocol.Step` is a deterministic function of a state and an action; `Run` folds it over any sequence of
actions, so a statement about every `Run` is a statement about every interleaving of clients, channels, queue
and main thread. `Crash` is a throw or a failed check in a lock handler. History fields (`hist`, `own`,
`observed` and `session` in requests, and the fields of a host below `history`) record what happened and never
influence what the server does.

A host carries the caching client: its local copies, its write set, and its session, which is the accesses the
simulation made in the cycle and the values its reads returned. `ClientCache.Client` is that client as the
program writes it, with one set of bits and copies for all components. For every component it plays a script of
host steps (`LockScripts.Play`), all of them possible; `LockTraces.ScriptedCyclesAreAtomic` says what the log of a
run holds of a host that plays a script, and `ClientTraces.ClientCyclesAreAtomic` says it of that client. Each component orders the cycles of its own clients; there is
no common order over several components.

A handler of the message queue is one step although it takes the component's mutex more than once. Besides the
handlers only the main thread takes that mutex, in one guarded block of `runCycle`, and there it only reads
whether a current lock exists, clears the released flag and posts the start token. Before the round is started
a handler touches the current lock exactly once through the mutex; while the main thread waits it touches
nothing. So a step of the main thread never falls between two accesses of a handler whose order matters.

## What the code needs from its callers

- The cycle number of a host's transaction differs from that of its previous one. `LockProtocol.HostStep` has
  this as a guard, and `LockTheorems.FreshRequestAcceptedIff` shows it is exactly the condition.
- A component is not read for the first time in a cycle after it has been write locked:
  `ClientCache.Disciplined`. `ClientDiscipline.SomeRequestThrownIff` shows that a server throws at one of a
  cycle's lock requests exactly when this is violated, `ClientTraces.ProtocolThrowsIff` that this holds in every run
  of the protocol, and `ClientDiscipline.WriteThenReadIsThrown` gives the shortest such cycle.
- No activity is submitted while one that takes the same answers is outstanding, such as another test of the same
  client: `ActivityThrows.Spaced`. `ActivityThrows.SpacedRunsAreCalm` shows that the scheduler then never throws,
  `ActivityThrows.ThrowIffClash` when it can. The program does not see to it itself, see below.
- A bit mask has no more bits than the integer it is packed in: `WriteStream.Roomy`. Which sizes are generated is
  decided outside the modelled files; `WriteStream.WideMaskIsLost` gives every wider type a value that is lost.
- Host numbers are distinct across coordinators: `LockProtocol.UniqueHosts`.
  `LockTheorems.SharedHostNumberMisroutes` shows what happens otherwise.
- The nodes of an object tree have names that the load code can tell apart: `ConfigIO.Named`. Objects have file
  names of their own: `ConfigComponent.Tellable`. Constants occur once, under identities of their own, and no domain
  size needs an index of five digits: `ConfigInstances.Plain`.
- A started round ends while a program is loaded, given that holders finish what they do and messages arrive, in
  whatever order (`LockLiveness.EveryDrainEnds`). Two components that wait for each other inside their simulations
  are not excluded.

## Where the code does less than it seems to promise

- A transaction whose write upgrade had to wait can commit on top of a value it read before another writer was
  let in (`LockRunExamples.WaitedUpgradeCommitsOnAStaleRead`). Every transaction whose upgrade did not wait is
  atomic (`LockAtomicity.TransactionIsAtomic`), and one whose upgrade waited is atomic exactly when no transaction
  in between left a cell it had read with another value (`LockAtomicity.WaitedTransactionIsAtomicIff`; that the
  caching client has read whatever it was given before the upgrade is part of `ClientTraces.ClientCyclesAreAtomic`).
- A read request is answered with an error when no program is loaded. The client logs it and goes on waiting
  for a response: a run reaches this (`LockRunExamples.HostGetsStuck`), in every continuation the host and the
  main thread go on waiting (`LockLiveness.StuckForEver`), and a round can be released exactly when a program is
  loaded or no host waits for a value (`LockLiveness.ReleasableIff`).
- An activity that waits for answers takes every message of its kind, also after it has posted its completion, and
  posts it again each time; the second completion is not found and fails a check outside every handler of
  exceptions (src/core/queue.cpp:175). Two tests of one client get there, "test" typed twice
  (src/master/main.cpp:108-111) or a test beside that of an enrolment (src/master/activities.cpp:118-125), when both
  answers are queued before the first is handled (`ActivityThrows.TwoTestsThrow`); the second test then has no
  answer. The activities that load and save the config take each other's answers
  (src/master/activities.cpp:417-446, 485-515), so one of each gets there as well. The scheduler can come to throw
  exactly when a completion can come to be posted twice (`ActivityThrows.ThrowIffPostedTwice`), and after a run in which
  no two activities that still wait for the same answers were active together exactly when two can come to be
  (`ActivityThrows.ThrowIffClash`).
- The scheduler of activities can stop for ever although activities are pending. In runs without such a clash it does
  so exactly when no completion is outstanding, nobody active waits for an answer, and something is pending or about
  to be (`ActivityProgress.StuckIffHalted`, `ActivityProgress.StuckForEver`). A test of all clients that is started from
  the pending list gets there (`ActivityProgress.PromotedParentGetsStuck`): its children queue up behind an activity
  that nothing will start, because only a completion looks at the pending list and the resident activities never
  complete. Two exclusive activities of one class that both start children would block each other without that
  (`ActivityProgress.ExclusiveParentsGetStuck`); the slave's resident activities submit theirs one at a time
  (src/slave/activitiesMaster.cpp:90-101, 175-187).
- A slave refuses a request when the requester's eg socket identity equals the owner's mega socket identity.
  `Routing.RequestReachesOwner` says that this is the only mapped request that fails, and
  `Routing.EqualIdentitiesFail` gives a network in which it does. The slave has one server for mega sockets and
  one for eg sockets; each takes the identity of a peer from its own ZeroMQ socket (src/core/clientServer.cpp:128),
  which numbers its peers without knowing of the other.
- An instance index of five digits or more is saved under an identifier that is refused when loading
  (`ConfigIO.ParseInvertsMake`, `ConfigIO.SaveLoadRoundTrip`).
- When several actions have one interface object, only the first of them that owns a constant, in the order of
  gathering, gets a tree (`ConfigTree.TreeIsFirstFruitful`). No constant is lost exactly when every object has at
  most one action that owns constants (`ConfigTree.NothingIsLostIff`).
- The save code numbers the instances of an action from its enclosing object, while the program numbers them through
  all enclosing actions. A constant of an active instance survives saving and loading exactly when the instance that
  encloses its object has number 0 (`ConfigInstances.LiveSurvivesIff`), and all of them do, whatever is active, exactly
  when every object node that owns constants has at most one enclosing instance (`ConfigInstances.AllSurviveIff`).
  `ConfigInstances.SecondInstanceIsLost` gives the smallest component that loses one.
- A value with a bit set at or above the width of the integer its mask is packed in does not arrive: the
  conversion throws or the bit is cut off (`WriteStream.ValueArrivesIff`).

## Model

| member | source | states |
|---|---|---|
| LockTable.PutLooks | api/megastructure/component.hpp:147-162 | Setting a host's cycle and state changes the lookup of that host only, keeps an existing entry's coordinator, and keeps host numbers distinct. |
| LockTable.AddressesLook | src/component/activities.cpp:437-444 | The responses sent while starting readers go to exactly the coordinator and host of each entry that waited to read. |
| LockTable.PutSets | api/megastructure/component.hpp:147-162 | The first entry of the host is changed in place and keeps its coordinator; without one an entry is appended at the end. |
| LockOrder.AddressesAnswer | src/component/activities.cpp:437-444 | There is one response for each entry in the state, in the order of their indices, at the entry's coordinator and host. |
| LockServer.LockJoins | src/component/activities.cpp:312-341 | A host without a lock joins the current round, is granted at once when others are reading, or is put off to the future lock when it has finished this round; no other host's view changes. |
| LockServer.LockUpgrades | src/component/activities.cpp:357-369 | A reader asking to write is granted at once if and only if it is the only reader, otherwise it waits; the response carries its own address. |
| LockServer.GrantNextGrants | src/component/activities.cpp:434-461 | Handing on a lock that somebody still waits for never fails to find a host: exactly the listed addresses are promoted, each once, and the result is many readers or one writer. |
| LockServer.StartGrants | src/component/activities.cpp:515-551 | The start of a round grants its first batch and leaves a holder; the check for a first writer cannot fail. |
| LockServer.UnlockFinishes | src/component/activities.cpp:408-469 | A holder's unlock leaves another holder, starts all waiting readers, starts the first waiting writer, or releases the round to the future lock; every other host is promoted or undisturbed accordingly. |
| LockOrder.StartIs | src/component/activities.cpp:515-551 | For any locks: when somebody waits to read, every waiting reader becomes a holder and no other entry moves; otherwise exactly the waiting writer with the least index does; the throws are those of no lock and of nobody waiting. |
| LockOrder.UnlockIs | src/component/activities.cpp:408-469 | For any locks: the first entry of the host is finished; then the round is released if all have finished, nothing more happens while one reads, and otherwise the lock is handed on in the same order among the others. |
| LockOrder.RequestAcceptedIff | src/component/activities.cpp:292-407 | For any locks: exactly which lock requests are accepted, in terms of the host's first entries in the two vectors, and which throw refuses the others. |
| LockOrder.RequestDoes | src/component/activities.cpp:292-407 | What an accepted request does to the vectors and whether it is granted at once: a reader that joins while another reads, and a reader that upgrades while no other does. |
| LockOrder.AccessAllowedIff | src/component/activities.cpp:169-290 | A read passes exactly for an entry that reads or writes, a write exactly for one that writes; the throws tell no entry from no lock. |
| LockServer.HolderMayAccess | src/component/activities.cpp:180-239 | A holder's read, and a writer's write, pass the state checks. |
| LockServer.OnLockWithin | src/component/activities.cpp:292-407 | A lock request adds entries for the asking address only, in the current or the future lock. |
| Component.SimulationLock.IsAllFinished | api/megastructure/component.hpp:113-128 | The loop decides whether every entry is finished. |
| Component.SimulationLock.IsReading | api/megastructure/component.hpp:96-111 | The loop decides whether some entry holds the read lock. |
| Component.SimulationLock.GetHostCycleState | api/megastructure/component.hpp:131-145 | The search returns the host's entry, or nothing when there is none. |
| Component.SimulationLock.SetHostCycleState | api/megastructure/component.hpp:147-162 | The entry vector becomes the specified one (`LockTable.PutSets` says what that is) and the returned entry is the host's. |
| Component.Component.GetOrCreateCurrentLock | src/component/component.cpp:77-89 | A current lock stays; without one the future lock becomes current, and without either a new, empty one does. |
| Component.Component.GetOrCreateFutureLock | src/component/component.cpp:91-100 | A future lock stays, without one a new, empty one is made; the current one is untouched. |
| Component.Component.ReleaseCurrentLock | src/component/component.cpp:102-115 | The future lock becomes current, there is no future lock, and the released flag is set. |
| Component.Component.GetCurrentCycle | src/component/component.cpp:132-135 | The clock while a program is loaded, and 0 without one. |
| Component.Component.BeginRound | src/component/component.cpp:141-157 | With a current lock exactly one start token is posted and the flag is cleared; without one nothing happens. Either way it is the one step of the main thread out of its jobs, whatever the clients and channels are doing. |
| Component.EGRequestManager.StartAllReaders | src/component/activities.cpp:436-444 | The loop turns every waiting reader into a holder and sends each one response, in vector order, with the clock of the loaded program, or 0 without one. |
| Component.EGRequestManager.StartFirstWriter | src/component/activities.cpp:448-459 | The loop grants the first waiting writer, with that cycle, and reports whether there was one. |
| Component.EGRequestManager.OnLockRequest | src/component/activities.cpp:292-407 | The handler throws exactly when its specification does, and otherwise leaves the locks and sends the responses the specification says. |
| Component.EGRequestManager.OnReadLockRequest | src/component/activities.cpp:300-342 | The read branch computes its specification, throws included. |
| Component.EGRequestManager.OnWriteLockRequest | src/component/activities.cpp:343-406 | The write branch, both upgrades and the future lock included, computes its specification. |
| Component.EGRequestManager.OnUnlockRequest | src/component/activities.cpp:408-469 | The unlock handler computes its specification, the release included. |
| Component.EGRequestManager.SimulationLockStarted | src/component/activities.cpp:515-551 | The start handler computes its specification. |
| Component.EGRequestManager.OnReadRequest | src/component/activities.cpp:169-246 | A holder gets the cell's value, or an error response without a program; others and unknown cells make the handler throw. |
| Component.EGRequestManager.OnWriteRequest | src/component/activities.cpp:248-290 | A writer's stream is applied to the store, ignored without a program; others and unknown cells make the handler throw. |
| LockInvariant.ClientKeeps | src/component/program.cpp:177-387 | Every step of a client keeps the coupling of its phase, its messages in flight and the server's view of it. |
| LockInvariant.DeliverKeeps | src/component/activities.cpp:472-507 | Moving a request from a channel to the queue keeps the invariant. |
| LockInvariant.MainKeeps | src/component/component.cpp:117-165 | Every step of the main thread, the hand-shake included, keeps the invariant. |
| LockInvariant.StartKeeps | src/component/activities.cpp:515-551 | Handling the start token keeps the invariant and does not throw. |
| LockInvariant.LockKeeps | src/component/activities.cpp:292-407 | Handling a lock request keeps the invariant and does not throw. |
| LockInvariant.UnlockKeeps | src/component/activities.cpp:408-469 | Handling an unlock keeps the invariant and does not throw. |
| LockInvariant.AccessKeeps | src/component/activities.cpp:169-290 | Handling a read or a write keeps the invariant, the serial history included, and does not throw. |
| LockInvariant.RunKeeps | src/component/activities.cpp:169-551 | The invariant holds after every run from an initial state. |
| LockTheorems.NoHandlerThrows | src/component/activities.cpp:169-551 | No throw and no failed check of the lock handlers is reached in any run. |
| LockTheorems.ReadersWriterExclusion | src/component/activities.cpp:300-461 | In every reachable state at most one entry is writing, none is writing while another reads, and none waits to read while another reads. |
| LockTheorems.SimulationIsIsolated | src/component/component.cpp:137-165 | Nobody holds the lock while the main thread runs jobs or the simulation; while it waits, either the one start token is still queued or somebody holds, so its wake-up is not lost. |
| LockMain.JobsEndIn | src/component/component.cpp:141-157 | From any state: a step out of the jobs goes on to the simulation, changing nothing else, exactly when there is no current lock; with one it waits, with one more start token at the end of the queue and the released flag cleared. |
| LockMain.JobsCanEnd | src/component/component.cpp:141-157 | One of these two steps is always possible, the one or the other. |
| LockMain.JobsDo | src/component/jobs.cpp:20-48 | A job that loads a program replaces the old one and its clock, whatever they were; none touches the locks, the queue or the clients. |
| LockMain.WaitEndsIn | src/component/component.cpp:146-164 | The wait ends only when the round has been released; the simulation then runs once, moves the clock of a loaded program on by one, and the jobs are next. |
| LockMain.TokensComeFrom | src/component/component.cpp:143-144 | No other step posts a start token or clears the released flag. |
| LockMain.ServedBeforeSimulation | src/component/component.cpp:137-164 | In every run, a host that has an entry in the current lock while the jobs run, or while the main thread waits for the round, is granted in that round before the simulation runs again. |
| LockTheorems.FutureNeedsStartedRound | src/component/component.cpp:77-115 | A future lock exists only beside a current one whose round is in progress, and only for hosts that have finished in it. |
| LockTheorems.PhaseMatchesLock | src/component/program.cpp:197-387 | Each client's phase matches its entries in the current and the future lock. |
| LockTheorems.LocksAreConserved | src/component/activities.cpp:553-568 | Every lock request gets exactly one grant, at the address that asked, deferred or not. |
| LockTheorems.TransactionsAreSerial | src/component/activities.cpp:169-469 | The store is what applying the hosts' cycles and the component's own steps one after another leaves, and each transaction saw, since its last waited upgrade, the values that order gives it. |
| LockTheorems.EachCycleIsLoggedOnce | src/component/activities.cpp:408-469 | The log holds every cycle of a host once and in order: those whose unlock has been handled, and at most one more, whose write has been applied. |
| LockTheorems.UnlockFinishesOneCycle | src/component/activities.cpp:408-469 | Handling an unlock finishes exactly one cycle of its host, the one the host was granted for. |
| LockSessions.ClientRemembers | api/egcomponent/traits.hpp:269-320 | Every step of a client keeps: its copies are what it fetched under what it wrote, no cell is fetched twice in a cycle, and its reads so far returned what direct access returns to any stores that explain the fetched values. |
| Access.WritesAre | api/egcomponent/traits.hpp:296-320 | A sequence of accesses writes the cells it puts something into, each with the last value put. |
| Access.ReadIs | api/egcomponent/traits.hpp:269-294 | Done directly, a read returns the value last put into the cell before it, or what the store has. |
| LockAtomicity.TransactionIsAtomic | api/egcomponent/traits.hpp:269-320 | What the reads of a cycle returned, when its upgrade did not wait, is what direct access to the store at its place in the serial order returns, and what it left there are the writes it made. |
| LockAtomicity.WaitedTransactionReads | src/component/activities.cpp:357-369 | A cycle whose upgrade waited read before it from the store when it was put off, and afterwards from the store at its place in the serial order, under the copies made before. |
| LockAtomicity.WaitedTransactionIsAtomicIff | src/component/activities.cpp:357-369 | What such a cycle was given is right at its place in the order if and only if no transaction between the two places left a cell it had been given with another value; so are the values its reads returned, for a cycle that had read before its upgrade whatever it had been given. |
| LockRunExamples.WaitedUpgradeCommitsOnAStaleRead | src/component/activities.cpp:357-369 | There is a run in which a transaction whose upgrade waited commits although its read returned another value than direct access at its place in the serial order. |
| LockTheorems.ReadersSeeASnapshot | src/component/activities.cpp:248-290 | While some host holds the read lock no step changes the store or the component's cycle. |
| LockTheorems.RoundsHaveOneCycle | src/component/activities.cpp:553-568 | All grants of a round carry one component cycle; with a program loaded throughout, later rounds carry strictly larger ones. |
| LockMessages.OutboxIsDelivered | src/component/activities.cpp:553-568 | What a handler posts is what the channels carry afterwards: to each host its responses, in order, with the clock of the loaded program, or 0 without one. |
| LockMessages.HandlerIsStep | src/component/activities.cpp:553-568 | The same for the class: when the component is as the step system has it, after a handler it is as the step leaves it, and its new posts are what arrives at each host. |
| LockMessages.GrantIsSent | src/component/activities.cpp:553-568 | In every run each recorded grant is sent there and then, to a host there is, with the component's present cycle. |
| LockMessages.GrantsInFlight | src/component/component.cpp:132-135 | In every reachable state a grant on its way carries the cycle the component is in, and is the last grant recorded for its host, of the present round; so what is said of recorded grants is said of the messages hosts receive. |
| LockRounds.OnLockWork | src/component/activities.cpp:292-407 | A lock request that changes the current lock strictly lowers the work left in the round. |
| LockRounds.OnUnlockWork | src/component/activities.cpp:425-461 | An unlock that does not release the round strictly lowers the work left in it. |
| LockTheorems.RoundsAreBounded | src/component/activities.cpp:312-461 | Between two releases the current lock changes at most five times for each host there is. |
| LockTheorems.ReleaseOnlyWhenFinished | src/component/activities.cpp:427-431 | A round is released only by the unlock of its last holder, all other hosts in it having finished; the future lock takes its place. |
| LockTheorems.EveryMemberIsGranted | src/component/activities.cpp:434-461 | Whoever has finished in the current round has been granted in it, whoever reads has had its read grant and no upgrade, and whoever writes has had its write grant. |
| LockTheorems.ReleaseGrantsEverybody | src/component/activities.cpp:427-431 | When a round is released every host in it has been granted in it. |
| LockTheorems.GrantsAreDistinct | src/component/activities.cpp:357-461 | Two grants of one round to one host are its read grant and then its upgrade. |
| LockTheorems.PassedBoundedly | src/component/activities.cpp:434-461 | In any round a waiting host is passed by at most two grants to each of the others. |
| LockOrder.GrantsInOrder | src/component/activities.cpp:434-461 | In every run: after a grant nobody waits to read, so no writer is granted past a waiting reader; and a write grant goes to a reader that upgrades or to the waiting writer with the least index. |
| LockOrder.WritersInOrder | src/component/activities.cpp:448-459 | In every run: of two that wait to write in a round the one with the earlier entry has had the lock when the other is granted; entries keep their places for the round. |
| LockLiveness.DrainFalls | src/component/activities.cpp:169-551 | Each delivery, handler, reply, commit and release strictly lowers what is left to do. |
| LockLiveness.RoundCanEnd | src/component/component.cpp:137-165 | From every reachable state in which the main thread waits with a program loaded, deliveries, handlers, replies, commits and releases alone lead to the release of the round. |
| LockLiveness.EveryDrainEnds | src/component/component.cpp:137-165 | From every reachable state in which the main thread waits and nobody waits in vain for a value, in whatever order deliveries, handlers, replies, commits and releases come, there are at most as many as was left to do, and until the round is released another one is possible. |
| LockLiveness.ReleasableIff | src/component/program.cpp:251-300 | A round in progress has a continuation that releases it if and only if a program is loaded or no host waits for a value or was refused one. |
| LockLiveness.StuckForEver | src/component/program.cpp:283-286 | Once a host has been refused a value, in every continuation it keeps the lock and waits, and the main thread waits for the round. |
| LockRunExamples.HostGetsStuck | src/component/activities.cpp:210-232 | There is a run from an initial state without a program in which a host is refused a value while it holds the lock. |
| LockScripts.HostPlaysItsScript | src/component/program.cpp:177-387 | In every run a host is, from its own side, where playing its own steps and the responses that arrived takes it. |
| LockTraces.LoggedWasSent | src/component/activities.cpp:248-469 | Every transaction a host has in the log was sent by its own script, with the session the script made. |
| LockTraces.ScriptedCyclesAreAtomic | api/egcomponent/traits.hpp:269-320 | Each transaction in the log of a host that plays a script is one of the cycles the script sent, and unless its upgrade waited the values its reads returned are those of direct access at its place in the serial order. |
| LockTheorems.FreshRequestAcceptedIff | src/component/activities.cpp:304-328 | A host without a lock is accepted if and only if its cycle number is not the one it finished in this round. |
| LockTheorems.HolderRequestAcceptedIff | src/component/activities.cpp:306-374 | A holder's second request in a cycle is accepted if and only if it is a reader asking to write. |
| LockTheorems.SharedHostNumberMisroutes | api/megastructure/component.hpp:138-156 | With two hosts of one number under different coordinators, one's upgrade is granted to the other. |
| ReadLayout.NetworkAnalysis.GetDataHashBases | src/generators/generator.cpp:113-144 | The loop gives a base to exactly the members fetched over the network, and the bits of all their instances tile the range below the total. |
| ReadLayout.TilesGrow | src/generators/generator.cpp:133-140 | Giving the next member the running total as its base keeps the tiling. |
| ReadLayout.BaseExistsIffAsked | src/generators/generator.cpp:94-139 | A member has a base if and only if its buffer is of another coordinator, or of another host of this one and not simple; and this is when the reader and writer printers ask for one, and when the buffer is not in process. |
| ReadLayout.OwnHasNoBase | src/generators/generator.cpp:94-104 | Whatever has a base is a member of a buffer, and of none of the component's own. |
| ReadLayout.BasesInOrder | src/generators/generator.cpp:113-144 | Bases are handed out in the order of the buffers and of their members, each one buffer size apart. |
| ReadLayout.BitsAreDistinct | api/egcomponent/traits.hpp:288-293 | Base plus instance is injective on members and instances below the buffer size, and below the size of the bit set. |
| WriteStream.ValueRoundTrip | api/egcomponent/traits.hpp:66-256 | Decoding reads back any value, whatever its number of tokens, from the front of any stream and consumes nothing else. |
| WriteStream.ValueArrivesIff | api/egcomponent/traits.hpp:175-218 | A value is sent without a throw and arrives unchanged if and only if no bit of a mask lies at or above the width of its integer or of the conversion. |
| WriteStream.WideMaskIsLost | api/egcomponent/traits.hpp:175-218 | Every mask type with more bits than its integer has a value that does not arrive. |
| WriteStream.BitIs | api/egcomponent/traits.hpp:175-218 | Bit i of a mask has the weight 2 to the i in the number it is sent as, and is taken from there. |
| WriteStream.WireFormat | api/egcomponent/traits.hpp:66-256 | The tokens of each kind of value in order, and for a mask the one number with exactly its bits below the width; the conversion throws exactly when a bit it cannot take is set. |
| WriteStream.DecodesOnly | api/egcomponent/traits.hpp:66-256 | The decoder takes exactly what the encoder makes, and for a mask any number that is not negative. |
| WriteStream.WritesRoundTrip | src/generators/generator.cpp:897-942 | Decoding a write stream into any store sets exactly the written cells, each to the sender's value, and leaves all others alone. |
| WriteStream.WriteFormat | src/generators/generator.cpp:907-912 | The i-th write in the stream is its type, its instance and its value, after the writes before it and before those after it. |
| WriteStream.BadWrite | src/generators/generator.cpp:926-942 | After any writes, a stream goes on to throw at one with an unknown type or a value of another kind. |
| WriteStream.EncodeWriteSet | src/generators/generator.cpp:907-912 | The loop over the write set, in whatever order, throws exactly when some value cannot be converted, and otherwise produces a stream that decodes into any store to exactly the written cells' values. |
| WriteStream.RoomyStream | src/generators/generator.cpp:897-942 | When every mask fits in its integer, a stream decodes into any store to that store under the writes it was made from. |
| WriteStream.DecodeWriteRequest | src/generators/generator.cpp:926-942 | The decoding loop fails exactly when the stream is malformed or names an unknown type, and otherwise computes its specification. |
| ClientCache.FetchKeeps | api/egcomponent/traits.hpp:290-294 | Fetching one cell sets its bit and leaves every bit and copy of the component agreeing with the host that fetched. |
| ClientCache.PutKeeps | api/egcomponent/traits.hpp:309-320 | Writing one cell sets its bit and leaves every bit, copy and the write set agreeing with the host that wrote. |
| ClientCache.Client.ReadLock | api/egcomponent/traits.hpp:280-296 | The cached readlock takes the read lock and fetches the cell if needed, as possible steps of the component's host, and performs no access. |
| ClientCache.Client.Get | api/egcomponent/traits.hpp:280-296 | A cached read adds one access to the component's session, with the value it returns, and touches no other component. |
| ClientCache.Client.Put | api/egcomponent/traits.hpp:309-320 | A cached write takes the write lock if needed, adds one access to the component's session and touches no other component. |
| ClientCache.Client.Access | api/egcomponent/traits.hpp:269-320 | Any disciplined sequence of accesses takes each component's host through its part of them by possible steps, with exactly the values returned. |
| ClientCache.Client.CompleteSimulationLocks | src/generators/generator.cpp:897-924 | Exactly the write-locked components are sent one stream each, which decodes into any store to that store under the writes made to it; all bits, locks and write sets are cleared. |
| ClientCache.Client.ReleaseLocks | src/component/program.cpp:177-194 | Exactly one unlock is sent to each component any lock was taken on, and nothing to the others. |
| ClientCache.Client.Cycle | src/component/program.cpp:383-387 | Over one cycle each component's host goes through possible steps only; its session is the accesses made to it and the values returned, its write and unlock carry that session, no call of a cycle is made twice, and components not used are left alone. |
| ClientDiscipline.RequestThrownIff | src/component/activities.cpp:304-374 | A server that knows what a host was granted throws at the host's next lock request if and only if that is a first read of a component already write locked. |
| ClientDiscipline.SomeRequestThrownIff | src/component/activities.cpp:300-374 | Over a whole cycle, whatever other hosts do in between, some lock request is thrown at if and only if the cycle is not disciplined. |
| ClientDiscipline.WriteThenReadIsThrown | src/component/activities.cpp:306-311 | A write followed by a first read of the same component, even of the cell just written, is thrown at. |
| ClientTraces.ClientCyclesAreAtomic | api/egcomponent/traits.hpp:269-320 | Every transaction of the caching client in a component's log is a cycle the client sent, with the writes it made; its reads returned what direct access at its place in the serial order returns, if its upgrade waited if and only if no transaction in between left a cell it had read with another value. |
| ClientTraces.SettledIsSeen | src/component/activities.cpp:300-461 | In every run, once everything a client has sent to a component is handled, the server knows it by exactly the locks it was granted in this cycle. |
| ClientTraces.ProtocolThrowsIff | src/component/activities.cpp:300-374 | So for a client in the protocol some lock request of a cycle is thrown at if and only if the cycle is not disciplined. |
| ActivityQueue.Queue.OnStartActivity | src/core/queue.cpp:85-96 | The activity starts exactly when nothing is pending and no active one shares its class, and otherwise goes to the end of the pending list. |
| ActivityQueue.Queue.OnActivityComplete | src/core/queue.cpp:151-187 | Exactly the activities before the first occurrence of the completed one are told, in order, and that one is taken out; the first pending activity enters at the end exactly when no active one shares its class; it fails if and only if the activity is not active. |
| ActivityQueue.Queue.OnClientMessage | src/core/queue.cpp:118-128 | A message goes to the first active activity that takes it and to no other. |
| ActivityQueue.AskClients.Start | src/master/activities.cpp:196-228 | One request is sent to each client and all of them are waited for; the own completion is posted when there is none. |
| ActivityQueue.AskClients.ClientMessage | src/master/activities.cpp:230-276 | Each message of its kind strikes off its client, and the completion is posted every time that none is left. |
| ActivityQueue.TestClients.Start | src/master/activities.cpp:58-75 | One child is posted for each client, and the own completion when there is none. |
| ActivityQueue.TestClients.ActivityComplete | src/master/activities.cpp:77-95 | A child is struck off, and the own completion is posted with the last one. |
| ActivityQueue.TestBegins | src/master/activities.cpp:58-75 | In the step system too, a test that starts posts its children in order, or its completion when there is none. |
| ActivityQueue.AskerBegins | src/master/activities.cpp:196-228 | And one that asks sends one request to each client, or posts its completion when it reaches none. |
| ActivityQueue.TellIs | src/core/queue.cpp:160-173 | Those told of a completion are told one after the other; a parent strikes off the first occurrence and posts its own completion with the last child. |
| ActivityQueue.AnswerIs | src/core/queue.cpp:118-128 | The first active activity that takes an answer strikes its client off, and posts its completion whenever none is left. |
| ActivityQueue.StepKeeps | src/core/queue.cpp:80-193 | Every step keeps the scheduler's invariant, and a step throws if and only if it handles the completion of an activity that has been completed before. |
| ActivityQueue.RunKeeps | src/core/queue.cpp:80-193 | The invariant holds in every run. |
| ActivityQueue.AtMostOneOfEachExclusiveClass | api/megastructure/activity.hpp:42-55 | In every reachable state at most one activity of an exclusive class is active. |
| ActivityQueue.StartedInSubmissionOrder | src/core/queue.cpp:85-96 | Activities start in the order they were submitted, at once or from the pending list. |
| ActivityQueue.InExactlyOnePlace | src/core/queue.cpp:85-187 | Every submitted activity is in exactly one of the posted starts, the pending list, the active list and the completed ones. |
| ActivityQueue.PendingHasABlocker | src/core/queue.cpp:177-187 | While something is pending, an active exclusive activity of the class of the first or an activity that was itself started from the pending list is active. |
| ActivityQueue.ParentIsTold | src/core/queue.cpp:154-174 | The parent that waits for a child is active when the child completes, stands before it and is told. |
| ActivityQueue.ParentCompletesOnce | src/master/activities.cpp:77-95 | A parent posts its completion exactly once, when its last child has completed, and not before. |
| ActivityQueue.EachCompletionCounts | src/core/queue.cpp:151-187 | In every run, handling a completion for the first time makes the active and pending lists one shorter together; for the second time it throws. |
| ActivityAnswers.RightTaker | src/core/queue.cpp:118-128 | While no two that wait for the same answers are active, the first active activity that takes an answer is one that still waits for it. |
| ActivityAnswers.StepSound | src/core/queue.cpp:80-193 | Then every step keeps that completions are posted once and that each answer still to come is awaited by the activity that asked, and none throws. |
| ActivityThrows.CalmRunsNeverThrow | src/core/queue.cpp:151-175 | A run in which no two such activities are ever active together does not throw and posts every completion once. |
| ActivityThrows.SpacedRunsAreCalm | src/master/activities.cpp:118-125 | So it is when an activity is submitted only while none that takes its answers, or those of its children, is outstanding. |
| ActivityThrows.PostedTwiceThrows | src/core/queue.cpp:151-175 | Once a completion has been posted twice, handling no more than what is queued reaches the throw. |
| ActivityThrows.ThrowIffPostedTwice | src/core/queue.cpp:151-175 | From every reachable state, with nothing more submitted, the scheduler can come to throw if and only if a completion can come to be posted twice. |
| ActivityThrows.ClashThrows | src/master/activities.cpp:31-54 | When a step makes two activities that still wait for the same answers active together, the answers can come in an order in which one takes one too many and the scheduler throws. |
| ActivityThrows.ThrowIffClash | src/master/activities.cpp:31-54 | After a run without a clash, with nothing more submitted, the scheduler can come to throw if and only if two activities can come to clash. |
| ActivityThrows.TwoTestsThrow | src/master/activities.cpp:31-54 | There is a run of two tests of one client in which the first takes both answers, posts its completion twice and the scheduler throws, the second test having had no answer. |
| ActivityProgress.StuckIffHalted | src/core/queue.cpp:85-187 | In a state reached without a clash nothing that can still happen changes what is active or completed if and only if no completion is outstanding, nobody active waits for an answer, and something is pending or is next and not viable. |
| ActivityProgress.StuckForEver | src/core/queue.cpp:85-187 | In every continuation of such a state nothing starts, completes or is posted as complete, and the pending list only grows. |
| ActivityProgress.StuckHasACause | src/core/queue.cpp:177-187 | In such a state a resident or a parent is active that shares the class of the next activity or was itself started from the pending list. |
| ActivityProgress.StuckParentWaits | src/core/queue.cpp:85-96 | In such a state every active parent waits for a child that is pending or still posted. |
| ActivityProgress.NeverStuckWhenParentsStartAtOnce | src/core/queue.cpp:87-95 | When every resident and every parent was started at once and none shares its class with another activity, something can always change. |
| ActivityProgress.PromotedParentGetsStuck | src/master/main.cpp:110-124 | There is a run, of the master's residents, two program loads, a test of all clients and one more activity, that ends in such a state. |
| ActivityProgress.ExclusiveParentsGetStuck | src/slave/activitiesHost.hpp:136-153 | Two exclusive parents of one class submitted together end in such a state without any promotion. |
| Routing.NetworkAddressTable.RecurseClient | src/core/networkAddressTable.cpp:13-30 | Every index of the subtree that is not yet in the map gets the client; entries already there stay. |
| Routing.NetworkAddressTable.RecurseMappedClients | src/core/networkAddressTable.cpp:32-56 | The walk over the children computes its specification. |
| Routing.NetworkAddressTable.RecurseSlave | src/core/networkAddressTable.cpp:58-82 | The slave's walk computes its specification. |
| Routing.NetworkAddressTable.RecurseComponent | src/core/networkAddressTable.cpp:84-132 | The host's walk computes its specification. |
| Routing.NetworkAddressTable.BuildTable | src/core/networkAddressTable.cpp:135-150 | The table agrees with the map, holds the default elsewhere, and ends at the highest key. |
| Routing.NetworkAddressTable.GetClientForType | api/megastructure/networkAddressTable.hpp:40-43 | A lookup within the table answers what the map says. |
| Routing.MappedSays | src/core/networkAddressTable.cpp:32-56 | With distinct indices every type of a named subtree maps to that name's client, or to unmapped. |
| Routing.SlaveSays | src/core/networkAddressTable.cpp:58-82 | A slave's table sends the types of its own hosts to those hosts and all types of other coordinators to the master. |
| Routing.HostSays | src/core/networkAddressTable.cpp:84-132 | A host's table marks exactly its own types as its own and sends every other host's to the master. |
| RoutingRest.SlaveKeys | src/core/networkAddressTable.cpp:58-82 | A slave's table has an entry for a type exactly when it lies in another coordinator, in one of its own hosts, or is its own index; the coordinator's dimensions are left out. |
| RoutingRest.ComponentKeys | src/core/networkAddressTable.cpp:84-132 | A host's table has an entry for the same types. |
| RoutingRest.OthersGoToMaster | src/core/networkAddressTable.cpp:84-132 | There its coordinator's own index and everything of the other coordinators go to the master id. |
| Routing.RequestReachesOwner | src/slave/activitiesEG.cpp:105-163 | A request for a type of any host, sent by any mapped host, reaches the owner's mega socket with the requester's two stamps, or comes back as an error with exactly the stamps it had got by then when the owner is not mapped, except exactly when the slave's own check compares equal. |
| Routing.EqualIdentitiesFail | src/slave/activitiesEG.cpp:105-163 | There is a network of two mapped hosts of one slave, the eg socket of one having the identity of the other's mega socket, in which the first cannot ask for a type of the second. |
| Routing.ReplyReturns | src/master/activities.cpp:346-360 | A reply or error that carries the stamps of a routed request ends at the eg socket of the host that asked. |
| Routing.ErrorReturns | src/slave/activitiesEG.cpp:43-62 | An error raised at the owner's slave comes back to the host that asked. |
| Routing.RoundTrip | src/slave/activitiesEG.cpp:164-181 | The owner's reply, with the stamps the request arrived with, comes back to the host that asked. |
| RoutingRest.OtherRequests | src/slave/activitiesEG.cpp:105-163 | A request for a coordinator's own index is thrown at by that coordinator's slave; one for a dimension of a coordinator comes back as an error. |
| RoutingRest.UnknownType | src/slave/activitiesEG.cpp:130-150 | A request for a type that is nowhere comes back as an error from the requester's own slave. |
| RoutingRest.MisroutedFails | src/master/activities.cpp:296-345 | A request the master gets from the owner's slave, or a slave gets from the master for a type of another coordinator, is thrown at. |
| RoutingRest.RepliesGo | src/slave/activitiesEG.cpp:164-200 | For every reply or error, whatever its stamps: it goes to the host they name, at the slave they name or at the same slave, and is thrown at when they name no host or no slave there is. |
| ConfigTree.BuildTree | src/generators/configio_generator.cpp:105-126 | The loop collects the constants and the nested actions of each action in order. |
| ConfigTree.PruneTree | src/generators/configio_generator.cpp:128-156 | The loops erase exactly the subtrees without constants and report whether anything is left. |
| ConfigTree.GatherObjectTrees | src/generators/configio_generator.cpp:160-190 | The loops move each object's tree into the map, innermost first, and report whether the action is an object. |
| ConfigShape.BuildMirrors | src/generators/configio_generator.cpp:105-126 | The tree has the action's object, identity, name and domain size, its constants and its nested actions, each in order, and nothing for the other dimensions. |
| ConfigShape.TrimIs | src/generators/configio_generator.cpp:128-156 | Without nested objects and pruned, a node keeps its constants and, in order, exactly the children in which a constant can be reached. |
| ConfigShape.TreeComesFrom | src/generators/configio_generator.cpp:160-190 | An object has a tree if and only if some node of it owns a constant; the tree is the first of these nodes, trimmed, where one inside another comes before it and of two others the one further left. |
| ConfigTree.PruneKeeps | src/generators/configio_generator.cpp:128-156 | Pruning loses no constant. |
| ConfigTree.PruneFertile | src/generators/configio_generator.cpp:128-156 | After pruning every node has a constant at or below it. |
| ConfigTree.GatherChooses | src/generators/configio_generator.cpp:160-190 | Gathering any tree keeps what was in the map and gives each new object the first of its nodes, innermost first, that owns a constant. |
| ConfigTree.TreeOfObject | src/generators/configio_generator.cpp:180-183 | That node enters the map without the objects nested in it and pruned, and an object whose nodes own nothing has no tree. |
| ConfigTree.TreeIsFirstFruitful | src/generators/configio_generator.cpp:160-190 | The tree of an object holds exactly the constants that this node owns, and has no node without a constant at or below it. |
| ConfigTree.ConstantsArePartitioned | src/generators/configio_generator.cpp:538-546 | When every object has at most one node that owns constants, each constant is in the tree of its nearest enclosing object and in no other. |
| ConfigTree.NothingIsLostIff | src/generators/configio_generator.cpp:538-546 | Of constants that occur once, every one is in the tree of its nearest enclosing object if and only if every object has at most one node that owns constants. |
| ConfigTree.SharedObjectLosesConstants | src/generators/configio_generator.cpp:180-183 | With two actions of one object and a constant each, the second constant is not in the object's tree. |
| ConfigIO.ParseInvertsMake | src/generators/configio_generator.cpp:554-579 | Parsing a made identifier returns the name and index if and only if the name is not empty and the index has at most four digits; all others are refused. |
| ConfigIO.MakeInvertsParse | src/generators/configio_generator.cpp:554-579 | Whatever parses is what making it again gives. |
| ConfigIO.IdentifierIs | src/generators/configio_generator.cpp:554-584 | A name, an underscore and four characters of "0123456789" are read as the name and the decimal number they spell, and that number is written so. |
| ConfigIO.RefusedIff | src/generators/configio_generator.cpp:557-575 | An identifier is accepted exactly when it has more than five characters, the fifth from the end is an underscore and the last four are decimal digits. |
| ConfigIO.LongIdentifierIs | src/generators/configio_generator.cpp:579-584 | From four digits on each further digit is put at the end; none is cut off. |
| ConfigIO.IdentifiersInOrder | src/generators/configio_generator.cpp:579-584 | Identifiers of one name are ordered, character by character, as their indices of up to four digits are. |
| ConfigIO.ComputeIndex | src/generators/configio_generator.cpp:192-206 | The expression printed from the innermost action outwards is the mixed-radix number of the indices. |
| ConfigIO.FlatBelow | src/generators/configio_generator.cpp:192-206 | Indices in range have a flat index below the product of the domain sizes. |
| ConfigIO.FlatInjective | src/generators/configio_generator.cpp:192-206 | Different index tuples in range have different flat indices. |
| ConfigIO.FlatSurjective | src/generators/configio_generator.cpp:192-206 | Every number below the product is the flat index of some tuple in range. |
| ConfigIO.EnclosingInstance | src/generators/unreal_generator.cpp:811 | The flat index divided by the action's own domain size is that of the enclosing instance, and the remainder is the index in it. |
| ConfigIO.InstancesReturn | src/generators/configio_generator.cpp:258-272 | Loading the saved instances of a nested tree restores exactly their constants. |
| ConfigIO.SaveWrites | src/generators/configio_generator.cpp:361-455 | The file of an object has one node for each active instance, in order of the indices, holding its constants in order, each under its name and 0000 with the value at the flat index, and then the instances of the nested actions in order. |
| ConfigIO.ConstantLoads | src/generators/configio_generator.cpp:233-257 | A node with a constant's name sets that constant of the enclosing instance, whatever index follows the name. |
| ConfigIO.TreeLoads | src/generators/configio_generator.cpp:258-272 | A node with a nested action's name and any index of up to four digits is loaded into the instance of that index below the enclosing one. |
| ConfigIO.NodeFails | src/generators/configio_generator.cpp:274-284 | A node with any other name, or without an identifier, is logged and skipped. |
| ConfigIO.LoadAppend | src/generators/configio_generator.cpp:219-224 | A file is loaded from its first node to its last. |
| ConfigIO.SaveLoadRoundTrip | src/generators/configio_generator.cpp:208-455 | Loading what was saved restores every constant of every saved active instance at its own flat index and changes nothing else; no error is logged if and only if no saved index has five digits or more. |
| ConfigIO.InstancesAreDistinct | src/generators/configio_generator.cpp:192-206 | The instance a saved constant is read from is the mixed-radix number of the indices on the way, so instances reached by different indices are saved from different cells. |
| ConfigComponent.FilesRoundTrip | src/generators/configio_generator.cpp:614-634 | Loading all files that were saved restores what was saved of any object and changes nothing else, without an error if and only if no saved index has five digits or more. |
| ConfigComponent.FilesAre | src/generators/configio_generator.cpp:625-634 | There is a file for each object and no other. |
| ConfigComponent.MissingFiles | src/generators/configio_generator.cpp:354-357 | An object whose file is missing is logged and left as it is. |
| ConfigComponent.ComponentRoundTrip | src/generators/configio_generator.cpp:538-634 | When every object has at most one node that owns constants, saving and loading all objects restores exactly the constants that the save loops come to, with instances numbered from each object, and changes nothing else. |
| ConfigInstances.LiveSurvivesIff | src/generators/configio_generator.cpp:192-206 | A constant of an active instance, with instances numbered through all enclosing actions, survives saving and loading if and only if the instance that encloses its object has number 0. |
| ConfigInstances.AllSurviveIff | src/generators/configio_generator.cpp:361-375 | Every constant of every active instance survives, whatever is active, if and only if every object node that owns constants has at most one enclosing instance. |
| ConfigInstances.SecondInstanceIsLost | src/generators/configio_generator.cpp:361-375 | In the component of a root, an action with two instances and an object with a constant below it, the constant of the object's second instance is live and is not brought back. |
| PythonIterator.Iterator.ScanToNextOrEnd | src/python/python_iterator.cpp:37-70 | The nested loops stop at the first valid place from the current one on, or at the end, and terminate. |
| PythonIterator.Iterator.Increment | src/python/python_iterator.cpp:72-78 | Incrementing drops exactly the first of the places still to come. |
| PythonIterator.Iterator.Equals | src/python/python_iterator.cpp:87-97 | Two iterators are equal if and only if they are over the same range object and the same places are still to come. |
| PythonIterator.EnumeratesExactlyTheValid | src/python/python_iterator.cpp:37-70 | The places enumerated are exactly the valid positions of all subranges, in order. |
| PythonIterator.Enumerate | src/generators/python_generator.cpp:886 | Going from the begin to the end iterator yields every valid place once, in order. |

## Left out

- ZeroMQ, threads, mutexes and protobuf: channels are FIFO sequences, messages are datatypes, a handler is one step.
- Crashes, disconnects and removal of clients: the lock server has no recovery from a lost holder.
- The list of jobs: running them is one step that may load, unload or configure the program. A program that is loaded
  has the schema's cells: loading one with other types, and clients that still ask for the old ones, is not modelled.
- The 32-bit width of cycle numbers: they are natural numbers, so a wrap-around of the clock is not modelled.
- The scheduler, the plugin and what a simulation does to its own store: one step with an arbitrary result.
- The overloads of readlock and writelock for buffers in shared memory: they take the lock and fetch nothing.
- Scheduler calls in the generated write decoder: only the effect on the store is modelled.
- The byte format of msgpack and of the config files: a value is a sequence of self-delimiting tokens, or one token.
- Conversion between a type identity and its path in config files: taken to be an inverse pair, since the path function is not part of this model.
- Starters called while loading a config: they are not part of this model and are taken to leave constants alone.
- Config files as such: a file is a list of nodes under its name, and objects are taken to have distinct identifiers.
- Out-of-range types: a lookup beyond the end of an address table is undefined in the program and is excluded.
- Events: they are broadcast by the slaves and have no owner.
- The table of programs by type and the enrolment activity's own map of tests: they repeat the walks and the bookkeeping modelled here.
- HostMap, the mapping of processes to host names, and ClientMap: the routing model takes their result.
- The activities of the master that walk and change the client map: only the enrolled names enter the model.
- ConfigTree.BuildTree: shared nodes updated in place are modelled as values that the loops rebuild; the tree has no aliases, so nothing else can see the difference.
- LockLiveness.RoundCanEnd: says that the round can be brought to its end, not that the scheduler of the operating system does so.
- Requests that cannot be sent: an activity is modelled with the clients it reaches, and one that reaches none posts its completion at once. The master's load and config activities do so only when there is no client at all; with clients of which none is reached they never complete.
- The host's enrolment (src/component/activities.cpp:28-84): it asks a second time after the first answer, and is taken to ask once.
- Clients that answer nothing: an answer to each request may come at any time or never, so a slave that refuses a second config request without an answer is covered where nothing is said to arrive, and taken to answer in `ActivityProgress`.
- LockTheorems.RoundsAreBounded: bounds the changes between two releases, not the number of reads a holder makes.
