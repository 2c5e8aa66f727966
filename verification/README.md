# Verification model of vialite's Go package

vialite translates Minecraft backends for the Gate proxy. Its Go package starts a
translation runtime, either in process or as child processes, gives every backend a
loopback address, and answers "where do I dial backend X?". This project models the
package's concurrent core in Dafny and proves what it keeps. Run
`dafny verify dfyconfig.toml` here to check everything.

## How the model is built

**Dynamic backends** (`Registry`, `Protocol*`, `Runner`). `addBackend` releases the
runner's mutex between its steps, so it interleaves with other adds, removals, exits of
children, the restart loop and the teardown. `Protocol` is a transition system with one
step for each region under the mutex, for each store to the lock-free `healthy` flag, for
the end of each stop, and for everything the operating system, foreign processes and the
address allocator may do. `Enabled` and `Apply` hold the branches of the code; the regions
themselves are the map functions of `Registry`. `Runner.SubprocessRunner` is the object
the source has, five maps updated in place, and each of its methods is proved to be the
`Registry` function the protocol takes for that region. Two kinds of theorem follow:
about every run (`Reachable`) and about every run under hypothesis H (`ReachableUnderH`).

**Hypothesis H** (`Protocol.Quiet`): no add for a key is admitted while an earlier failed
add for that key is still cleaning up. The code does not enforce it: failing adds give up
their admission mark or their place in `pending` before they drop their reservation, and
go/subprocess.go:466 deletes the mark a second time. `ProtocolWindow.AdmissionSafeIffQuiet`
proves that H is exactly the condition under which no continuation of an admission has two
adds in progress for one key or two adds using one address; an add that is merely cleaning
up counts as neither, so the admission itself does no damage. `ProtocolOrphan.WindowIsOpen`
shows that the window opens after one failed start, and
`ProtocolOrphan.OrphanIsReachable` that without H a published, running child can be lost.
To keep every child accounted for less than H is enough: `ProtocolLost.AdmissionLosesChildIff`
proves that an admission can cost a child exactly when an earlier add of the key still has a
second delete of the mark ahead of it, and `ProtocolKeys` keeps what the weaker rule
(`Allowed`) needs.

`ProtocolOutcome` says what becomes of an add: which steps fail it, that there is no way
back, and that it is published and found when nothing fails.

**Static supervisor** (`Backoff`, `Readiness`, `Supervisor`, `SupervisorRefinement`). The
restart loop writes a log, and a log is judged by a replay automaton that knows nothing of
the loop; which way the loop leaves is a function of its inputs (`Supervisor.LeavingOf`).
`SupervisorRefinement` shows that a log is a run of the protocol's own `run` actor, leaving
included, and that interleaved with anything else it keeps what is published.

**Server** (`ServerLifecycle`, `Server`). Generations of `Start` share one set of fields.

**Names, options and the alias index** (`Names`, `Aliases`, `BackendOptions`, `Embedded`).
Both runners keep a map with two spellings for each backend; it is compared with a plain
map from lookup names. `EmbeddedLifecycle` interleaves the embedded runner's `run` with the
calls that come in while it runs.

**Smaller cores**: `Text` (Go's string functions), `Matcher`, `ListenerOwner`, `Download`,
`Describe`.

## What the code does not keep

Each of these is stated and proved in the form it holds.

- The documentation of `Options.ReserveLoopbackAddress` (go/vialite.go:58-60) and of
  `releaseAddr` (go/subprocess.go:81-84) promise exactly one release once a backend no
  longer uses its address. A backend unpublished by the exit watcher of its own child gets
  none: `ProtocolTheorems.ReleasedIffNotSelfExited`, `ProtocolTheorems.SelfExitLeaks`, and
  the run `ProtocolLeak.LeakIsReachable`.
- `run` leaves without a teardown at go/subprocess.go:169, 207-208 and 217-218 in the
  cases that `Supervisor.RunTearsDownIff` characterises
  (`Supervisor.RunsThatSkipTheTeardown` gives scripts); published backends then stay
  published and nobody stops them: `ProtocolPublished.LeavingStrandsPublished`.
- Static addresses are not compared with each other (go/subprocess.go:693-700), so address
  exclusivity is claimed only when one side is dynamic: `BackendOptions.StaticsDistinctIff`,
  `BackendOptions.StaticsCanCollide`.
- `Start` lowers `started` before `ready` (go/server.go:80-81). A next `Start` between the
  two can be reported not ready for good: `ServerLifecycle.StartSafeIffPrompt` gives the
  exact condition and `ServerLifecycle.StaleWindowIsReachable` a run into it.
- `WaitReady` reads the verdict after waking up, so a waiter of a failed start can be told
  nil if the next `Start` begins first: `ServerLifecycle.FailureReadAsReady`, reached by
  `ServerLifecycle.FailedWaiterIsReachable`.
- `run` returning nil without having been ready is published as readiness
  (go/server.go:78): `ServerLifecycle.NilVerdictIff` says exactly when a verdict is nil, and
  `ServerLifecycle.NilReturnLooksReady` is a run into the case that is not readiness.
- The first restart pause is `MinBackoff` even when that exceeds `MaxBackoff`, and the
  doubling wraps for some policies that `validate` accepts: `Backoff.PauseIsCappedDoubling`,
  `Backoff.NeverWrapsIff`.
- `Stop` reads the stored error after joining, so a stopped generation that failed can be
  reported as a success: `ServerLifecycle.StopJoinsItsGeneration` says what it reads, and
  `ServerLifecycle.FailureStopsAsSuccess` is such a run.
- A rejected backend list is left partly rewritten in the caller's slice:
  `BackendOptions.RejectedUntouchedIff` says exactly which lists come back untouched, and
  `BackendOptions.RejectedAndChanged` gives two that do not.

## Model

| member | source | states |
|---|---|---|
| Names.LookupNameIdempotent | go/options.go:98-100 | a lookup name is its own lookup name, and trimming the name first changes nothing |
| Names.SameLookupIff | go/options.go:98-100 | two names have one lookup name if and only if, without the white space at their ends, they agree letter by letter up to case |
| Names.LookupNameIs | go/options.go:98-100 | a lookup name is the trimmed name in lower case, letter for letter |
| Names.TrimSpaceCuts | go/options.go:98-100 | trimming cuts white space off the two ends, all of it and nothing else |
| Names.PaddingIsTrimmed | go/options.go:98-100 | white space around a name changes neither what it trims to nor its lookup name |
| Names.SpacesAre | go/options.go:98-100 | which characters are white space |
| Aliases.ResolveIsByLookupName | go/subprocess.go:361-372 | on an index that agrees with a plan, the answer for any spelling depends on its lookup name only |
| Aliases.SpellingsResolve | go/subprocess.go:361-372 | a backend's name written in any case, with any white space around it, resolves to its address, and a name that differs otherwise has another key |
| Aliases.RetryIsRedundant | go/server.go:160-166 | on any index whatever, the Server's second question with the normalised name answers what the first one did |
| Aliases.StoreAgrees | go/subprocess.go:704-707 | storing both spellings of a new name adds exactly that backend to the plan |
| Aliases.DeleteTwoAgrees | go/subprocess.go:552-554 | deleting both spellings removes exactly that backend from the plan |
| Aliases.RemovalsAgree | go/embedded.go:136-140 | scan-and-delete and two deletes give the same map |
| Aliases.ScanDeleteForgetsEverySpelling | go/embedded.go:136-140 | after scan-and-delete no spelling of the name resolves, on any index |
| Aliases.LoopbackAgrees | go/subprocess.go:693-701 | for names with distinct lookup names, later stores never overwrite an earlier backend's spellings |
| Aliases.DistinctKeysIff | go/options.go:53-57 | names are distinct for `validate` if and only if no two agree up to case and outer white space |
| Aliases.ToldEqualsPublished | go/config.go:30-34 | the bind a child is told is the address any spelling of its name resolves to |
| ProtocolInv.CoreStep | go/subprocess.go:374-597 | every step under H keeps the books: one active add for each key, recorded in the maps, no stale reservation, index equal to the plan |
| ProtocolInv.HolderIsAlone | go/subprocess.go:782-806 | two adds between reservation and cleanup never hold the same address |
| ProtocolChildren.LaunchFindsPendingFree | go/subprocess.go:454-475 | when a child goes pending its key has no pending entry |
| ProtocolChildren.PublishFindsDynamicFree | go/subprocess.go:505-530 | when a child is published its key has no dynamic entry and its pending entry is its own |
| ProtocolChildren.ChildrenStep | go/subprocess.go:374-597 | every step under H keeps each child that is not reaped in a map or with somebody about to stop it |
| ProtocolLedger.LedgerStep | go/subprocess.go:424-433 | every step of any run keeps every embedder address either released once or with exactly one add |
| ProtocolLedger.OnlyReturnedOutstanding | go/subprocess.go:782-806 | after the eight tries every address taken is released if and only if it is not the one returned |
| ProtocolShutdown.FlagStep | go/subprocess.go:171-215 | `healthy` is up exactly between the stores that raise and lower it, so it is down at every teardown |
| ProtocolShutdown.NothingAfterTeardown | go/subprocess.go:454-530 | whatever runs on after the teardown, nothing is published and no child is started |
| ProtocolShutdown.ServingStep | go/subprocess.go:493-503 | when children keep their ports, a listener seen to belong to a child stays with it while the child lives |
| ProtocolTheorems.IndexIsPlan | go/subprocess.go:521-530 | under H any spelling resolves to the static plan plus exactly the published dynamic backends, and no dynamic backend replaces a static one |
| ProtocolTheorems.LateExitHarmless | go/subprocess.go:585-597 | the watcher of a child that is no longer the published one changes no map, in any run |
| ProtocolTheorems.AddressesExclusive | go/subprocess.go:759-806 | under H, against any allocator, a reserving, pending or published dynamic backend shares its address with no other backend, static or dynamic |
| ProtocolTheorems.LivePublishedDistinct | go/subprocess.go:493-503 | without H, when ownership is known and children keep their ports, live published children hold their own listeners, so their addresses differ |
| ProtocolTheorems.NobodyOrphaned | go/subprocess.go:454-535 | under H a child not yet reaped is in `pending`, in `dynamic` or owned by an actor committed to stopping it |
| ProtocolTheorems.EntriesNeverOverwritten | go/subprocess.go:473-529 | under H no step replaces an entry of `pending` or `dynamic` by another |
| ProtocolTheorems.TeardownStopsEveryChild | go/subprocess.go:560-583 | once a torn-down run is at rest, nothing is published, the index is the static one, and every child was reaped or could not be signalled |
| ProtocolTheorems.NothingPublishedAfterTeardown | go/subprocess.go:505-530 | in any run and any continuation after the teardown, no add gets published and no child starts |
| ProtocolOutcome.AddFailsIff | go/subprocess.go:436-520 | each step of an add's own call brings it to the next phase, or puts it on its way back exactly when its config, its start, its wait, an answered ownership question or a stop says so |
| ProtocolOutcome.AllocationFailsIff | go/subprocess.go:417-423 | an allocation gives the add its address and reserves it exactly when its last answer was acceptable |
| ProtocolOutcome.TakesWhatIsOffered | go/subprocess.go:786-804 | an allocation takes from the embedder exactly the addresses it was offered, none without an embedder's allocator |
| ProtocolOutcome.FailedNeverPublished | go/subprocess.go:477-520 | no continuation publishes an add that is on its way back |
| ProtocolOutcome.OwnershipDecides | go/subprocess.go:493-530 | from the ownership check of a healthy runner's pending add: unanswered or answered yes, it is published and every spelling resolves to it; answered no, its child is stopped and no continuation publishes it |
| ProtocolOutcome.CheckFollowsAnswer | go/subprocess.go:905-914 | the protocol's check lets an add through exactly when the answer of `listenerOwnedByPID` is unknown or yes |
| ProtocolOutcome.EndWaitFollowsVerdict | go/subprocess.go:477-491 | the protocol's wait may end ready exactly when the waiter, seeing the child as it is, says so |
| ProtocolOutcome.OnlyFailedSignals | go/subprocess.go:629-651 | a child is excused as not signalled only if a signal to it failed |
| ProtocolOutcome.OthersUntouched | go/subprocess.go:411-530 | no step of one add's call touches a mark, an entry or a reservation of another key |
| ProtocolOutcome.WindowsOpenIff | go/subprocess.go:454-519 | the window of H opens exactly at a start that fails or comes too late, a refused publication and leaving `pending`; only a start that fails while healthy leaves a second delete ahead |
| ProtocolTheorems.AddressesConserved | go/subprocess.go:88-95 | in any run each embedder address is released at most once, exactly once by a failed add, never while a child told to use it may live, and none is lost or shared |
| ProtocolTheorems.ReleasedIffNotSelfExited | go/subprocess.go:585-597 | under H a published backend that is gone has released its address exactly once if and only if it was not unpublished by its exit watcher |
| ProtocolTheorems.SelfExitLeaks | go/subprocess.go:585-597 | from any state with a live published backend, its child's own exit leads to a state after which no continuation releases the address |
| ProtocolPublished.PublicationEndsIff | go/subprocess.go:538-597 | a step ends a publication if and only if it is the teardown, a removal of the key, or the exit watcher of its own child |
| ProtocolPublished.PublishedStays | go/subprocess.go:160-224 | under H, through any other steps, restarts included, an entry stays, every spelling of its key resolves to its address, and nobody is about to stop its child |
| ProtocolPublished.LeavingStrandsPublished | go/subprocess.go:207-219 | after `run` leaves without a teardown the same holds for good, with no teardown in any continuation |
| ProtocolWindow.AdmissionSafeIffQuiet | go/subprocess.go:378-409 | an admission, harmless itself, can lead to two adds in progress for one key or two adds using one address if and only if an earlier failed add of the key is still cleaning up |
| ProtocolOrphan.WindowIsOpen | go/subprocess.go:462-468 | a run that respects H reaches a state where the code admits a key inside the window |
| ProtocolOrphan.OrphanIsReachable | go/subprocess.go:462-468 | without H a run reaches a live published child that no map names and nobody will stop |
| ProtocolKeys.KeyedStep | go/subprocess.go:374-597 | every step under the weaker rule keeps one owner for each key, recorded in the maps, whose key is not published |
| ProtocolKeys.HRunIsAllowed | go/subprocess.go:378-409 | every run under H is a run under the weaker rule |
| ProtocolKeys.NobodyLost | go/subprocess.go:454-535 | under the weaker rule a child not yet reaped is in `pending`, in `dynamic` or owned by an actor committed to stopping it |
| ProtocolLost.AdmissionLosesChildIff | go/subprocess.go:462-468 | an admission, harmless itself, can cost a child in some continuation if and only if an earlier add of the key has a second delete of the mark ahead of it |
| ProtocolLost.LossIsReachable | go/subprocess.go:462-468 | a run reaches such an admission |
| ProtocolLeak.LeakIsReachable | go/subprocess.go:585-597 | a run with an embedder's allocator publishes a backend whose address nothing ever releases once its child has exited by itself |
| Runner.SubprocessRunner.constructor | go/subprocess.go:115-130 | a new runner is unhealthy with all five maps empty |
| Runner.SubprocessRunner.BackendAddress | go/subprocess.go:361-372 | asks for the spelling, then for its lookup name |
| Runner.SubprocessRunner.StoreBackendAddress | go/subprocess.go:704-707 | writes exactly the two spellings |
| Runner.SubprocessRunner.Admit | go/subprocess.go:378-409 | admits exactly a healthy runner's unclaimed key and marks it, changing nothing else; says whether it was not started or a duplicate |
| Runner.SubprocessRunner.CleanupAdding | go/subprocess.go:411-415 | drops the admission mark and nothing else |
| Runner.SubprocessRunner.AddressOwnerLocked | go/subprocess.go:759-774 | finds an owner exactly when there is one, for every order of the map iterations |
| Runner.SubprocessRunner.ReserveDynamicAddressLocked | go/subprocess.go:782-806 | tries up to eight offers, returns the first one free or its own, reserves exactly it, and gives back exactly the conflicting ones |
| Runner.FirstFreeIsReserved | go/subprocess.go:786-804 | of eight offers the first one that nobody else is promised is the one reserved |
| Runner.NoneFreeNoneReserved | go/subprocess.go:786-805 | when others are promised all eight, all eight are tried and none is reserved |
| Runner.SubprocessRunner.ReleaseReservation | go/subprocess.go:424-429 | drops the reservation only when it still names this key |
| Runner.SubprocessRunner.Launch | go/subprocess.go:454-475 | drops the mark in every branch and goes pending only when healthy and started |
| Runner.SubprocessRunner.LeavePending | go/subprocess.go:479-482 | removes the pending entry only when it is this process |
| Runner.SubprocessRunner.PublishOrRefuse | go/subprocess.go:505-530 | publishes exactly when healthy and still pending, moving the entry, the reservation and the two spellings together |
| Runner.SubprocessRunner.Remove | go/subprocess.go:542-555 | takes the published process of the key and both its spellings, or changes nothing |
| Runner.SubprocessRunner.RemovalError | go/subprocess.go:545-551 | a name that resolves but is not dynamic is unsupported, any other is not found |
| Runner.SubprocessRunner.DynamicBackendExited | go/subprocess.go:585-597 | forgets the process only where the maps still name it |
| Runner.SubprocessRunner.StopDynamicBackends | go/subprocess.go:560-579 | empties the four dynamic maps and their spellings and hands over exactly the processes that were in them |
| Backoff.PauseIsCappedDoubling | go/subprocess.go:217-223 | for bounds in [0, 2^62) pause 0 is MinBackoff and pause k is min(MinBackoff * 2^k, MaxBackoff) |
| Backoff.NeverWrapsIff | go/subprocess.go:220-223 | exactly which policies never wrap int64, however many restarts happen |
| Readiness.AllBackendsDialable | go/subprocess.go:346-355 | true exactly when every address answers, in any order |
| Readiness.WaitBackendListeners | go/subprocess.go:251-292 | follows the abstract wait machine and takes the one-shot exit value exactly when it reports the child gone |
| Readiness.WaitBackendListenersProcess | go/subprocess.go:294-333 | follows the same machine for a dynamic child |
| Readiness.ReadyMeansPassThenAlive | go/subprocess.go:257-273 | ready if and only if a turn with a full pass and a child not seen exited came before any exit or deadline |
| Readiness.ExitWins | go/subprocess.go:264-279 | an exit visible at the deciding turn wins, with an error even for exit status zero |
| Readiness.LateIff | go/subprocess.go:280-288 | too late if and only if the deadline decided, or nothing did |
| Supervisor.StaticSupervisor.Receive | go/subprocess.go:172-173 | the exit value is there once and is received from a live child only |
| Supervisor.StaticSupervisor.WaitProcess | go/subprocess.go:227-249 | receives the exit value unless a signal it needs cannot be sent; nil when stopped on request and reaped, the child's own error when it ended by itself |
| Supervisor.StaticSupervisor.RunDynamicOnly | go/subprocess.go:132-138 | without static backends the run starts no child and ends torn down |
| Supervisor.StaticSupervisor.GiveUp | go/subprocess.go:176-197 | a child that never became ready is reaped; the run is torn down exactly when it was stopped |
| Supervisor.StaticSupervisor.Watch | go/subprocess.go:199-204 | a ready child is watched to its end; torn down exactly on cancellation or a clean exit |
| Supervisor.StaticSupervisor.Serve | go/subprocess.go:171-205 | one attempt ends with the error its inputs give and receives the exit value once, unless a stopped child could not be signalled |
| Supervisor.StaticSupervisor.Settle | go/subprocess.go:207-223 | after an attempt: leaves torn down, leaves everything running, or pauses and goes round again, as its inputs say |
| Supervisor.StaticSupervisor.TryOnce | go/subprocess.go:161-223 | takes the exit its inputs give; goes round again only after its child was reaped; leaves torn down exactly at the exits that tear down, else as it is |
| Supervisor.StaticSupervisor.Run | go/subprocess.go:160-224 | leaves as its script says, after as many attempts, pauses and readiness reports as it says; one child at a time, at most retries + 1 of them, pauses as computed |
| Supervisor.ReadyChildEnds | go/subprocess.go:199-223 | a ready child that nobody stops ends the run cleanly if and only if its status is zero; otherwise the run pauses and starts another, or is exhausted at the last retry |
| Supervisor.UnreadyChildEnds | go/subprocess.go:176-223 | one that never became ready is restarted or exhausts the retries, whatever its status |
| Supervisor.RestartsThenEnds | go/subprocess.go:160-224 | a script of two crashes and a clean end pauses twice and ends cleanly |
| Supervisor.AttemptTearsDownIff | go/subprocess.go:176-219 | an attempt ends in a teardown if and only if it was stopped before ready, or ready and stopped or ended with status zero or on request, or the last crash allowed |
| Supervisor.RunTearsDownIff | go/subprocess.go:160-224 | a whole run ends in a teardown if and only if the first attempt that leaves does |
| Supervisor.ExhaustedIff | go/subprocess.go:213-216 | retries are exhausted if and only if exactly retries + 1 attempts fail, none stopped and no pause interrupted |
| Supervisor.RunsThatSkipTheTeardown | go/subprocess.go:168-219 | three scripts that leave without a teardown: a restart that cannot start, a late cancellation, one during the pause |
| SupervisorRefinement.LogIsProtocolRun | go/subprocess.go:160-224 | every log of the supervisor, leaving without a teardown included, is a run of the protocol that ends in the same place |
| SupervisorRefinement.RetriesKeepDynamics | go/subprocess.go:176-223 | in any interleaving of the loop with adds, removals and exits, as long as the loop has not torn down, a published backend stays published at its address unless removed or its child exits |
| ServerLifecycle.OneActiveRun | go/server.go:58-82 | at most one run is active, it is the last generation's, and started is true meanwhile |
| ServerLifecycle.ChannelsClosedOnce | go/server.go:75-83 | each generation closes its ready and done channels exactly once, done last |
| ServerLifecycle.VerdictWriteOnce | go/server.go:203-215 | a published verdict never changes |
| ServerLifecycle.WaiterIsTold | go/server.go:96-101 | a waiter reads its own generation's verdict unless a later Start has begun |
| ServerLifecycle.FailureReadAsReady | go/server.go:96-101 | a waiter of a failed generation is told nil if the next Start begins before it reads |
| ServerLifecycle.StopJoinsItsGeneration | go/server.go:121-143 | Stop pairs cancel and done of one generation and reports what the last generation has stored, nil while that has stored nothing, cancellation as success |
| ServerLifecycle.StopAnswers | go/server.go:132-140 | a joined Stop answers nil if and only if the last generation has stored nothing, nil or the cancellation error, and otherwise what that generation's run returned |
| ServerLifecycle.StopHasCancelled | go/server.go:131-133 | a Stop that joins has cancelled its generation |
| ServerLifecycle.CancelledStopSucceeds | go/server.go:134-137 | a run in which the stopped generation returns the cancellation and Stop answers nil |
| ServerLifecycle.FailureStopsAsSuccess | go/server.go:133-140 | for every error a run in which the Stop of a generation that failed with it reports success |
| ServerLifecycle.FailedWaiterIsReachable | go/server.go:96-101 | for every error a run leads to such a waiter |
| ServerLifecycle.NilVerdictIff | go/server.go:77-78 | a published verdict is nil if and only if the runner reported ready or `run` returned nil |
| ServerLifecycle.NilReturnLooksReady | go/server.go:77-81 | a run publishes readiness, started and ready both true, though the runner never reported it |
| ServerLifecycle.StartSafeIffPrompt | go/server.go:80-81 | a Start leaves the ready flag trustworthy for good if and only if no earlier Start is between its last two stores |
| ServerLifecycle.StaleWindowIsReachable | go/server.go:80-81 | a run reaches a Start inside that window |
| Server.Server.constructor | go/server.go:41-56 | a new server has no generation |
| Server.Server.BeginStart | go/server.go:59-73 | refuses a second start, else opens a fresh generation and resets the fields |
| Server.Server.MarkReady | go/server.go:203-215 | publishes the first verdict only and closes the channel with it |
| Server.Server.BeginStop | go/server.go:122-129 | picks up cancel and done of the running generation, or refuses |
| Server.Server.Healthy | go/server.go:146-151 | healthy only when started, ready and the runner is healthy |
| Server.Server.BackendDialAddress | go/server.go:153-174 | not started, not ready, then the runner's answer for any spelling |
| BackendOptions.NormalizeIdempotent | go/options.go:62-96 | normalising an accepted backend again changes nothing |
| BackendOptions.NormalizeFaults | go/options.go:66-95 | which fault is reported, and when none is |
| BackendOptions.NormalizeFields | go/options.go:62-96 | what each field of an accepted backend becomes: trimmed, the automatic version in any case turning detection on, forwarding none by default |
| BackendOptions.Validate | go/options.go:43-60 | accepts exactly lists whose backends normalise and whose lookup names differ pairwise; rejects at the first entry that fails, with its error; leaves exactly the list that rewriting up to there gives, a duplicate rewritten too |
| BackendOptions.AcceptableIff | go/options.go:43-60 | a list is accepted if and only if no entry is rejected |
| BackendOptions.RejectedUntouchedIff | go/options.go:44-57 | a rejected list comes back untouched if and only if every entry before the rejected one, and that one itself when it is a duplicate, was normal already |
| BackendOptions.RejectedAndChanged | go/options.go:44-57 | two lists that are rejected and changed, by a nameless entry and by a duplicate |
| BackendOptions.ValidateIdempotent | go/options.go:43-60 | an accepted list is accepted again unchanged |
| BackendOptions.NativeConfig | go/config.go:24-45 | each child config entry carries its backend and the bind told for its name |
| BackendOptions.LoopbackBackendAddresses | go/subprocess.go:680-702 | refuses to share a pinned port, else gives each backend its probed or pinned address under both spellings |
| BackendOptions.ToldIsResolved | go/config.go:30-34 | for every accepted list, what each child is told is what any spelling of its name resolves to |
| BackendOptions.StaticsDistinctIff | go/subprocess.go:693-700 | two static backends of one list get different addresses if and only if their probes did not repeat; nothing in the code compares them |
| BackendOptions.StaticsCanCollide | go/subprocess.go:693-700 | two backends whose probes repeat both resolve to the one address |
| EmbeddedLifecycle.NativeCallsAreLive | go/embedded.go:28-65 | in every interleaving native calls are made on a live isolate, and at the teardown no add or remove is inside it or can enter and the native run is joined |
| EmbeddedLifecycle.ReturnsCleanly | go/embedded.go:55-65 | a finished run leaves no isolate, nothing healthy, no native run unjoined, and asked for shutdown at most once |
| EmbeddedLifecycle.ReceivedOnce | go/embedded.go:144-161 | the native run's one result is received exactly once by a run that got that far |
| EmbeddedLifecycle.WholeRun | go/embedded.go:19-65 | a run with a call in it, from the first step to the teardown |
| EmbeddedLifecycle.FailingStart | go/embedded.go:28-48 | a start that fails is never ready and takes no calls; nothing but the teardown follows |
| Embedded.EmbeddedRunner.Populate | go/embedded.go:41-48 | stores every static backend in order or stops at an empty address |
| Embedded.EmbeddedRunner.BackendAddress | go/embedded.go:71-82 | asks for the spelling, then for its lookup name |
| Embedded.EmbeddedRunner.AddBackend | go/embedded.go:96-113 | refuses when not started, duplicate or rejected, else stores both spellings |
| Embedded.EmbeddedRunner.RemoveBackend | go/embedded.go:124-141 | refuses when not started, unknown or rejected, else deletes every alias of the key and no other |
| Embedded.RunnersKeepTheSameIndex | go/embedded.go:136-140 | over any history of changes both runners' deletions keep the same index, which answers from a plan |
| Matcher.MatchIsCut | go/release_check_contract_test.go:474-520 | the recursion matches if and only if the text can be cut into one accepted piece for each pattern element |
| Matcher.MatchConcat | go/release_check_contract_test.go:474-520 | a concatenated pattern matches exactly the concatenations of what its halves match |
| Matcher.WildcardsCollapse | go/release_check_contract_test.go:478-485 | two wildcards side by side anywhere in a pattern match what one does |
| Matcher.MatchSegment | go/release_check_contract_test.go:495-520 | the character loop decides the match of a segment |
| Matcher.MatchSegments | go/release_check_contract_test.go:474-493 | the segment loop decides the match of a path |
| Matcher.MatchPath | go/release_check_contract_test.go:470-472 | splits both at the separator and decides the match |
| Matcher.PathConcat | go/release_check_contract_test.go:470-493 | a pattern written with a separator matches exactly the paths that split into segments matched by its sides |
| Matcher.LiteralPath | go/release_check_contract_test.go:511-518 | a pattern without wildcards matches itself only |
| Matcher.StarTakesAnyRun | go/release_check_contract_test.go:500-508 | a star between two literals takes any run of a segment's characters |
| Matcher.QuestionTakesOne | go/release_check_contract_test.go:509-513 | a question mark between two literals takes exactly one character |
| Matcher.StarStaysInSegment | go/release_check_contract_test.go:495-520 | a star as a whole segment matches the direct entries of a literal directory and nothing deeper |
| Matcher.DirectoryPattern | go/release_check_contract_test.go:478-485 | a literal directory followed by a double star matches exactly the directory and what lies below it |
| Matcher.MatchedFiles | go/release_check_contract_test.go:454-465 | returns the files some pattern matches, in order |
| Matcher.SelectedCounts | go/release_check_contract_test.go:454-465 | each file is returned as often as it is listed if a pattern matches it, else never |
| ListenerOwner.ScanRows | go/listener_owner_linux.go:78-99 | skips the header line and collects the inodes of exactly the LISTEN rows on the port |
| ListenerOwner.ListenSocketInodes | go/listener_owner_linux.go:66-103 | collects over both files and says whether any could be opened |
| ListenerOwner.InodesAreListening | go/listener_owner_linux.go:66-103 | an inode is collected if and only if some LISTEN row on the port has it |
| ListenerOwner.ListenerOwnedByPid | go/listener_owner_linux.go:27-63 | known unless /proc cannot answer, and owned if and only if a LISTEN row on the port names a socket the process has open |
| ListenerOwner.DynamicAddressOwned | go/subprocess.go:905-914 | accepts exactly a started child whose ownership is unknown or affirmed |
| ListenerOwner.WrittenRowInode | go/listener_owner_linux.go:84-97 | a written row of ten columns gives its tenth exactly for the port of its second and the state 0A in its fourth, whatever the other columns say |
| ListenerOwner.ShortRowInode | go/listener_owner_linux.go:86-88 | a shorter row gives nothing |
| ListenerOwner.HeaderGivesNothing | go/listener_owner_linux.go:77-83 | the first line of a file counts for nothing |
| ListenerOwner.LoopbackListenerIsShared | go/listener_owner_linux.go:27-63 | a concrete loopback listener is owned on its port and no other, by a process with its link |
| ListenerOwner.KernelPortReadBack | go/listener_owner_linux.go:89-96 | the kernel's hexadecimal rendering of any port is read back as that port |
| Text.ParseHex32Is | go/listener_owner_linux.go:93-95 | which texts are read as a port number, and as which |
| ListenerOwner.OwnersShareTheSocket | go/listener_owner_linux.go:27-63 | with one listening socket on a port, two owners must share an open socket |
| ListenerOwner.OwnedIsHolder | go/subprocess.go:905-914 | on a faithful /proc with one listener for each port, the answer is whether the child holds the port, as the protocol takes it |
| Download.FetchExpectedSha | go/download.go:217-243 | the loop returns what the first line listing the asset gives |
| Download.ExpectedIsFirst | go/download.go:227-242 | the digest comes from the first listing line, malformed is an error there, and not listed means no line lists it |
| Download.WrittenLineIsListed | go/download.go:228-233 | a line with digest, gap, optional star and path is read back as that digest |
| Download.ListedIff | go/download.go:227-233 | a line lists the asset exactly when it has two fields and the second is the asset in any directory behind at most one star |
| Download.WrittenFileIsRead | go/download.go:227-242 | a written checksum file gives the first listed digest in lower case if it has sixty-four hexadecimal digits, else an error |
| Download.Disk.FetchAsset | go/download.go:65-103 | writes a temporary file, checks it, renames it, and cleans up on every failure |
| Download.Disk.DownloadAsset | go/download.go:49-104 | serves a verified cache entry or fetches; no checksum, no change on disk |
| Download.ReturnedIsVerified | go/download.go:53-103 | a returned path is the content-addressed one and holds content with the expected digest; exactly when this happens |
| Download.FailureLeavesCache | go/download.go:65-103 | a failing call leaves the cached path as it was and removes its temporary file if that works; no call touches other paths; a cache hit changes nothing, a fetch only the cached path |
| Download.PathNamesDigest | go/download.go:180-182 | a cached path determines its digest, asset and directory |
| Download.VerifiedPathIs | go/download.go:180-182 | where a verified file lies |
| Download.FailureCauses | go/download.go:65-95 | which step of a failed fetch is reported |
| Download.VerifiedForever | go/download.go:49-104 | a verified path stays verified through every later sequence of calls |
| Describe.DescribeBackendBinds | go/subprocess.go:37-54 | the text lists each address once, with its least name, sorted, for any order of the two map iterations |
| Describe.DescriptionUnique | go/subprocess.go:37-54 | there is only one such text for an index |
| Describe.LessEqIs | go/subprocess.go:44-52 | the order is by bytes, a prefix first |
| Describe.TwoBackendsAre | go/subprocess.go:37-54 | the text for two backends, one of them stored under two spellings |

## Left out

- One `run` for each runner: adds still in flight when a second `Start` reuses the runner are outside the protocol theorems.
- Readiness and the ownership check of a dynamic child are one protocol step each; the turns inside are in `Readiness` and `ListenerOwner`. The protocol lets the wait end either way at any time, which allows more runs than the code has.
- ProtocolTheorems.LivePublishedDistinct: assumes that a child keeps the ports it listens on while it lives (`Config.portsKept`), because nothing in the Go code checks a listener again; every other theorem covers children that close theirs.
- ProtocolShutdown.ServingStep: the same assumption.
- Listeners of the protocol are keyed by address, one holder each; go/listener_owner_linux.go compares the port only. The host of every dynamic address is the one of `Options.Bind`, so on one runner the two agree.
- Supervisor.StaticSupervisor.GiveUp: models the wait at go/subprocess.go:195-196 as ending, because the child is an input; the code has no kill fallback there and no bound is claimed.
- Names.LookupNameIdempotent: covers ASCII letter case only; Go lower-cases all of Unicode, while white space is trimmed as Go does.
- Names.SameLookupIff: the same; two spellings that only Unicode case folding identifies are two names here.
- `net.SplitHostPort` and the host and port checks of `normalizeBackend` are a parameter of `BackendOptions`; so is whether `Options.Bind` pins a port.
- The other defaults of `Options.validate` (mode, bind, logger, policy, timeout) are single assignments.
- Timers, deadlines and contexts appear as choices of the environment; only the order of events is modelled.
- Sockets, HTTP, DNS, signals, process control and the native library are parameters or steps that may succeed or fail.
- `Server.Stop` and `WaitReady` giving up on their own context, and a nil server, are not modelled.
- What native calls do and answer is an outcome; GraalVM itself is not part of this model.
- JSON encoding, temporary config files, logging and error texts other than the list of binds are left out; so are asset names, version resolution and `locate`, `embed`, `cmd` and the Gate integration.
- Rows of /proc longer than the scanner's buffer and a checksum file over its read limit are cut by the standard library before the modelled loops see them.
- The guards of the release tests other than the path matcher are string searches over files.
