# A verified model of the pane handle daemon

The repository is a daemon that gives agents durable handles onto the panes of a terminal
multiplexer. This project models its core in Dafny and proves what the handles promise: that a
handle which names a pane when a request starts keeps that pane from then on and acts on no other,
that the stores stay consistent whatever the backend does, that a spawn is all or nothing, and that
the text pipeline, the selectors, the router and the command quoting lose and confuse nothing. Where
the code promises less than one would like, the exact condition is proved.

## How it is built

| file | what it holds |
|---|---|
| `Entities.dfy` | bindings, observations and error codes; the observation object |
| `Rows.dfy` | the persisted vectors: lookup, overwrite, retain, push |
| `Lifecycle.dfy` | every operation of the terminal service as a function of the stores and the backend's answers |
| `Service.dfy`, `Daemon.dfy` | the service object over the shared world, method by method equal to those functions; serving lists of requests |
| `Keeping.dfy`, `Operations.dfy` | what each operation keeps |
| `Aiming.dfy`, `Addressing.dfy` | operations act on their own pane only; so do whole runs, spawn and attach |
| `Spawning.dfy`, `Upkeep.dfy`, `Outcomes.dfy` | making handles; listing, revalidation and cleanup; what success means |
| `Staleness.dfy`, `Bounds.dfy` | what TARGET_STALE and WAIT_TIMEOUT mean; call counts and idle polling |
| `Runs.dfy`, `Deltas.dfy`, `Interactions.dfy` | whole runs; delta captures; commands and their exit codes |
| `Witnesses.dfy` | concrete runs that show where guarantees end |
| `Targets.dfy`, `Plugin.dfy`, `Selector.dfy`, `PluginRpc.dfy` | listings, selection and spawn planning, in the daemon and in the plugin |
| `Router.dfy` | target ids and the shared backend cache |
| `Quoting.dfy` | remote command lines and POSIX word splitting |
| `Frame.dfy`, `Paging.dfy`, `Markers.dfy`, `Text.dfy` | capture text |

`dafny verify dfyconfig.toml` checks all of it.

## The world of the model

- A `State` holds the two stores, a record of every backend call, a clock and the number of names
  minted. A `Backend` is four families of answers indexed by the number of calls made so far, so it
  may fail, lose panes and find them again at any call. In a run every request comes with a target
  and a backend of its own, so nothing links the answers of one request to those of the next.
- Listings are canonical: a pane's selector is `id:` and its pane id, and an id does not end in
  white space. `Targets.ParsedIsCanonical`, `Targets.PaneToTarget` and `Plugin.IdStringEndsTight`
  prove this of the code that makes targets.
- Handles come from a function of the number of names minted, assumed injective where freshness
  matters and not blank where a send is addressed, as the random ids of the code are taken to be. No
  other assumption is made about what is outside: how long a call takes, the hash, the readiness
  keywords, the key table and the encoders are arbitrary functions.
- All that the service keeps is in the stores, so a restart of the daemon is one more revalidation
  by the local service in a run (`src/main.rs:194-209`). Only the router keeps something in memory,
  its cache: its runs start with the local service cached and any registry on disk.
- The functions of `Lifecycle.dfy` follow the code branch by branch, with loops as recursion. The
  methods of `Service.dfy` have the loops and index assignments of the code; each ensures that the
  new world and the result are those of the function, so every lemma about the functions is one
  about the object.

## Where the code falls short of a simpler statement

- The last revalidation of a spawn does not roll back (`src/services/terminal.rs:1682`): an error
  leaves the handle registered exactly then (`Spawning.SpawnLeaksExactly`,
  `Witnesses.ConcreteLeak`).
- A send that clears the input line captures before it checks that the handle is active
  (`src/services/terminal.rs:1953`), so on a closed attached handle it may turn the status to stale:
  exactly when that capture reports the pane missing. A capture that succeeds makes the observation
  anew that the close had deleted (`Staleness.ClearingSendOnClosed`,
  `Witnesses.ConcreteReopening`).
- A capture writes back the bindings it read before its retries (`src/services/terminal.rs:1894`).
  So it forgets a pane the retries found and stored: exactly when the handle named none when it was
  read, as a spawn whose pane is not known yet, and the retries found one
  (`Outcomes.CaptureForgetsExactly`, `Witnesses.ConcreteForgetting`). One handle may then act on two
  panes, one before and one after it forgets (`Witnesses.OneHandleTwoPanes`). So identity is stated
  from the start of a request on at which the store names a pane: from then on the handle names
  that pane and acts on it alone (`Runs.PaneIsForever`, `Addressing.HandleActsOnItsPane`).
- WAIT_TIMEOUT from polling does not always mean that the time has passed: the adapter's own timeout
  maps to the same code (`src/services/terminal.rs:384-386`). Polling that ends before its deadline
  reports it exactly when its last call was answered so (`Bounds.TimeoutIsExact`,
  `Witnesses.ConcreteEarlyTimeout`).
- For the same reason a wait that reports WAIT_TIMEOUT need not leave the handle busy: it does exactly
  when the waiting ran out of time, or when reading the handle did and it was busy before. When only
  the capture that ends the wait timed out, the handle is ready (`Outcomes.WaitMarksTruly`).
- The wrapper line typed into `sh`, `bash` or `zsh`, and the fallback typed into `fish`, holds both
  markers as text. A pane that echoes it shows a completed interaction before the command has run
  (`src/services/terminal.rs:1081-1103`, `Interactions.EchoAloneCompletes`).
- A handle persisted by an earlier run of the daemon is not found in the cache at first
  (`src/main.rs:194-218`): `Router.HandleIsCachedExactly` says when it is, `Router.RestartRace` shows
  two callers that both build. And a persisted target id that is not canonical, which the daemon
  itself never writes, leads to two services for one target (`Router.StrayIdSplits`).
- The documentation promises that operations on one handle are serialised; the code has no lock per
  handle. Requests are modelled one after the other, and interleaving only in the router.
- A tail window drops the carriage return of CRLF lines, which the forward window keeps
  (`Paging.TailAgreesWithWindow`, `Paging.TailDropsReturn`).

## Model

| member | source | states |
|---|---|---|
| `Runs.RunKeepsInv` | src/services/terminal.rs:1535-2407 | in every run of any requests through any targets over any backends: handles stay distinct, each has at most one observation, every observation belongs to a registered handle, every pane id is named by its selector, every attached binding names a pane, unissued names are unused |
| `Runs.EventKeepsInv` | src/services/terminal.rs:779-854 | one request of any kind keeps that invariant, failed or not |
| `Runs.PaneIsForever` | src/services/terminal.rs:856-912 | from an empty registry on, a handle that once names a pane names that pane in canonical form, with the same origin, at every later time at which it is registered, through stale and back |
| `Runs.HandleFollows` | src/services/terminal.rs:538-565 | over a run from any state with the invariant, a binding keeps target id, session, source, launch command, alias, cwd and creation time, and its pane once known |
| `Runs.GoneStaysGone` | src/services/terminal.rs:183-185 | a handle that was issued and removed never comes back |
| `Runs.EventFollows` | src/services/terminal.rs:2126-2165 | one request lets a handle evolve, and removes it only by a cleanup whose filter matches it |
| `Runs.EventSparesForeign` | src/services/terminal.rs:187-189 | a request of one target leaves a binding of another target exactly as it is unless it names the handle |
| `Runs.ClosedIsAbsorbing` | src/services/terminal.rs:869-871 | a closed binding is not touched until a cleanup removes it: in every run if spawned, in every run without a line-clearing send to it if attached |
| `Runs.KnownAreIssued` | src/services/terminal.rs:791-816 | handles are only ever made by minting |
| `Runs.MakingAdds` | src/services/terminal.rs:1535-1730 | spawn, attach and takeover add one handle or leave both stores as they were |
| `Daemon.ServeAll` | src/services/terminal.rs:1535-2407 | service objects serving a list of requests leave the shared world in exactly the state of the modelled run, so every theorem on runs holds of them |
| `Keeping.OthersUntouched` | src/services/terminal.rs:460-469 | an operation on one handle leaves every other binding and observation unchanged |
| `Keeping.ResolvedFits` | src/adapters/zjctl/client.rs:1012-1037 | a revalidation query of a binding that names a pane can only resolve to that pane, in canonical form |
| `Keeping.ReconcileKeeps` | src/services/terminal.rs:672-725 | reconciling a spawn fills in a pane only where none was known, stores what it returns, and changes nothing when it gives up |
| `Keeping.RefreshKeeps` | src/services/terminal.rs:856-912 | revalidation keeps every other row, the origin, the pane and a closed status, touches no observation, and returns the stored binding |
| `Keeping.RetryKeeps` | src/services/terminal.rs:914-946 | so does the retry loop, whatever the backend answers |
| `Keeping.PollKeeps` | src/services/terminal.rs:948-989 | so does capture polling |
| `Operations.CaptureKeeps` | src/services/terminal.rs:1798-1920 | so does a capture, although it writes back the bindings it read before its retries |
| `Operations.SendMoves` | src/services/terminal.rs:1922-2069 | so does a send, but that one which clears the line of a closed attached handle may change the status |
| `Operations.ReplaceKeeps` | src/services/terminal.rs:2071-2124 | so does a replace |
| `Operations.WaitKeeps` | src/services/terminal.rs:2212-2335 | so does a wait |
| `Operations.CloseMoves` | src/services/terminal.rs:2337-2407 | so does a close, which only closes |
| `Aiming.RetryAims` | src/services/terminal.rs:914-946 | once a handle names a pane, all retries of an operation act on that pane only |
| `Aiming.CaptureAims` | src/services/terminal.rs:1798-1920 | a capture reads its own pane only |
| `Aiming.SendAims` | src/services/terminal.rs:1922-2069 | a send types into its own pane only, boundary capture and wrapper fallback included |
| `Aiming.ReplaceAims` | src/services/terminal.rs:2071-2124 | a replace interrupts and types into its own pane only |
| `Aiming.WaitAims` | src/services/terminal.rs:2212-2335 | a wait watches its own pane only |
| `Aiming.CloseAims` | src/services/terminal.rs:2337-2407 | a close closes its own pane only and types `exit` into no other |
| `Addressing.HandleActsOnItsPane` | src/services/terminal.rs:1798-2407 | from an empty registry on, once a handle names a pane every action of every request for it is addressed to that pane, in every run; none is made once it is gone |
| `Addressing.RunActsOnlyAt` | src/services/terminal.rs:1798-2407 | the same from any state with the store invariant |
| `Addressing.UpkeepActsOnNothing` | src/services/terminal.rs:1510-1528 | listing, revalidation and cleanup act on no pane |
| `Addressing.SpawnAims` | src/services/terminal.rs:1535-1685 | a spawn acts on the pane it launched only, however it ends, and on none when it launched none or was detached |
| `Addressing.AttachAims` | src/services/terminal.rs:1687-1730 | attach and takeover read the pane their new handle names, and none when they fail |
| `Spawning.SpawnIsAllOrNothing` | src/services/terminal.rs:1535-1685 | a success leaves exactly one new binding, whose stored status is the one returned; an error leaves both stores exactly as before unless the last revalidation failed |
| `Spawning.SpawnLeaksExactly` | src/services/terminal.rs:1682 | an error changes the stores if and only if it is that of the last revalidation |
| `Spawning.SettleSettles` | src/services/terminal.rs:1604-1680 | every error between registration and first capture takes the handle out of both stores |
| `Spawning.LaunchAdds` | src/services/terminal.rs:1535-1602 | a launch registers one busy handle under a new name, or changes nothing |
| `Spawning.AttachAdds` | src/services/terminal.rs:1687-1730 | attach and takeover add exactly one binding, or nothing when they fail |
| `Spawning.SpawnedIsOwned` | src/services/terminal.rs:1557-1583 | a spawned handle is persisted under its service's target id, with what the request asked for, on the pane that was launched |
| `Spawning.AttachedIsOwned` | src/services/terminal.rs:791-854 | an attached handle is persisted under its service's target id on exactly the resolved pane, ready when its baseline was captured and busy when not |
| `Witnesses.ConcreteLeak` | src/services/terminal.rs:1682 | a concrete backend over which spawn fails and leaves its handle behind |
| `Witnesses.SpawnLeaks` | src/services/terminal.rs:1682 | any backend that stops being ready at its ninth call makes a spawn fail so |
| `Witnesses.ConcreteReopening` | src/services/terminal.rs:742-769 | a concrete closed attached handle that is stale after a line is sent to it |
| `Witnesses.ConcreteForgetting` | src/services/terminal.rs:1807-1895 | a concrete capture of an unresolved remote spawn whose retries find and store the pane, which the store does not name in the end |
| `Witnesses.CaptureForgets` | src/services/terminal.rs:1807-1895 | the same over any slow backend that shows the pane from its third call on |
| `Witnesses.OneHandleTwoPanes` | src/services/terminal.rs:1807-1895 | a capture that forgets has read one pane, and over a backend that then shows another only, the next capture of the same handle reads and stores that one |
| `Witnesses.ConcreteTwoPanes` | src/services/terminal.rs:1807-1895 | two concrete backends over which one handle reads two panes |
| `Witnesses.ConcreteEarlyTimeout` | src/services/terminal.rs:384-386 | a concrete poll that reports WAIT_TIMEOUT strictly before its deadline |
| `Staleness.RetryIsTruthful` | src/services/terminal.rs:914-946 | the retry loop reports TARGET_STALE only for a handle stored as stale or closed |
| `Staleness.CaptureIsTruthful` | src/services/terminal.rs:1798-1920 | a capture reports TARGET_STALE only for a handle stored as stale or closed |
| `Staleness.SendIsTruthful` | src/services/terminal.rs:1922-2069 | so does a send |
| `Staleness.ReplaceIsTruthful` | src/services/terminal.rs:2071-2124 | so does a replace |
| `Staleness.WaitIsTruthful` | src/services/terminal.rs:2212-2335 | so does a wait, its polling fallback included |
| `Staleness.CloseIsTruthful` | src/services/terminal.rs:2337-2407 | so does a close |
| `Staleness.RefreshIsNotStale` | src/services/terminal.rs:856-912 | revalidation itself never reports TARGET_STALE |
| `Staleness.ClearingSendOnClosed` | src/services/terminal.rs:742-769 | a line-clearing send on a closed attached handle fails; it makes the handle stale exactly when the capture made for it reports the pane missing, and gives it a new observation with that baseline exactly when the capture succeeds |
| `Bounds.RetryIsBounded` | src/services/terminal.rs:914-946 | a retried operation makes at most 3 operation calls and 18 selector resolutions |
| `Bounds.RefreshCounts` | src/services/terminal.rs:885-907 | a revalidation makes at most 6 selector resolutions and operates on no pane |
| `Bounds.RetryAnswers` | src/services/terminal.rs:914-946 | a retried operation succeeds with the answer to its last call |
| `Bounds.PollIsBounded` | src/services/terminal.rs:948-989 | polling, however it ends, goes round at most the rounds of 50 ms that fit before its deadline, makes at most three operation calls in each, and on success has taken one sample in each |
| `Bounds.PollRoundsAreBounded` | src/services/terminal.rs:960-981 | the loop runs at most ceil(timeout/50) rounds whether it succeeds, fails or times out |
| `Bounds.RoundsIsCeiling` | src/services/terminal.rs:960-981 | the number of rounds is the time left over 50 ms, rounded up |
| `Bounds.IdleIsSound` | src/services/terminal.rs:961-979 | success of polling means that from a sample at least idle_ms old on, and there are at least two, all samples hashed alike |
| `Bounds.PollEndsSampled` | src/services/terminal.rs:961-979 | polling reports success at the moment of its last sample, which is the last answer of the backend |
| `Bounds.RetryTimesOut` | src/services/terminal.rs:914-946 | a retried operation reports WAIT_TIMEOUT exactly when its last call was answered with a timeout |
| `Bounds.TimeoutIsExact` | src/services/terminal.rs:948-989 | polling that ends before its deadline reports WAIT_TIMEOUT exactly when its last call was answered with a timeout |
| `Bounds.TimeoutIsReal` | src/services/terminal.rs:984-988 | so over a backend that reports no timeouts of its own, WAIT_TIMEOUT means the deadline has passed |
| `Bounds.TimeoutMayBeEarly` | src/services/terminal.rs:384-386 | a first capture that the backend calls timed out ends polling with WAIT_TIMEOUT, before the deadline exactly when the calls took less than the time there was |
| `Outcomes.RevalidationIsExact` | src/services/terminal.rs:885-911 | over an unchanging listing, a handle that names a pane becomes ready exactly when its pane is listed and stale when not |
| `Outcomes.WaitMarksTruly` | src/services/terminal.rs:2212-2335 | a wait that succeeds leaves the handle ready; one that reports WAIT_TIMEOUT leaves it busy exactly when the waiting itself ran out of time, or the reading of the handle did and it was busy before |
| `Outcomes.TimedOutWaitIsBusy` | src/services/terminal.rs:2240-2285 | over a backend that reports no timeouts of its own, WAIT_TIMEOUT always leaves the handle busy |
| `Outcomes.FailedRefreshKeeps` | src/services/terminal.rs:856-912 | a revalidation that fails writes no binding |
| `Outcomes.CaptureForgetsExactly` | src/services/terminal.rs:1807-1895 | a successful capture stores the pane it read before its retries, and loses theirs exactly when it read none and they found one; such a handle is a spawn whose pane was not known |
| `Outcomes.CloseIsTrue` | src/services/terminal.rs:203-247 | a successful close leaves the handle closed and its observation gone, and its last call was a listing without the pane |
| `Upkeep.RevalidationSparesForeign` | src/services/terminal.rs:1510-1528 | revalidating and listing leave bindings of other targets as they are |
| `Upkeep.RevalidationIsSteady` | src/services/terminal.rs:1510-1528 | revalidating all handles keeps of each what revalidating one keeps |
| `Upkeep.ListIsExact` | src/services/terminal.rs:1787-1796 | a listing shows exactly the stored bindings of the target and session |
| `Upkeep.CleanupIsExact` | src/services/terminal.rs:2126-2165 | cleanup reports exactly the matching handles of its own target and, unless dry, removes exactly those with their observations |
| `Deltas.DeltasReconstruct` | src/services/terminal.rs:292-299 | over any run of delta captures of append-only text with no other observation between them, baseline and deltas add up to the last text |
| `Deltas.DeltaCapture` | src/services/terminal.rs:1842-1844 | a delta capture returns what the new text adds to the last, or all of it; a failed one changes no observation |
| `Deltas.CaptureRecordsAnswer` | src/domain/observation.rs:50-54 | a capture in any mode records the text of the last answer of the backend |
| `Deltas.OthersDoNotObserve` | src/services/terminal.rs:1832-1878 | only requests that name a handle, and cleanup, touch its last text |
| `Interactions.SendAwaitsItsInteraction` | src/services/terminal.rs:2024-2042 | after a send of a command line the observation awaits the interaction whose id was typed |
| `Interactions.SendTypesPayload` | src/services/terminal.rs:1988-1998 | a send that succeeds typed exactly its payload, and the backend took it |
| `Interactions.RawIsVerbatim` | src/services/terminal.rs:471-536 | raw input is the text and the keys, with nothing put before or around it |
| `Interactions.CaptureCompletesInteraction` | src/services/terminal.rs:1835-1882 | on a pane that does not echo the markers: once the wrapper printed a command's block, among others, a capture completes the interaction with its exit code and output, and a wait answers by the marker |
| `Interactions.EchoAloneCompletes` | src/services/terminal.rs:1081-1103 | on a pane that echoes the typed wrapper line, the echo alone makes captures and waits report completion, for every command, id and surrounding text |
| `Markers.MarkersInOrderComplete` | src/services/terminal.rs:1153-1176 | an end marker anywhere after a start marker of its id completes it, whatever stands around and between them |
| `TerminalServices.TerminalService.EnsureAvailable` | src/services/terminal.rs:264-274 | asks the backend once and fails as ZJCTL_UNAVAILABLE when it is not available |
| `TerminalServices.TerminalService.EnsureSessionReady` | src/services/terminal.rs:276-284 | asks the backend once and maps its error under the given code |
| `TerminalServices.TerminalService.MarkBindingStale` | src/services/terminal.rs:460-469 | overwrites the status of the handle's row only |
| `TerminalServices.TerminalService.ResolveAnyOf` | src/services/terminal.rs:886-902 | tries the queries in order, going on only when a pane is missing |
| `TerminalServices.TerminalService.ResolveInAttempts` | src/services/terminal.rs:885-907 | three rounds with pauses between them |
| `TerminalServices.TerminalService.RequeryBinding` | src/services/terminal.rs:882-911 | stores the pane found, or stale |
| `TerminalServices.TerminalService.ReconcileSpawnBinding` | src/services/terminal.rs:672-725 | looks for the spawned pane until the budget is spent |
| `TerminalServices.TerminalService.RefreshBindingTarget` | src/services/terminal.rs:856-912 | equals the lifecycle function, state and result |
| `TerminalServices.TerminalService.TryThreeTimes` | src/services/terminal.rs:928-945 | equals the recursive retry function; its end is unreachable |
| `TerminalServices.TerminalService.RunBindingOperationWithRetry` | src/services/terminal.rs:914-946 | the readiness check, then the retry loop |
| `TerminalServices.TerminalService.WaitViaCapturePolling` | src/services/terminal.rs:948-989 | its last hash and last change time compute the quiet period of the list of samples |
| `TerminalServices.TerminalService.VerifyBindingClosed` | src/services/terminal.rs:214-247 | lists until the pane is gone or the budget is spent |
| `TerminalServices.TerminalService.AttemptShellExitClose` | src/services/terminal.rs:253-258 | types `exit`, then verifies |
| `TerminalServices.TerminalService.PersistSpawnState` | src/services/terminal.rs:1439-1453 | replaces the rows of the handle at the end of both stores |
| `TerminalServices.TerminalService.RemovePersistedHandle` | src/services/terminal.rs:1455-1463 | removes the rows of the handle from both stores |
| `TerminalServices.TerminalService.UpdateSpawnStatus` | src/services/terminal.rs:1465-1487 | overwrites status and time of one row |
| `TerminalServices.TerminalService.UpdateSpawnObservation` | src/services/terminal.rs:1489-1508 | snapshot, boundary and completed interaction of the first capture |
| `TerminalServices.TerminalService.Spawn` | src/services/terminal.rs:1535-1685 | equals the lifecycle function, state and result |
| `TerminalServices.TerminalService.ResolveUniqueLocationTarget` | src/services/terminal.rs:141-181 | equals the unique-location function over one listing |
| `TerminalServices.TerminalService.AttachResolvedTarget` | src/services/terminal.rs:791-854 | pushes the new rows, then establishes the baseline when a capture succeeds |
| `TerminalServices.TerminalService.Takeover` | src/services/terminal.rs:1705-1730 | equals the lifecycle function, state and result |
| `TerminalServices.TerminalService.Attach` | src/services/terminal.rs:1687-1703 | is the takeover whose intent has the trimmed selector, or none when it is blank |
| `TerminalServices.TerminalService.CaptureBinding` | src/services/terminal.rs:1820-1896 | writes back the bindings read before the retries |
| `TerminalServices.TerminalService.Capture` | src/services/terminal.rs:1798-1920 | equals the lifecycle function, state and result |
| `TerminalServices.TerminalService.PrepareAttachedSendBoundary` | src/services/terminal.rs:742-769 | records a baseline, or marks the handle stale when the pane is missing |
| `TerminalServices.TerminalService.DecidePayload` | src/services/terminal.rs:1956-1986 | the payload as typed, wrapped and prefixed |
| `TerminalServices.TerminalService.DeliverAndRecord` | src/services/terminal.rs:1988-2062 | writes back the observations read before the delivery |
| `TerminalServices.TerminalService.Send` | src/services/terminal.rs:1922-2069 | equals the lifecycle function, state and result |
| `TerminalServices.TerminalService.Replace` | src/services/terminal.rs:2071-2124 | equals the lifecycle function, state and result |
| `TerminalServices.TerminalService.RecordWait` | src/services/terminal.rs:2256-2283 | ready after idling, busy after a timeout, untouched otherwise |
| `TerminalServices.TerminalService.Wait` | src/services/terminal.rs:2212-2335 | equals the lifecycle function, state and result |
| `TerminalServices.TerminalService.Close` | src/services/terminal.rs:2337-2407 | equals the lifecycle function, state and result |
| `TerminalServices.TerminalService.RevalidateAll` | src/services/terminal.rs:1510-1528 | equals the lifecycle function, state and result |
| `TerminalServices.TerminalService.List` | src/services/terminal.rs:1787-1796 | equals the lifecycle function, state and result |
| `TerminalServices.TerminalService.Cleanup` | src/services/terminal.rs:2126-2165 | equals the lifecycle function, state and result |
| `Entities.TerminalObservation.UpdateFullSnapshot` | src/domain/observation.rs:50-54 | changes the three snapshot fields and no other |
| `Entities.TerminalObservation.ResetCommandBoundary` | src/domain/observation.rs:56-60 | copies the snapshot into the boundary |
| `Entities.TerminalObservation.StartInteraction` | src/domain/observation.rs:62-67 | starts an interaction and forgets the outcome of the last |
| `Entities.TerminalObservation.CompleteInteraction` | src/domain/observation.rs:69-72 | sets time and exit code and keeps the id |
| `Entities.TerminalObservation.RememberWrapperHash` | src/domain/observation.rs:81-83 | sets the hash only |
| `Entities.TerminalObservation.ClearWrapperHash` | src/domain/observation.rs:85-87 | clears the hash only |
| `Entities.TerminalObservation.SetSpawnHints` | src/domain/observation.rs:89-104 | sets the spawn record only |
| `Targets.PaneToTarget` | src/adapters/zjctl/client.rs:983-999 | a listed pane becomes a target whose selector is `id:` and its pane id |
| `Targets.ResolveFromCandidates` | src/adapters/zjctl/client.rs:1012-1037 | what a selector resolves to is a candidate that matches it |
| `Targets.ResolveIgnoresOrder` | src/adapters/zjctl/client.rs:1012-1037 | selector resolution is the same for every order of the listing |
| `Targets.IdSelectorIsExact` | src/adapters/zjctl/client.rs:2482-2496 | an `id:` selector matches a canonical target exactly when it has that id |
| `Targets.SelectorsAgree` | src/services/terminal.rs:1387-1433 | the adapter and the service read every selector alike on canonical targets |
| `Targets.ResolveUniqueIgnoresOrder` | src/services/terminal.rs:141-181 | attach by location picks the same pane, or fails alike, in every order |
| `Targets.ResolveSpawnCandidate` | src/services/terminal.rs:611-670 | a pane found for a spawn is a listed terminal in the asked tab that was not there before the launch |
| `Targets.ResolveSpawnCandidateIgnoresOrder` | src/services/terminal.rs:611-670 | and is the same in every order |
| `Targets.ResolveSpawnedTarget` | src/adapters/zjctl/client.rs:2534-2605 | the adapter's choice is a listed terminal absent before the launch |
| `Targets.ResolveSpawnedIgnoresOrder` | src/adapters/zjctl/client.rs:2534-2605 | and is the same, or fails alike, in every order |
| `Targets.RunOutputIgnoresOrder` | src/adapters/zjctl/client.rs:2607-2645 | so is the pane found from the launch output, pane ids being unique |
| `Targets.PrintedPaneWins` | src/adapters/zjctl/client.rs:2607-2645 | a printed pane id decides over the before and after comparison |
| `Targets.ParsedIsCanonical` | src/adapters/zjctl/parser.rs:45-66 | launch output parses to a canonical target |
| `Targets.PrepareSpawnIgnoresOrder` | src/adapters/zjctl/client.rs:2775-2842 | the spawn plan is the same in every order, up to the order of listed choices |
| `Targets.ReuseIsUnique` | src/adapters/zjctl/client.rs:2775-2842 | a pane is reused only when it is reusable and the only reusable terminal of the named tab |
| `Plugin.PluginState.UpdatePanes` | crates/zrpc/src/state.rs:54-82 | the pane map is that of the reported entries, the last of an id winning |
| `Plugin.PluginState.UpdateTabs` | crates/zrpc/src/state.rs:84-107 | the tab table has every reported tab at its index and defaults between |
| `Plugin.PluginState.UpdateClients` | crates/zrpc/src/state.rs:109-120 | the current client's pane, or that of the least client id |
| `Plugin.IdStringIsInjective` | crates/zrpc/src/state.rs:28-42 | an id string names one pane |
| `Plugin.PaneMapIsKeyed` | crates/zrpc/src/state.rs:54-82 | the pane map is keyed by id string |
| `Plugin.PaneMapIgnoresOrder` | crates/zrpc/src/state.rs:54-82 | and does not depend on the order of the report |
| `Plugin.TabsSitAtTheirIndex` | crates/zrpc/src/state.rs:84-107 | every tab sits at its own index |
| `Plugin.ClientPaneIsLeast` | crates/zrpc/src/state.rs:109-120 | without a current client the least client id decides, in whatever order |
| `Selector.ShorthandParses` | crates/zjctl-proto/src/selector.rs:67-103 | a bare id string parses to its pane |
| `Selector.IdFormParses` | crates/zjctl-proto/src/selector.rs:67-103 | so does the stored form with `id:` in front |
| `Selector.TabSelectorParses` | crates/zjctl-proto/src/selector.rs:104-130 | a printed tab selector parses back to its tab and index |
| `PluginRpc.SortIgnoresOrder` | crates/zrpc/src/main.rs:116-173 | sorting by a deciding key gives one result for all orders |
| `PluginRpc.FocusedPaneIgnoresOrder` | crates/zrpc/src/main.rs:116-173 | the focused pane does not depend on the order of the map |
| `PluginRpc.FocusedPaneIsShown` | crates/zrpc/src/main.rs:116-173 | and is in the map and never suppressed |
| `PluginRpc.OnePaneIsFocused` | crates/zrpc/src/state.rs:126-146 | a listing marks at most one pane focused |
| `PluginRpc.ResolveSelectorIgnoresOrder` | crates/zrpc/src/main.rs:394-443 | every selector finds the same panes in every order, and all but the two pattern ones at most one |
| `PluginRpc.IdResolvesExactly` | crates/zrpc/src/main.rs:394-443 | an id selector resolves to exactly the pane with that id |
| `PluginRpc.DeliveryRoundTrip` | crates/zrpc/src/main.rs:213-252 | from pane to id string to listed target to stored selector and back: text reaches exactly that pane, or none once it is gone |
| `PluginRpc.ActionIdRoundTrip` | src/adapters/zjctl/client.rs:1039-1060 | a stored selector turned into an action id and printed back is the same selector |
| `Router.ResolvedIsCanonical` | src/services/router.rs:40-52 | resolving a target id again changes nothing |
| `Router.FactoryAgreesWithKey` | src/main.rs:18-33 | the factory builds a canonical key's service under that very id; only `local` is not built |
| `Router.OnlyCanonicalKeysAgree` | src/main.rs:18-33 | and builds no other key under its own id |
| `Router.PaddingIsIgnored` | src/services/router.rs:40-52 | padded forms of an alias share one id |
| `Router.AliasFormsShareId` | src/services/router.rs:40-52 | an alias and its `ssh:` form share one id exactly when the alias is neither `local` nor in that form |
| `Router.FactoryIsCanonical` | src/main.rs:18-33 | every service the factory builds has a canonical id, and only a canonical key is built under its own |
| `Router.RunKeepsInv` | src/services/router.rs:62-120 | in every interleaving the cache only grows, holds for each key an instance that was built for it and that some caller fetched, and callers stay with their key |
| `Router.CallersAgree` | src/services/router.rs:62-94 | from whatever registry was on disk: two callers that finish with one key, whatever happens between, hold the same stored instance; its target id is the key exactly when the key is canonical |
| `Router.OneServicePerTarget` | src/services/router.rs:62-120 | from a registry of canonical ids, finished callers hold one instance exactly when their services have one target id, which is their key; all ids stay canonical |
| `Router.HandleRoutesHome` | src/services/router.rs:96-120 | whoever arrives for a handle, made in this run or before it, and finishes, holds the one instance cached under the handle's id; the one that made it when that was in this run |
| `Router.HandleIsCachedExactly` | src/services/router.rs:96-120 | the first probe for a handle finishes exactly when its target is `local` or some caller of this run has finished with it; that is so for every handle made in this run |
| `Router.RestartRace` | src/main.rs:194-218 | after a restart two callers for one persisted remote handle may both miss and both build, and end with the instance of the first to insert |
| `Router.StrayIdSplits` | src/services/router.rs:96-120 | from any persisted id that is not canonical but can be built, a caller for the handle and one for its target end with two instances of one target id |
| `Router.UndisturbedCall` | src/services/router.rs:62-94 | the cache method is the protocol with one uninterrupted caller, come for a target or for a handle |
| `Router.TargetRouter.BackendForTargetId` | src/services/router.rs:62-94 | inserts if absent, never replaces, and fails as the factory does |
| `Router.TargetRouter.BackendForTarget` | src/services/router.rs:54-60 | the same for the resolved id |
| `Router.TargetRouter.BackendForHandle` | src/services/router.rs:96-120 | the same for the id stored with the first row of the handle, and HANDLE_NOT_FOUND with nothing built when there is none |
| `Quoting.BuildRemoteCommand` | src/adapters/zjctl/client.rs:1476-1499 | the loop that pushes onto the command string prints the quoted pieces |
| `Quoting.SplitInvertsRender` | src/adapters/zjctl/client.rs:17-19 | word splitting takes any quoted line apart into the words and operators it was made of |
| `Quoting.CommandSplitsBack` | src/adapters/zjctl/client.rs:487-504 | a built command splits back into `env`, assignments, binary and arguments for all strings |
| `Quoting.WordTokensAreInjective` | src/adapters/zjctl/client.rs:17-19 | no other values have the same split |
| `Quoting.HelperRecoversArgv` | src/adapters/zjctl/client.rs:524-546 | the helper script splits into its guard and the tmux argv, whose last word splits into the attach argv |
| `Quoting.ScriptIsFormat` | src/adapters/zjctl/client.rs:537-544 | the pieces of the helper script print exactly what the format string prints |
| `Frame.NormalizeCurrentFrame` | src/services/terminal.rs:330-367 | the in-place normaliser equals the token model |
| `Frame.IsRepaintHeavy` | src/services/terminal.rs:301-328 | true exactly when some token can erase |
| `Frame.ErasesExactly` | src/services/terminal.rs:301-328 | the tokens it looks for are exactly those that can take text off a screen |
| `Frame.ResetErases` | src/services/terminal.rs:347-349 | text before a full reset has no effect |
| `Frame.NormalizedIsPlain` | src/services/terminal.rs:330-367 | the output has no ESC and no carriage return |
| `Frame.NormalizedIsIdempotent` | src/services/terminal.rs:330-367 | normalising twice is normalising once |
| `Frame.QuietPlayKeepsEverything` | src/services/terminal.rs:330-367 | without an erasing token nothing is lost |
| `Frame.CsiStopsAtFirstFinal` | src/services/terminal.rs:314-321 | a control sequence ends at its first final byte (section 5.4 of ECMA-48) |
| `Frame.StripAnsiSequences` | src/services/terminal.rs:1271-1323 | the index loop equals the recursive stripper |
| `Frame.StrippedDistributesExactly` | src/services/terminal.rs:1271-1323 | stripping distributes over every continuation exactly when the first part ends outside an escape |
| `Frame.StrippedHasNoEscape` | src/services/terminal.rs:1271-1323 | the output has no ESC |
| `Frame.StrippedIsIdempotent` | src/services/terminal.rs:1271-1323 | stripping twice is stripping once |
| `Frame.StrippedIsSubsequence` | src/services/terminal.rs:1271-1323 | the output is a subsequence of the input |
| `Frame.StripperAgreesWithNormalizer` | src/services/terminal.rs:330-367 | stripper and normaliser agree on content without erasures whose ESCs, but a last one, start control sequences |
| `Paging.PagingIsLossless` | src/services/terminal.rs:1340-1374 | following the cursors ends after max(1, ceil(lines/limit)) pages of at most limit lines that add up to the content |
| `Paging.CursorRoundTrip` | src/services/terminal.rs:1245-1269 | printing and parsing a cursor are inverse |
| `Paging.CeilDivIsCeiling` | src/services/terminal.rs:1340-1374 | the page count is the least that can hold the lines |
| `Paging.TailAgreesWithWindow` | src/services/terminal.rs:1325-1338 | a tail is the forward window from the same line exactly when it keeps no CRLF line |
| `Paging.TailDropsReturn` | src/services/terminal.rs:1325-1338 | a concrete content with CRLF lines on which the two differ |
| `Paging.DeltaCompletesBaseline` | src/services/terminal.rs:292-299 | baseline and delta add up to the content |
| `Markers.ParsingInvertsWrapper` | src/services/terminal.rs:1153-1176 | parsing wrapper output by an id gives that command's output and exit code, among any other blocks |
| `Markers.CompletionIsFinal` | src/services/terminal.rs:1153-1176 | once a completion line was seen, more output changes nothing |

## Left out

- Persistence: the stores are sequences in memory; reading and writing them never fails.
- Error messages and retryable flags of the service's errors: only their codes are kept.
- Discover previews and layout grouping: read-only views with no hard property.
- Row and column geometry of the helper client, target configuration beyond the target id, the
  readiness remediation steps: lookups with no hard property.
- Concurrent requests on one handle: the code has no lock for them, so no ordering is guaranteed;
  requests run one after the other here.
- Regular expressions, Unicode case folding, shell-words splitting, base64, the fish function, the
  key table and the readiness keywords: functions left uninterpreted.
- The library sort of the plugin is an insertion sort here; only what a sort by the key gives
  matters.
- Runs.AttachPane: a run gives the intent of an attach or a takeover itself; the two requests differ
  in how they build it only (`Lifecycle.AttachIntent`).
- The adapter's `launch_spawn` is one call with an arbitrary canonical answer; its planning and
  resolution steps are modelled apart, in `Targets.dfy`.
- Fallbacks inside the adapter (screen dumps, focus and restore, transport retries): one backend
  call here, with any answer.
- `chrono` overflow of very large ages in cleanup: the cast to a signed 64-bit number is modelled,
  the panic behind it is not.
- TerminalObservation: the stores hold observations as values, and the object with the code's
  methods is the working copy of an operation; aliasing between the two is not modelled.
- Branches on a detached launch after `src/services/terminal.rs:1600`: the code returns before them.
