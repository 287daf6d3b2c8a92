# Verification of the agency's protocols

The Aries guardianship agency starts agents on Kubernetes or Docker, keeps them alive for a
limited time, registers wallets with a multitenant aca-py, records transactions in a ledger and
routes requests to agents.  Most of this code is `async`: whatever one request has read may have
changed by the time it goes on.  This project models those parts as protocols and proves what they
keep under every interleaving and every failure of a remote request.

`dafny verify dfyconfig.toml` checks the whole project.

## How it is built

Each protocol is a labelled transition system (`Runs.System`): its state holds the shared store
and every call in flight, an event is what one call does between two `await`s, and a run is any
sequence of enabled events.  A theorem about every run is a theorem about any number of
overlapping calls.  A remote request is answered, carried out with its answer lost, or not carried
out.

| files | what they model |
|---|---|
| `Runs.dfy` | transition systems, runs, and how one call is woven into the calls of others |
| `Cluster.dfy`, `K8sService.dfy` | `src/manager/k8s.service.ts` |
| `Docker.dfy`, `DockerService.dfy` | `src/manager/docker.service.ts` |
| `AgentManagers.dfy` | the interface `IAgentManager`, refined by both |
| `Manager*.dfy` | `src/manager/agent.manager.service.ts` and the TTL of `agent.config.ts`; `ManagerOnK8s.dfy` puts it on top of the cluster |
| `Multitenant*.dfy` | `src/multitenant/mulittenant.service.ts` |
| `Ledger*.dfy` | `src/transactions/` |
| `Router.dfy` | `src/router/` and the endpoint printed by `agent.config.ts` |

The services are classes whose methods do what the original methods do.  Each has a ghost `trace`
that is always a run of its protocol (`Valid`), so every theorem about runs holds of every execution
of the methods.  A method takes as parameters what it cannot know: the events the others attempt
while it waits (`gap`, `gaps`), the fate of its requests, and the order in which a database returns
rows.  Its postcondition says which events it adds (`Runs.Act` is "wait for the others, then do
this", `Runs.Weave` a whole script of such steps), and what its result means.

## Assumptions

- A request to the cluster, to Docker, to aca-py, to the cache or to the database is one step.  The
  cluster refuses to create a name that exists and to delete one that does not; `requestWithRetry`
  is one request.
- Docker removes a container in the step in which it stops, ends by itself or fails to start
  (`AutoRemove`); it refuses to stop one that does not run, and keeps one that was never started.
- A cache miss is `undefined`, which is what `agent.manager.service.ts:139` tests for.
- aca-py never hands out a wallet id twice, and registered wallet names are unique.
- Time is counted in whole milliseconds; `delay(1000)` waits at least a second.  A timer fires at
  some moment after it is due; theorems that need it bound the lateness by a parameter.  `setTimeout`
  turns a delay above 2147483647 ms into 1 ms.
- `merkel_order` is a 32-bit column, and a save that does not fit fails.  `hash32` is a symbolic term.
- `find` has no ORDER BY, so a report may list its records in any order.
- `Manager` takes `startAgent` and `stopAgent` as one step each.  `ManagerOnK8s` proves that the manager
  on Kubernetes, with every request a step of its own, has no other runs.
- Coherence of an agent assumes that, while it runs, none of its spin-ups throws once it has started
  the container or written an entry that will expire, no spin-down throws that a timer began or that
  has emptied the cache, and the store keeps an entry with a negative TTL for ever.
  `CoherentExactlyUnderASecond` shows that none of these kinds of fault can be allowed.  What throws
  while the agent does not run is no fault: the spin-down of a timer left over by an earlier spin-up,
  which finds nothing to stop, is the usual case.

## Where the code and its words differ

- `getMaxMerkelOrder` means to return 0 for an empty table, but `isNaN(null)` is false, so it returns
  null.  Since null + 1 is 1, the first record still gets order 1 (`DataService.GetMaxMerkelOrder`).
- The ledger's note on collisions (`transaction.message.handler.ts:25`) is right: two handlers that
  read before either saves share an order.  `ReadIsSafeExactlyWhenWindowEmpty` gives the exact
  condition, and `NoGaps`, `EachOrderHeldAtMost` and `RealTimeOrder` what still holds.
- "The cache lasts 1 second longer than the agent" (`agent.manager.service.ts:188`) holds exactly as
  long as the delays around the timer stay under that second and none of four faults occurs
  (`CoherentExactlyUnderASecond`).  One of them is a connection that fails after the write to the
  cache (`FailedConnectionBreaksCoherence`).
- A TTL above 2147483 seconds is not honoured: the agent can be down a millisecond after its timer was
  set (`TtlIsLost`), and exactly up to this limit it lives out its TTL (`TtlIsKeptExactlyUpToMaxDelay`).
- The rewrite rule takes a query that follows the agent id directly for part of the id, while the
  router does not (`RouterAndRewriterAgreeExactlyWithoutQuery`).
- A wallet that is created while an older cache entry of its name is live, and whose creation is then
  abandoned, leaves the old id cached: `AbandonedCreateLeavesOldId` is such a run for every name, and
  `CoherentExactlyWithoutAbandoning` says that nothing else does it to serialised calls.

## Model

| member | source | states |
|---|---|---|
| Cluster.TokenConservation | src/manager/k8s.service.ts:180-204 | in every run a pod exists exactly when exactly one holder of it does: a start between its requests, a service, a stop between its requests, or a leak |
| Cluster.ServiceImpliesItsPod | src/manager/k8s.service.ts:191-204 | a service never exists without the very pod incarnation it was created for |
| Cluster.SecondStepMeetsItsOwnPod | src/manager/k8s.service.ts:191-204 | the second request of a start or stop meets the same incarnation as the first, without a service, and no other call is half-way for this agent |
| Cluster.OncePerIncarnation | src/manager/k8s.service.ts:191-204 | over a whole run each incarnation is created, served, unserved and deleted at most once |
| Cluster.LifeRunsOneWay | src/manager/k8s.service.ts:191-204 | no interleaving takes an incarnation back to an earlier phase of its life |
| Cluster.OrphanExactlyWhenDropped | src/manager/k8s.service.ts:191-204 | a pod has neither a service nor a call half-way exactly when a fault between the two requests dropped it |
| Cluster.EitherFaultOrphans | src/manager/k8s.service.ts:191-196 | for every agent a lost answer to the first request, or a failure of the second, does end in such an orphan |
| Cluster.OrphanForever | src/manager/k8s.service.ts:191-204 | such a pod survives every later sequence of starts and stops, as the same incarnation |
| Cluster.FaultlessRunsLeakNothing | src/manager/k8s.service.ts:191-204 | overlap, refusals, failed first requests and lost answers to second ones never orphan a pod |
| Cluster.StartAloneBuilds | src/manager/k8s.service.ts:191-196 | an uninterrupted start of an absent agent adds exactly its pod and its service |
| Cluster.StopAloneRemoves | src/manager/k8s.service.ts:201-204 | an uninterrupted stop of a served agent removes exactly its pod and its service |
| Cluster.StopUndoesStart | src/manager/k8s.service.ts:191-204 | after a start and a stop the cluster is what it was |
| K8sServices.CoreV1Api.CreateNamespacedPod | src/manager/k8s.service.ts:35-125 | the request adds its event to the run; the call goes on only if it was answered and the name was free |
| K8sServices.CoreV1Api.CreateNamespacedService | src/manager/k8s.service.ts:127-153 | an answered request always succeeds, and then both pod and service exist |
| K8sServices.CoreV1Api.DeleteNamespacedService | src/manager/k8s.service.ts:180-182 | the call goes on only if it was answered and there was a service |
| K8sServices.CoreV1Api.DeleteNamespacedPod | src/manager/k8s.service.ts:184-186 | an answered request always succeeds, and then neither pod nor service exists |
| K8sServices.K8sService.StartAgent | src/manager/k8s.service.ts:191-196 | its own events are exactly begin, pod, service in this order among those of others, cut after the pod if that failed; it fails at the pod exactly when the request is not answered or the agent has a pod then, and at the service only for want of an answer; success means both exist and the start took effect exactly once |
| K8sServices.K8sService.StopAgent | src/manager/k8s.service.ts:201-204 | its own events are exactly begin, service, pod in this order, cut after the service if that failed; it fails at the service exactly when the request is not answered or the agent has no service then, and at the pod only for want of an answer; success means neither exists and the stop took effect exactly once |
| Docker.CreatedHasOneStarter | src/manager/docker.service.ts:53-54 | a container that is created and not started has exactly one call that will start it, or leaked, never both; others have neither |
| Docker.StartMeetsItsOwnContainer | src/manager/docker.service.ts:53-54 | `container.start` finds the container its call created, still to be started |
| Docker.StartAloneRuns | src/manager/docker.service.ts:53-54 | after any history an uninterrupted start of an agent without a container adds exactly its running container |
| Docker.StopAloneRemoves | src/manager/docker.service.ts:75-78 | an uninterrupted stop of a running agent removes exactly its container |
| Docker.StuckExactlyWhenDropped | src/manager/docker.service.ts:53-77 | a container is stuck exactly when an event dropped it between create and start |
| Docker.EitherFaultSticks | src/manager/docker.service.ts:53-54 | for every agent a lost answer to create, or a failure before the start, does leave a stuck container |
| Docker.StuckForever | src/manager/docker.service.ts:26-78 | a stuck container blocks its agent through every later start and stop |
| DockerServices.Dockerode.CreateContainer | src/manager/docker.service.ts:53-53 | goes on only if it was answered and the name was free |
| DockerServices.Dockerode.StartContainer | src/manager/docker.service.ts:54-54 | is never refused: a container that was started is up, one that crashed is gone |
| DockerServices.Dockerode.StopContainer | src/manager/docker.service.ts:76-77 | success means the container is gone, an answered failure that it was not running |
| DockerServices.DockerService.StartAgent | src/manager/docker.service.ts:26-69 | its own events are exactly begin, create, start in this order; creation fails exactly when it is not answered or the agent has a container then; success means the container is up and the start took effect exactly once |
| DockerServices.DockerService.StopAgent | src/manager/docker.service.ts:75-78 | its own events are exactly begin and one stop; it succeeds exactly when it is answered and the container was up then, and the container is gone and the stop took effect exactly once |
| AgentManagers.K8sRefinesInterface | src/manager/k8s.service.ts:191-204 | every run of the cluster is a run of the interface, in which a call takes effect at one moment and an agent runs while it has a service |
| AgentManagers.DockerRefinesInterface | src/manager/docker.service.ts:26-78 | every run of the daemon is a run of the same interface |
| AgentManagers.K8sAnswersTellTheTruth | src/manager/agent.manager.interface.ts:3-8 | a call to Kubernetes that returns took effect exactly once, between its beginning and its end |
| AgentManagers.DockerAnswersTellTheTruth | src/manager/agent.manager.interface.ts:3-8 | a start on Docker that returns, or the answered stop of a running container, took effect exactly once |
| AgentManagers.ReturnedCallsTookEffectOnce | src/manager/agent.manager.interface.ts:3-8 | in every run of the interface the events of a call that returns end with begin, effect, end |
| AgentManagers.StartsAreSeparated | src/manager/agent.manager.interface.ts:3-8 | between two starts of one agent that take effect something ends it |
| Manager.NormaliseTtl | src/manager/agent.config.ts:93-98 | 0 and only 0 means for ever, a missing TTL means an hour, and any other TTL is kept as it was asked for |
| ManagerCoherence.CoherentExactlyUnderASecond | src/manager/agent.manager.service.ts:187-215 | in every run timely for an agent it is cached, about to be cached or about to be stopped whenever it runs, if and only if the gap before its timer is set and its lateness sum to less than a second and none of four faults is allowed while it runs |
| ManagerCoherence.TimelyRunsAreCoherent | src/manager/agent.manager.service.ts:187-215 | the half of it that callers rely on, for any number of overlapping spin-ups and spin-downs and whatever other agents do |
| ManagerCoherence.FailedConnectionBreaksCoherence | src/manager/agent.manager.service.ts:149-171 | a run on time to the millisecond and without fault until a spin-up, having added the running agent with its shorter TTL, fails to connect; once that entry has expired the agent runs unknown, its only timer being the one set by an overlapping spin-up |
| ManagerCoherence.FailedStopBreaksCoherence | src/manager/agent.manager.service.ts:63-71 | an on-time run in which only the spin-down throws also ends with a running agent the cache has forgotten |
| ManagerDeadlines.StoppedByItsTimer | src/manager/agent.manager.service.ts:207-215 | once a timer of an agent is overdue by more than its lateness, the agent has been down at some moment since the timer was due, or the spin-down this timer began is still under way; only an exception of that very spin-down while the agent runs is ruled out |
| ManagerDeadlines.SpinUpHonoursItsTtl | src/manager/agent.manager.service.ts:35-45 | so a spin-up with a finite TTL never leaves its agent running past that TTL and the lateness of its own timer, whatever other agents do |
| ManagerDeadlines.AskedTtlIsHonoured | src/manager/agent.config.ts:93-98 | the same from the request on: the TTL is the one that was asked for, or an hour when there was none |
| ManagerDeadlines.DeleteEmptiesCache | src/manager/agent.manager.service.ts:66-66 | a spin-down takes its agent's entry out of the cache and leaves every other |
| ManagerDeadlines.DeletedStaysOut | src/manager/agent.manager.service.ts:66-66 | over every run the agent then stays out of the cache until a spin-up of it writes |
| ManagerDeadlines.TtlIsKeptExactlyUpToMaxDelay | src/manager/agent.manager.service.ts:207-215 | the first timed spin-up of an agent for which no other call begins keeps it running for its whole TTL in every run, if and only if `setTimeout` can wait that long |
| ManagerDeadlines.TtlIsLost | src/manager/agent.manager.service.ts:207-215 | for every longer TTL there is a run in which the agent is down one millisecond after its timer was set |
| ManagerDeadlines.RunsUntilDue | src/manager/agent.manager.service.ts:63-71 | without an explicit spin-down an agent runs at least until the earliest timer pending under its id is due, whichever spin-up set it |
| ManagerDeadlines.RunsForEver | src/manager/agent.config.ts:93-98 | an agent cached for ever with nothing pending against it stays running and cached over every run that spares it |
| ManagerDeadlines.TtlZeroRunsForEver | src/manager/agent.config.ts:93-98 | a spin-up with TTL 0 and nothing older left for its agent brings it there with its write to the cache |
| ManagerAlone.SpinUpAlone | src/manager/agent.manager.service.ts:35-45 | after any history an uninterrupted spin-up of an absent agent leaves it running, cached for its TTL and a second, with one timer due after exactly the TTL asked for, and changes nothing else |
| ManagerAlone.SpinUpForEverAlone | src/manager/agent.manager.service.ts:35-45 | with TTL 0 it runs, is cached for ever and has no timer |
| ManagerAlone.SpinUpOfCachedAlone | src/manager/agent.manager.service.ts:137-166 | of a running, cached agent it renews the entry and adds a timer |
| ManagerAlone.SpinUpOfForgottenAlone | src/manager/agent.manager.service.ts:137-166 | of a running agent that the cache has forgotten it does the same |
| ManagerAlone.SpinDownAlone | src/manager/agent.manager.service.ts:63-71 | an uninterrupted spin-down stops its agent, takes it out of the cache and changes nothing else |
| ManagerAlone.TimerAlone | src/manager/agent.manager.service.ts:207-215 | so does a timer that is due, and it is used up |
| ManagerServices.AgentManagerService.SpinUpAgent | src/manager/agent.manager.service.ts:35-57 | fixes every event of the call by what its awaits meet, and the events of others before each; it succeeds exactly when the container was started or the agent was found or added, and nothing threw; its last step then adds one timer, due after the TTL that was asked for, an hour without one, at once above 2147483647 ms, and none for 0 or less |
| ManagerServices.AgentManagerService.HandleAlreadyRunningContainer | src/manager/agent.manager.service.ts:137-171 | fixes every event: look, add and read back as needed, connect; it goes on exactly when the entry was found, or added and found again, and the connection did not fail |
| ManagerServices.AgentManagerService.SetAgentCache | src/manager/agent.manager.service.ts:187-202 | one write of an entry that lives a second longer than the agent, at either of the two places that call it |
| ManagerServices.AgentManagerService.SetSpinDownJob | src/manager/agent.manager.service.ts:207-215 | adds exactly the timer that the TTL asks for, and none without a finite positive TTL |
| ManagerServices.AgentManagerService.LookUp | src/manager/agent.manager.service.ts:138-153 | the agent counts as known exactly when its entry is live |
| ManagerServices.AgentManagerService.LookAgain | src/manager/agent.manager.service.ts:151-170 | goes on exactly when the added entry is still live |
| ManagerServices.AgentManagerService.StartAgent | src/manager/agent.manager.service.ts:37-42 | succeeds exactly when it is answered and the agent did not run; whatever the error, the spin-up goes on as if the agent were running already |
| ManagerServices.AgentManagerService.StopAgent | src/manager/agent.manager.service.ts:67-70 | after a success the agent does not run |
| ManagerServices.AgentManagerService.SpinDownAgent | src/manager/agent.manager.service.ts:63-71 | its events are exactly begin, delete, stop, cut where a request throws; it always ends; once the entry is deleted the agent is not cached until a spin-up of it writes, and unless a request throws the agent is stopped |
| ManagerServices.AgentManagerService.TimerFires | src/manager/agent.manager.service.ts:209-213 | a timer that is due is used up and its spin-down makes the same steps, with the same effect on the cache |
| ManagerServices.PingConnectionWithRetry | src/manager/agent.manager.service.ts:114-131 | ends for every duration after at most one check for each started second; succeeds exactly when one of its checks did, stops at the first that does, and gives up only when the duration is over |
| ManagerOnK8s.ManagerOnK8sRefinesManager | src/manager/agent.manager.service.ts:35-71 | every run of the manager on the cluster, with both requests of each start and stop as steps of their own, is a run of `Manager` in which an agent runs while it has its service |
| ManagerOnK8s.ManagerOnK8sRunsCluster | src/manager/k8s.service.ts:191-204 | and its requests are a run of `Cluster` |
| ManagerOnK8s.ServedAgentsAreKnown | src/manager/agent.manager.service.ts:187-215 | so on Kubernetes too an agent with a service is cached, about to be cached or about to be stopped, also in runs in which stops meet no service |
| ManagerOnK8s.ServedAgentIsStoppedByItsTimer | src/manager/agent.manager.service.ts:207-215 | once a timer is overdue by more than its lateness the agent has been without its service since the timer was due, or the spin-down it began is under way |
| ManagerOnK8s.ServedUntilDue | src/manager/agent.manager.service.ts:63-71 | without an explicit spin-down an agent keeps its service at least until the earliest of its timers is due |
| ManagerOnK8s.TtlZeroServesForEver | src/manager/agent.config.ts:93-98 | a spin-up with TTL 0 and nothing older left for its agent keeps its service, and its cache entry, over every run that spares it |
| Multitenant.IdsBelongToTheirNames | src/multitenant/mulittenant.service.ts:83-142 | under every interleaving each wallet id that is cached, found in the list, about to be cached or about to be removed was issued for the name it is used for, and each token opens its wallet |
| Multitenant.RemoveTouchesOnlyItsName | src/multitenant/mulittenant.service.ts:70-77 | removing by name removes no wallet of another name and leaves the cache alone |
| MultitenantCoherence.HitAgreesWithScan | src/multitenant/mulittenant.service.ts:108-142 | where the cache is coherent a hit gives the wallet that the scan of all wallets gives, in whatever order the list comes, and a token for it |
| MultitenantCoherence.OverlappingCreatesAgree | src/multitenant/mulittenant.service.ts:26-64 | as long as nobody removes a name, all overlapping creates of it hold and cache one id |
| MultitenantCoherence.CoherentExactlyWithoutAbandoning | src/multitenant/mulittenant.service.ts:26-102 | with one call at a time for each name, every name at rest is cached right or not at all if and only if no create that had registered its wallet ended without caching it over a live older entry |
| MultitenantCoherence.AbandonedCreateLeavesOldId | src/multitenant/mulittenant.service.ts:26-102 | for every name there is a serialised run after which the cache gives the removed wallet although another is registered |
| MultitenantAlone.CreateAloneRegisters | src/multitenant/mulittenant.service.ts:26-64 | after any history an uninterrupted create of a free name registers one new wallet, caches it with its key and token, and changes nothing else |
| MultitenantAlone.CreateOfCachedAlone | src/multitenant/mulittenant.service.ts:108-112 | of a name that exists and is cached under the same key it changes nothing at all |
| MultitenantAlone.CreateOfListedAlone | src/multitenant/mulittenant.service.ts:127-142 | of a name that exists and is not cached it finds the wallet in the list, in any order, and caches it with a new token |
| MultitenantAlone.RemoveAloneUnregisters | src/multitenant/mulittenant.service.ts:70-77 | an uninterrupted removal of a cached, registered wallet removes exactly it, and leaves the entry |
| MultitenantAlone.RemoveUndoesCreate | src/multitenant/mulittenant.service.ts:26-77 | so a removal undoes a create at aca-py and leaves only the cache entry behind |
| MultitenantServices.MultitenantService.CreateWallet | src/multitenant/mulittenant.service.ts:26-64 | fixes every event of the call by what its requests meet, each tied to the state it meets it in; it succeeds exactly when it is answered, the name was free or its wallet is found, and the entry is written, and then the cache holds what it returns |
| MultitenantServices.MultitenantService.CallCreateWallet | src/multitenant/mulittenant.service.ts:178-202 | registers the wallet under a fresh id exactly when the name is free when it is answered, and otherwise reports that it is taken |
| MultitenantServices.MultitenantService.GetTokenAndWalletId | src/multitenant/mulittenant.service.ts:108-120 | reads the cache once: with an entry under the right key its id and token, with a wrong key nothing, without an entry the listed wallet and a new token |
| MultitenantServices.MultitenantService.HandleCacheMiss | src/multitenant/mulittenant.service.ts:127-142 | exactly a scan and a token request; it succeeds exactly when the list is that of the moment and has the name, and the token request is answered while the wallet is registered: the first wallet of the list with that name, and a token for it |
| MultitenantServices.MultitenantService.FindWallet | src/multitenant/mulittenant.service.ts:129-135 | the loop with its break finds the first wallet of that name |
| MultitenantServices.MultitenantService.CallGetToken | src/multitenant/mulittenant.service.ts:160-176 | a token for the wallet asked for, exactly when it is answered and the wallet is registered then |
| MultitenantServices.MultitenantService.AddWalletToCache | src/multitenant/mulittenant.service.ts:83-102 | the entry holds the id, key and token of the call, and no other entry changes |
| MultitenantServices.MultitenantService.RemoveWallet | src/multitenant/mulittenant.service.ts:70-77 | fixes every event of the call; the wallet it asks aca-py to remove is the one the cache gave when it was asked; it succeeds exactly when there is an entry, that wallet is registered when the request arrives and the request is answered, and then the wallet is gone; without an entry it fails without a request |
| MultitenantServices.MultitenantService.CallRemoveWallet | src/multitenant/mulittenant.service.ts:207-223 | the wallet is removed exactly when the request arrives and it is registered then |
| LedgerOrder.NoGaps | src/transactions/persistence/data.service.ts:23-30 | in every run, failed saves included, the saved orders are exactly 1 up to the maximum |
| LedgerOrder.EachOrderHeldAtMost | src/transactions/messaging/transaction.message.handler.ts:26-42 | if at most k handlers are ever between their read and their save, no order is held by more than k records and pending handlers together |
| LedgerOrder.LedgerBound | src/transactions/messaging/transaction.message.handler.ts:26-42 | so a ledger of n records has n at most k times its largest order |
| LedgerOrder.SerialRunsAppend | src/transactions/messaging/transaction.message.handler.ts:26-42 | without overlap the ledger is a log whose orders in save order are 1 to n |
| LedgerOrder.ReadIsSafeExactlyWhenWindowEmpty | src/transactions/messaging/transaction.message.handler.ts:25-33 | after any history, races included, no continuation made of saves alone leaves an order stored twice once a handler has read the maximum, if and only if no order was stored twice before and nobody is between read and save |
| LedgerOrder.AnyTwoMessagesCanCollide | src/transactions/messaging/transaction.message.handler.ts:25-33 | from the empty table any two started transactions reach such an unsafe read |
| LedgerOrder.OccupiedWindowCollides | src/transactions/messaging/transaction.message.handler.ts:25-33 | if somebody is, whatever raced before, a continuation with nothing but saves stores some order twice |
| LedgerRecords.RealTimeOrder | src/transactions/messaging/transaction.message.handler.ts:26-42 | a record in the table when another handler read the maximum has a strictly smaller order than that handler's record, across all agents |
| LedgerRecords.OrderIsSettledAtRead | src/transactions/messaging/transaction.message.handler.ts:26-42 | the order of a handler's record is one more than the maximum it read, whatever happens before it is saved |
| LedgerRecords.RecordsCopyTheirMessage | src/transactions/messaging/transaction.message.handler.ts:20-42 | every record was saved by a started credit transaction received for its agent, and holds that message's fields and the hash of its issuer hash |
| LedgerRecords.AcksNeverExceedRecords | src/transactions/messaging/transaction.message.handler.ts:42-47 | in every reachable state a transaction has at least as many records as acknowledgements |
| LedgerRecords.TransactionAloneIsRecorded | src/transactions/messaging/transaction.message.handler.ts:20-53 | after any history an uninterrupted started transaction adds exactly its record, field by field, with the next order, and is acknowledged |
| LedgerRecords.ReportAloneIsAnswered | src/transactions/messaging/report.message.handler.ts:22-51 | and a started report request is answered with all its agent's records and changes nothing else |
| LedgerReports.ReportIsOneSnapshot | src/transactions/messaging/report.message.handler.ts:22-51 | a report is the projection of exactly the records its agent had at one moment between its `accepted` and its `completed` |
| LedgerReports.ReportHoldsItsWindow | src/transactions/messaging/report.message.handler.ts:22-51 | so it contains everything its agent had saved before `accepted`, and nothing saved after `completed` |
| LedgerReports.ReportLinesCopyRecords | src/transactions/messaging/report.message.handler.ts:32-45 | line by line a report copies nine fields of a record of its agent |
| LedgerReports.ReportsGrow | src/transactions/messaging/report.message.handler.ts:22-51 | a report accepted after another of the same agent was completed contains it, as multisets |
| LedgerReports.AcknowledgedIsReported | src/transactions/messaging/transaction.message.handler.ts:42-47 | a transaction acknowledged before a report of its agent is accepted is in that report |
| LedgerReports.ReportsPartitionLedger | src/transactions/messaging/report.message.handler.ts:22-51 | completed reports of different agents that were collected from the same table, one for every agent in it, together hold each of its records exactly once |
| Ledger.OnlyStartedMessagesAreAnswered | src/transactions/messaging/transaction.message.response.factory.ts:27-47 | `accepted` for a transaction and `completed` for a report answer only started messages of that type |
| LedgerRecords.StepsFollowTheirMessage | src/transactions/messaging/transaction.message.response.factory.ts:27-47 | in every run each step of a handler was set off by an earlier started message of the type that step belongs to |
| LedgerServices.DataService.GetMaxMerkelOrder | src/transactions/persistence/data.service.ts:23-30 | null for the empty table, otherwise the largest order |
| LedgerServices.DataService.GetAllTransactions | src/transactions/persistence/data.service.ts:19-21 | the agent's records and no others, in the order the database picks |
| LedgerServices.TransactionMessageHandler.FillRecord | src/transactions/messaging/transaction.message.handler.ts:27-40 | field by field the row is the record of the message with the next order |
| LedgerServices.TransactionMessageHandler.ReadAndFill | src/transactions/messaging/transaction.message.handler.ts:26-40 | one read of the maximum; a message without a transaction throws right after it |
| LedgerServices.TransactionMessageHandler.Save | src/transactions/persistence/data.service.ts:15-17 | one save of the record, refused when the column cannot hold its order |
| LedgerServices.TransactionMessageHandler.Acknowledge | src/transactions/messaging/transaction.message.handler.ts:46-47 | one `accepted` for a saved record |
| LedgerServices.TransactionMessageHandler.Respond | src/transactions/messaging/transaction.message.handler.ts:20-53 | read, save and acknowledge in this order; it fails at each await exactly when that one throws, the save also when the next order does not fit the column; otherwise the record is in the table with the order after the maximum it read, and `accepted` is sent |
| LedgerServices.ReportMessageHandler.BuildReport | src/transactions/messaging/report.message.handler.ts:30-45 | the loop projects every record, in order |
| LedgerServices.ReportMessageHandler.Respond | src/transactions/messaging/report.message.handler.ts:22-51 | accept, collect and complete in this order; it fails at each await exactly when that one throws; otherwise the report of the collected rows is sent |
| LedgerServices.TransactionService.BasicMessageHandler | src/transactions/transaction.service.ts:41-54 | by the literal type and state of the message: a started credit transaction is recorded and acknowledged exactly when nothing throws and its order fits, a started report request is answered exactly when nothing throws, every other message ends without a step, and one that does not parse throws |
| Router.JoinSplit | src/router/agent.router.service.ts:21-21 | splitting a path loses nothing |
| Router.RouterStopsAtSlashOrQuery | src/router/agent.router.service.ts:19-27 | the router reads the id up to the first slash or question mark after the prefix |
| Router.EndpointRoundTrip | src/manager/agent.config.ts:103-103 | a request for any rest at an agent's printed endpoint is routed to that agent and rewritten to that rest |
| Router.RouterAndRewriterAgreeExactlyWithoutQuery | src/router/agent.router.module.ts:30-32 | on every URL the rule matches, router and rule mean the same agent if and only if what the rule takes for the id has no question mark |
| Router.QueryAfterIdIsLost | src/router/agent.router.module.ts:30-32 | a query right after the id is routed to the agent and rewritten away with the id |

## Left out

- Controllers, DTO validation, modules, health checks, migrations and logging: wiring.
- Contents of pods, services and containers, `getStartArgs` and wallet storage options: flat data.
- `isReadyPod`: private and never called.
- Log streaming and `logCount` in `docker.service.ts`: output only.
- Pods and services that disappear without a request, and pods that linger while they terminate.
- Containers that Docker takes a while to remove after they have stopped.
- Requests sent twice by `requestWithRetry`, such as a registration that is carried out and then refused as existing.
- A cache write that is carried out but reported as failed.
- Process restarts, which lose all timers, and several processes sharing one cache.
- Wallet TTLs: `Multitenant` lets an entry expire at any moment instead.
- Invitations, and the ping and `createConnection` after the timer is set: they change none of the modelled state.
- A retry duration that is not a number, and times that are not whole milliseconds.
- Governance policies and webhooks: the code that applies them is in another package.
- `registerWithTDC`, `registerOnetimeKey`, `getOneTimeKeyIds`, `connectAgent`: single requests.
- `COMPLETED` and grant messages are only logged by their handlers; both count as ignored.
- Column lengths, null checks and the serial `id` of `agent_transactions`; optional message fields are strings.
- ManagerDeadlines.RunsUntilDue: says nothing about agents that end by themselves, because the manager's model has no such event; `AgentManagers` has one.
- The manager on Docker: `ManagerOnK8s` has no counterpart, a start and a stop there taking effect with their last request anyway.
