# Verified models of the provider daemon's event loops and ledgers

The provider daemon is a set of single-threaded event loops: a `select` over channels, with all state changed in the
loop's body, and goroutines that report back.  This project models the ones with the most intricate behaviour in
Dafny and proves what they keep over every run.

Each loop comes in up to three parts.

* A state machine: a `State`, the `Event`s the environment can deliver, `Enabled`, `Step` and `Run`.  The environment
  answers anything it likes: chain reads, transaction results, timers, publish failures, validation results and map
  iteration orders are arguments of the events.  Goroutines in flight, armed timers and a record of what the loop did
  are part of the state.  The theorems quantify over every sequence of events.
* A class with the loop's own variables as fields and one method per `select` case, with the source's loops.  Each
  method is proved to change the fields as the machine's `Step` says.  Where that takes the loop's invariant, the
  methods go from a state of some run to a state of some run (`Valid`), so that they can follow one another and what
  is proved of all runs holds of the fields.
* For the larger loops a history: what each event makes the loop do, as an if-and-only-if over the events delivered
  before it rather than over the loop's variables.

The files:

* `Market.dfy`, `Maps.dfy`: identifiers, and sums over a map, shared by the others.
* `WithdrawQueue.dfy`, `BalanceLoop.dfy`, `BalanceHistory.dfy`, `BalanceChecker.dfy`: the balance checker
  (`balance_checker.go`): funds checks per lease feeding a withdrawal queue that batches, fails over to single
  withdrawals and drops those of monitors gone. Lease states are heap objects shared by the lease map, both queues and
  the transaction in flight.
* `ManifestLoop.dfy`, `ManifestHistory.dfy`, `ManifestManager.dfy`: the manifest manager (`manifest/manager.go`):
  submitted manifests wait for chain reads, are validated, published and answered.
* `DeploymentLoop.dfy`, `DeploymentHistory.dfy`, `DeploymentManager.dfy`: the deployment manager (`cluster/manager.go`):
  deploys, teardowns, queued updates and reclamation.
* `OrderLoop.dfy`, `OrderHistory.dfy`, `OrderMonitor.dfy`: one order's bidding protocol (`bidengine/order.go`).
* `OrderCatchup.dfy`, `CatchupHistory.dfy`: the paginating catch-up with open orders and its resume key
  (`bidengine/service.go`).
* `Hostnames.dfy`: hostname reservations (`cluster/hostname.go`).
* `Inventory.dfy`: external ports and leased IPs (`cluster/inventory.go`).
* `Pods.dfy`: a node's accounting of its pods (`operator/inventory/node-discovery.go`).
* `Reconcile.dfy`: start-up lease reconciliation (`cluster/service.go`).
* `AttributeCache.dfy`: the cache of auditors' signatures (`bidengine/provider_attributes.go`).

`dafny verify dfyconfig.toml` checks the project.

What the proofs brought out about the code:

* A request to the manifest manager is told that it succeeded even if the bus refused the manifest:
  `ManifestLoop.SuccessDelivered` says exactly what a success means, `ManifestLoop.SuccessUndelivered` is an input.
* `PrepareHostnamesForTransfer` neither lower-cases names nor looks whether they are blocked, while reserving does both,
  so the rule that a reservation right after a prepare succeeds and withholds nothing fails for some names with capitals
  and for blocked ones.  `Hostnames.ServicePrepareThenReserve` gives the exact condition, and
  `Hostnames.CapitalNameWithheld` and `Hostnames.BlockedNamePrepared` are inputs.
* A reclamation deadline received after a close ended but before the loop took its report is stored and forgotten:
  `DeploymentLoop.DeadlineKeptIff` gives the exact condition, `DeploymentLoop.SecondDeadlineForgotten` an input.
* A bid still in flight is closed only if the run ends by losing the lease (`OrderLoop.BidInFlightAtExit`).
* Bid-closed events are compared with the provider record's text form rather than its address, so the model keeps the
  two apart.
* The attribute service never fills its table of fetches in progress, so fetches are duplicated; requests are still
  answered at most once (`AttributeCache.AnsweredAtMostOnce`).
* Purging an auditor's entry does not reach a fetch in flight, whose result is cached after it:
  `AttributeCache.PurgeHoldsIff` gives the exact condition, `AttributeCache.PurgeUndone` an input.
* 25000 is the largest result size for which the attribute cache's limit holds (`AttributeCache.LimitIsTight`).

## Model

| member | source | states |
|---|---|---|
| `WithdrawQueue.Queue.Next` | `balance_checker.go:344-366` | the pop loops return and leave exactly what `Pick` says: the first live item of a failed batch alone, otherwise up to 20 live due ones in order, dead items dropped on the way |
| `WithdrawQueue.NextConserves` | `balance_checker.go:344-366` | the batch, followed by the live items still queued, is the live items queued before, in order: none is lost, repeated or overtaken |
| `WithdrawQueue.NextPops` | `balance_checker.go:344-366` | each queue is left with what comes after the items popped off its front, and the batch is the live ones among those: only dead items are dropped, and only popped ones |
| `WithdrawQueue.NextBatchSize` | `balance_checker.go:43-44` | a batch has at most 20 items, and an empty one means both queues are left empty |
| `BalanceLoop.WithdrawalsConserved` | `balance_checker.go:347-404` | in every run a lease state (by reference, not lease ID) is at most once in the due queue, the alone queue and the transaction in flight together; it is then marked withdrawing; and a current, unclosed one so marked is there exactly once |
| `BalanceLoop.TransactionsBounded` | `balance_checker.go:426-449` | in every run each transaction names 1 to 20 distinct leases, nothing is queued while none is in flight (until shutdown), and no queued withdrawal is in more than two transactions |
| `BalanceLoop.SentWhenFree` | `balance_checker.go:426-449` | a step sends a transaction only when none is in flight or on the result of the one that was, and every lease in it is then current and not reported closed |
| `BalanceLoop.ResultDrains` | `balance_checker.go:578-597` | each transaction result, good or bad, strictly lowers a measure of what is queued and in flight |
| `BalanceLoop.QueueDrains` | `balance_checker.go:578-597` | with no new arrivals that many results leave nothing queued and nothing in flight, whatever comes between them: monitors removed or added again, timers, checks and their results |
| `BalanceLoop.EveryMonitorChecked` | `balance_checker.go:468-577` | in every run before shutdown each current monitor not reported closed has a check armed or running |
| `BalanceLoop.ClosedIsFinal` | `balance_checker.go:371-404` | once a monitor is marked closed no continuation of the run publishes its closure, arms a timer for it, queues its withdrawal or sends it in a transaction |
| `BalanceLoop.FailureRetried` | `balance_checker.go:529-577` | in every run, once a withdrawal from one lease failed for another reason than a closed escrow, then however the run goes on the next check of that lease that gets an answer queues it again, if its monitor is still current and not reported closed |
| `BalanceLoop.NoPeriodNoWithdrawals` | `balance_checker.go:541-549` | without a withdrawal period no run queues or sends a withdrawal, not even from a lease out of funds |
| `BalanceLoop.ResultIsHandled` | `balance_checker.go:578-597` | in every run the result of a transaction finds the states of its leases, so it is handled if and only if one is in flight |
| `BalanceHistory.QueuedIff` | `balance_checker.go:506-577` | in every run a withdrawal is queued if and only if a check of the lease's monitor, current and not reported closed, got an answer, there is a withdrawal period, none of it is queued or in flight, and the lease is out of funds, or the check was made for the scheduled withdrawal, or a lone one failed since the last was queued for another reason than a closed escrow |
| `BalanceHistory.AskedIsOutstanding` | `balance_checker.go:529-577` | and such a check leaves exactly one queued or in flight |
| `BalanceHistory.ChecksExactly` | `balance_checker.go:468-566` | in every run an event arms exactly the check called for: after an answer one for the scheduled withdrawal, at its time, if no withdrawal is asked for and that comes no later than the next check would, otherwise that one; after a failure the same again in a minute; a removal stops the monitor's last timer and a timer that fires starts its check |
| `BalanceHistory.ScheduledStays` | `balance_checker.go:553-566` | in every run, once an answer finds a withdrawal due no later than the next check, a check made for it is armed or running in every continuation while the monitor is watched and no check of its lease is answered |
| `BalanceHistory.ScheduledIsQueued` | `balance_checker.go:541-576` | and the answer to that check leaves the withdrawal queued or in flight |
| `BalanceHistory.DoesExactly` | `balance_checker.go:371-404` | in every run an event makes the loop publish, arm, queue and send exactly what the events before call for, with the reason of a closure as the chain's error gives it |
| `BalanceHistory.QueuesExactly` | `balance_checker.go:426-449` | in every run the queues and the transaction in flight are what the events leave: a failed batch's withdrawals join those to send alone, in order |
| `BalanceHistory.WatchedExactly` | `balance_checker.go:506-511` | in every run a check's result is for the monitor added last and not removed since, while its closure is not published |
| `BalanceHistory.CancelledIff` | `balance_checker.go:426-449` | in every run sending is over exactly since the context ended |
| `BalanceLoop.StepKeeps` | `balance_checker.go:458-600` | every event keeps the invariant behind the statements above: tracking of states and timers, soundness of the queues, bounded sends, checks coming, soundness of the record |
| `BalanceChecker.Checker.EachWithdrawnOnce` | `balance_checker.go:347-366` | whenever the loop is between two cases no lease state object is twice among the queued and sent withdrawals, and none waits while the queue is free to send |
| `BalanceChecker.Checker.OnAddMonitor` | `balance_checker.go:468-496` | a monitor is added on the heap as the machine's step says, with a fresh state object even for a lease known before; again in a state of some run |
| `BalanceChecker.Checker.OnRemoveMonitor` | `balance_checker.go:497-504` | a monitor is removed and its timer stopped as the machine's step says |
| `BalanceChecker.Checker.OnCheckResult` | `balance_checker.go:506-577` | a check's result, found by lease ID alone, updates state object, timers, queues and what is in flight as the machine's step says |
| `BalanceChecker.Checker.OnFunds` | `balance_checker.go:529-577` | rearming, scheduling and queueing after a check with an answer, as the machine says; when it queues and what it arms is `BalanceHistory.QueuedIff` and `BalanceHistory.ChecksExactly` |
| `BalanceChecker.Checker.Send` | `balance_checker.go:426-449` | the next transaction is taken from the queues and sent, unless one is in flight or the context ended |
| `BalanceChecker.Checker.WithdrawFailed` | `balance_checker.go:371-404` | a failed withdrawal of one lease: retry marked, or the closure published and the lease marked closed, on the shared state object only where it is still the lease's |
| `BalanceChecker.Checker.ClearAll` | `balance_checker.go:582-585` | the loop over a transaction that went through clears exactly its leases' flags |
| `BalanceChecker.Checker.OnWithdrawalDone` | `balance_checker.go:578-597` | a transaction's result in its three cases, then the next one sent, as the machine's step says |
| `ManifestLoop.ExactlyOnePlace` | `manifest/manager.go:148-228` | in every run each request received is in exactly one of: answered, dropped because its context ended, waiting for a read; none is answered twice |
| `ManifestLoop.NoneStuck` | `manifest/manager.go:148-260` | at each loop head no accepted request is unanswered, requests wait only while a chain read is running, and an ended loop leaves none |
| `ManifestLoop.TwoReadsSettle` | `manifest/manager.go:199-217` | in every run two completed chain reads leave no request waiting, whatever they say and whatever events other than submissions come between them |
| `ManifestLoop.RefusedOnlyAfterReread` | `manifest/manager.go:460-503` | in every run a request is refused for its version only at its second validation, when it really differs from the one expected by a chain read that was started after its first mismatch |
| `ManifestLoop.ValidatedAtMostTwice` | `manifest/manager.go:460-503` | in every run each request answered or dropped was validated at most twice, and each one waiting at most once |
| `ManifestLoop.SuccessWasAttempted` | `manifest/manager.go:417-458` | in every run a request told it succeeded has the version expected then, and before the answer a manifest of that version was handed to the bus for each of one or more leases |
| `ManifestLoop.SuccessDelivered` | `manifest/manager.go:425-458` | those leases are the ones known when the answer was sent, and in every continuation the manifest reached a given one if and only if the bus took its publication |
| `ManifestLoop.SuccessUndelivered` | `manifest/manager.go:443-457` | an input: the bus refuses the only publication and the request is still told that it succeeded |
| `ManifestLoop.ExpectedIsLatestHighest` | `manifest/manager.go:285-312` | in every run the expected version is the one and only version that is the most recent read with a hash among those at the greatest height such a read reported |
| `ManifestLoop.HeightNeverDecreases` | `manifest/manager.go:141-146` | no continuation of a run, cache clearing included, lowers the expected version's height |
| `ManifestLoop.SortConserves` | `manifest/manager.go:460-503` | a validation pass neither loses nor repeats a request, for every answer of the environment |
| `ManifestLoop.SortSound` | `manifest/manager.go:460-503` | what a pass accepts has the expected version, what it keeps has just mismatched for the first time, what it refuses for its version had mismatched before an older read |
| `ManifestLoop.StepSound` | `manifest/manager.go:161-218` | every event keeps the loop-head invariant and the soundness of the answers sent |
| `ManifestHistory.NothingOnOutdatedData` | `manifest/manager.go:173-197` | in every run, from an update, a lease won or a lease removed on and until another chain read completes, nothing is published and nobody is told of success or refusal |
| `ManifestHistory.ReadsExactly` | `manifest/manager.go:238-260` | in every run an event starts a chain read, and one, if and only if it is a lease won or a submission without usable data while none runs, or leaves requests waiting after deciding |
| `ManifestHistory.PublishesExactly` | `manifest/manager.go:417-458` | in every run an event publishes exactly the manifest accepted last, for every lease of the data it is handled with, so that a lease won gets it with the next completed read; nothing without data, before a first manifest, or if it accepts none and leaves requests waiting |
| `ManifestHistory.EachDecided` | `manifest/manager.go:460-563` | in every run, with data at hand, each request waiting and a new one is decided by what is said of it: dropped, refused for the first check that fails, kept at a first mismatch, refused at a second, told of success with the manifest published, or that there is no lease |
| `ManifestHistory.OthersAnswerAll` | `manifest/manager.go:402-412` | in every run without data nobody is told anything and a submission waits, except that a failed read and the end of the loop tell everyone |
| `ManifestHistory.RecordsFirst` | `manifest/manager.go:490-503` | in every run the manifest recorded, which is the one published from then on, is that of the first request at hand that passes every check |
| `ManifestHistory.ExpectedFromReads` | `manifest/manager.go:285-312` | in every run the expected version is the one the versions of all completed reads pick out |
| `ManifestHistory.EndedIff` | `manifest/manager.go:161-171` | in every run the loop has ended exactly if it was stopped |
| `ManifestManager.Manager.LeavesNoneStuck` | `manifest/manager.go:148-260` | whenever the loop is between two cases no accepted request is unanswered, requests wait only for a running read, and none once it ended |
| `ManifestManager.Manager.ClearFetched` | `manifest/manager.go:141-146` | drops the cached read but not the expected version |
| `ManifestManager.Manager.MaybeFetchData` | `manifest/manager.go:238-248` | starts a read exactly if none runs and the cached one is missing or stale |
| `ManifestManager.Manager.MaybeRereadData` | `manifest/manager.go:252-260` | starts a read exactly if requests were kept waiting |
| `ManifestManager.Manager.ApplyFetchResult` | `manifest/manager.go:293-312` | stores a read; its hash becomes the expected one unless empty or from a lower height |
| `ManifestManager.Manager.FillAllRequests` | `manifest/manager.go:402-412` | the two loops answer every request, accepted ones first, and leave none |
| `ManifestManager.Manager.MaybeEmitReceivedEvents` | `manifest/manager.go:417-423` | publication is put off exactly when requests wait and none was accepted |
| `ManifestManager.Manager.EmitReceivedEvents` | `manifest/manager.go:425-458` | the latest manifest is handed to the bus for every local lease, then the accepted requests are answered, whatever the bus said; without leases everyone is refused |
| `ManifestManager.Manager.ValidateRequest` | `manifest/manager.go:505-563` | a request is accepted if and only if its context stands, it is well-formed and within limits, has the expected version, fits its groups and its hostnames are free; it counts as a mismatch if and only if its version is the first of these to fail |
| `ManifestManager.Manager.SortRequests` | `manifest/manager.go:469-489` | the validation loop sorts the requests as the specification of a pass does |
| `ManifestManager.Manager.ValidateRequests` | `manifest/manager.go:460-503` | a pass takes effect: kept requests, accepted ones, the first accepted manifest recorded |
| `ManifestManager.Manager.OnManifest` | `manifest/manager.go:185-195` | a submission takes the machine's step |
| `ManifestManager.Manager.OnFetchResult` | `manifest/manager.go:199-217` | a completed read takes the machine's step |
| `ManifestManager.Manager.OnFetchError` | `manifest/manager.go:199-207` | a failed read takes the machine's step: every request is answered with the failure |
| `ManifestManager.Manager.OnLease` | `manifest/manager.go:173-180` | a new lease takes the machine's step |
| `ManifestManager.Manager.OnRemoveLease` | `manifest/manager.go:181-184` | a removed lease takes the machine's step |
| `ManifestManager.Manager.OnUpdate` | `manifest/manager.go:196-197` | an update event takes the machine's step: what was read is not used any more, which is `ManifestHistory.NothingOnOutdatedData` |
| `ManifestManager.Manager.OnStopped` | `manifest/manager.go:164-171` | the end of the loop answers every request that it is not running |
| `DeploymentLoop.PhaseDeterminesJob` | `cluster/manager.go:253-342` | in every run the phase determines the job running (or the retry armed), at most one job is alive, the monitor runs exactly in deploy-complete, and neither panic is reached |
| `DeploymentLoop.ExitMeansTornDown` | `cluster/manager.go:276-322` | a loop that ended without a shutdown request has completed a teardown, no job is alive, and the removal of the funds monitor was handed to the bus, taken or not |
| `DeploymentHistory.EndsIff` | `cluster/manager.go:305-316` | in every run an event ends the loop if and only if it is the shutdown request or reports that the teardown listened to succeeded |
| `DeploymentHistory.FailedTeardownRetried` | `cluster/manager.go:307-326` | and a failed teardown leaves it running with the retry armed, which starts another |
| `DeploymentHistory.TearingDownIff` | `cluster/manager.go:276-341` | in every run the lease is being torn down exactly since a teardown was requested or a job found the lease inactive, whatever the loop was doing |
| `DeploymentHistory.StartsExactly` | `cluster/manager.go:178-341` | in every run an event starts exactly the job called for by the job listened to, whether the lease is to be closed, and the updates since the last job started; a deploy is of the newest deployment handed over |
| `DeploymentHistory.ListensToLast` | `cluster/manager.go:276-277` | in every run the loop listens to the job started last until it has reported, and then to none |
| `DeploymentHistory.RemovalPerTeardown` | `cluster/manager.go:429-439` | in every run each teardown, and nothing else, comes with one removal of the funds monitor handed to the bus |
| `DeploymentLoop.TeardownIsFinal` | `cluster/manager.go:169-176` | once tearing down, every continuation stays so, starts only teardowns and no reclamation attempt |
| `DeploymentLoop.TeardownRetried` | `cluster/manager.go:309-326` | with teardown active and the loop running, a teardown runs or the armed retry starts one |
| `DeploymentLoop.NoUpdateLost` | `cluster/manager.go:178-190` | whenever nothing is pending the last job started deployed the most recently accepted deployment, however many updates came in meanwhile |
| `DeploymentLoop.AttemptNeverBlocks` | `cluster/manager.go:214-235` | in every run at most one reclamation attempt is in flight and its send finds the one-place result channel empty |
| `DeploymentHistory.AttemptsExactly` | `cluster/manager.go:220-263` | in every run an event makes a reclamation attempt if and only if it is a deadline received or the timer, no attempt is unreported and the lease is not being torn down; it is made for the deadline received last |
| `DeploymentHistory.TimerIff` | `cluster/manager.go:239-268` | in every run the timer is armed exactly from the report of an attempt that did not close the lease, while it was not being torn down, to its firing |
| `DeploymentLoop.DeadlineNotForgotten` | `cluster/manager.go:222-268` | in every run a deadline received while no successful close waits to be reported has, in every continuation in which no attempt closes the lease, an attempt running, one that ended without closing, or a timer armed, unless tearing down |
| `DeploymentLoop.DeadlineKeptIff` | `cluster/manager.go:222-268` | the condition is exact: a deadline received is so pursued in every continuation without a close if and only if the lease is being torn down or no successful close waits to be reported |
| `DeploymentLoop.DeadlineForgotten` | `cluster/manager.go:222-268` | otherwise it starts no attempt, and after the report none is made, running or scheduled in any continuation until another deadline is received |
| `DeploymentLoop.SecondDeadlineForgotten` | `cluster/manager.go:222-268` | an input: a second deadline, received between the end and the report of the close for the first, is stored and forgotten |
| `DeploymentLoop.StepKeeps` | `cluster/manager.go:253-342` | every event keeps the invariant behind the statements above, and the tearing-down phases |
| `DeploymentManager.Manager.JobGoesWithPhase` | `cluster/manager.go:253-342` | whenever the loop is between two cases its phase determines the job it listens to or the retry armed, the monitor runs exactly in deploy-complete, and with nothing pending the deployment in use is the one deployed last |
| `DeploymentManager.Manager.AttemptReportsBack` | `cluster/manager.go:220-235` | whenever the loop is between two cases an attempt marked as made is running or its one result waits, and without the mark there is neither |
| `DeploymentManager.Manager.OnShutdown` | `cluster/manager.go:256-258` | a shutdown request takes the machine's step and ends the loop |
| `DeploymentManager.Manager.AttemptEnded` | `cluster/manager.go:229-233` | the attempt's goroutine leaves its result for the loop, as the machine's step says |
| `DeploymentManager.Manager.constructor` | `cluster/manager.go:192-196` | starts with a deploy running, in a state of some run |
| `DeploymentManager.Manager.RunDeploy` | `cluster/manager.go:389-391` | starts a deploy of the deployment in use |
| `DeploymentManager.Manager.RunTeardown` | `cluster/manager.go:429-439` | hands the bus the removal of the funds monitor and starts a teardown, whether or not the bus takes it |
| `DeploymentManager.Manager.OnUpdate` | `cluster/manager.go:178-190` | an update takes the machine's step |
| `DeploymentManager.Manager.OnResult` | `cluster/manager.go:276-322` | a job's result takes the machine's step, from any valid state; the panicking branches are proved dead, and when the loop ends is `DeploymentHistory.EndsIff` |
| `DeploymentManager.Manager.OnRetry` | `cluster/manager.go:324-326` | the retry timer takes the machine's step |
| `DeploymentManager.Manager.OnTeardown` | `cluster/manager.go:328-341` | a teardown request takes the machine's step |
| `DeploymentManager.Manager.OfferDeadline` | `cluster/manager.go:154-163` | a deadline is queued, or dropped if one is |
| `DeploymentManager.Manager.StartReclaimAttempt` | `cluster/manager.go:222-234` | an attempt starts exactly if none is in flight and the lease is not being torn down |
| `DeploymentManager.Manager.OnDeadline` | `cluster/manager.go:259-261` | a deadline received takes the machine's step |
| `DeploymentManager.Manager.OnReclaimTimer` | `cluster/manager.go:262-263` | the reclamation timer takes the machine's step |
| `DeploymentManager.Manager.OnAttempt` | `cluster/manager.go:239-268` | an attempt's result takes the machine's step |
| `OrderLoop.BidsByTheRules` | `bidengine/order.go:377-447` | in every run at most one bid is sent, after a reservation granted and not given back, in the fetched group's denomination, not above its maximum, and never where an open bid was found |
| `OrderLoop.LosingReleases` | `bidengine/order.go:476-493` | every run that ends without winning gives back exactly the reservations granted to it, one still in flight at the end included, each once |
| `OrderLoop.LosingCloses` | `bidengine/order.go:495-511` | a run that ends without winning closes its bid, once, if and only if a bid was found or landed and was not reported closed, or one was sent and the lease went to another provider |
| `OrderLoop.BidInFlightAtExit` | `bidengine/order.go:281-291` | a bid sent and not seen to land is followed by a close exactly when the run ended by losing the lease: every other exit leaves it open if it lands |
| `OrderLoop.WinningKeeps` | `bidengine/order.go:291-305` | a run that wins hands the bus, which may refuse it, a lease of the order's group with this provider, and neither gives back its reservation nor closes its bid |
| `OrderHistory.NoCommitmentBeforeDecision` | `bidengine/order.go:354-375` | in every run no reservation is granted to it and no bid sent before the decision to bid was received |
| `OrderHistory.DecisionDecides` | `bidengine/order.go:354-375` | in every run the decision to bid leaves a reservation in flight and the record as it was, and any other decision ends the run with no reservation granted and no bid sent |
| `OrderHistory.ResultsTell` | `bidengine/order.go:230-472` | in every run still in its loop the results received came in the protocol's order, and they alone say which results are outstanding, what is held and what the record is |
| `OrderHistory.EndsExactly` | `bidengine/order.go:230-528` | in every run an event ends it for exactly the reason its result and the group fetched give, if any, and the record is then what the results call for: on winning the lease handed over, otherwise what was granted given back and the bid closed |
| `OrderLoop.PriceHasGroup` | `bidengine/order.go:415-425` | in every state of a run a price to come is for a group already fetched, so the group read then is never missing, and for a reservation held with no bid placed |
| `OrderLoop.StepKeeps` | `bidengine/order.go:230-472` | every event keeps the protocol's order: which results can be outstanding together, and what the record of the run looks like |
| `OrderMonitor.Monitor.KeepsTheRules` | `bidengine/order.go:230-472` | whenever the loop is between two cases the bids made are by the rules, and a price or a bid on its way is for a reservation held, a group fetched and no bid placed |
| `OrderMonitor.Monitor.constructor` | `bidengine/order.go:179-228` | the group is fetched at once, and held back while an existing bid is looked up |
| `OrderMonitor.Monitor.CloseOut` | `bidengine/order.go:476-528` | the clean-up after the loop |
| `OrderMonitor.Monitor.OnQueryBid` | `bidengine/order.go:236-269` | the existing bid's lookup takes the machine's step |
| `OrderMonitor.Monitor.OnLease` | `bidengine/order.go:271-305` | a lease created takes the machine's step |
| `OrderMonitor.Monitor.OnOrderClosed` | `bidengine/order.go:306-314` | an order closed takes the machine's step |
| `OrderMonitor.Monitor.OnBidClosed` | `bidengine/order.go:315-334` | a bid closed takes the machine's step; the event's provider is compared with the provider record's text, as the code does |
| `OrderMonitor.Monitor.OnGroupFetched` | `bidengine/order.go:336-352` | the group's details take the machine's step |
| `OrderMonitor.Monitor.OnShouldBid` | `bidengine/order.go:354-375` | the decision takes the machine's step: only a decision to bid goes on, which is `OrderHistory.DecisionDecides` |
| `OrderMonitor.Monitor.OnReserved` | `bidengine/order.go:377-414` | the reservation's result takes the machine's step |
| `OrderMonitor.Monitor.OnPriced` | `bidengine/order.go:415-447` | the price takes the machine's step: a bid is sent only in the right denomination and not above the maximum |
| `OrderMonitor.Monitor.OnBidResult` | `bidengine/order.go:449-463` | the bid's result takes the machine's step |
| `OrderMonitor.Monitor.OnBidTimeout` | `bidengine/order.go:464-469` | the timeout takes the machine's step |
| `OrderMonitor.Monitor.OnShutdown` | `bidengine/order.go:233-234` | a shutdown request takes the machine's step |
| `OrderCatchup.KeyWrittenOnce` | `bidengine/service.go:227-382` | in every interleaving of fetcher and service a resume key is written if and only if the last page of one contiguous traversal from the persisted key (or the beginning) was processed and every order of it got a monitor; then once, and that page's key |
| `OrderCatchup.WrittenMeansCovered` | `bidengine/service.go:348-382` | a written key means that no page is left queued and every order of every page had a monitor |
| `OrderCatchup.CatchUpCoversAll` | `bidengine/service.go:218-226` | if the node serves consecutive slices of an ordered list, a written key means the pages were exactly that list from the starting key on, in order, and each of its orders had a monitor |
| `OrderCatchup.SlicesJoin` | `bidengine/service.go:242-335` | a contiguous traversal of such a node yields one slice of its list |
| `OrderCatchup.StoppedEarlyWritesNothing` | `bidengine/service.go:317-328` | a fetcher stopped by a repeated next key or an ended context leaves the persisted key alone in every continuation |
| `CatchupHistory.FetchesExactly` | `bidengine/service.go:242-335` | the fetcher queues every page answered under the key it asked with, the persisted one first and none once the node refused that, except one that names that key as the next; it stops there, at the last page and with its context, and asks again otherwise |
| `CatchupHistory.PagesInOrder` | `bidengine/service.go:317-328` | in every run the pages queued are those the node's answers alone call for, and are taken in order, one at a time |
| `CatchupHistory.MonitoredExactly` | `bidengine/service.go:349-366` | in every run an order has a monitor exactly if one was created for it, on an event or from a page, and not drained since |
| `CatchupHistory.PersistsExactly` | `bidengine/service.go:368-382` | in every run the catch-up is incomplete exactly since some order of a page got no monitor, and a page persists its key, if the store takes it, exactly if it is the last and the catch-up complete |
| `OrderCatchup.OrdersFetcher` | `bidengine/service.go:227-339` | the fetcher's loop queues the pages its specification says, and none of them is a last page if it stops for a repeated key |
| `OrderCatchup.Engine.CreateMonitors` | `bidengine/service.go:349-366` | the loop over a page gives each order a monitor or records that it could not |
| `OrderCatchup.Engine.ProcessOrdersPage` | `bidengine/service.go:348-382` | a page is processed and the key persisted as the specification says |
| `OrderCatchup.Engine.OnOrderCreated` | `bidengine/service.go:429-451` | an order seen as an event gets a monitor unless it has one |
| `OrderCatchup.Engine.OnOrderDrained` | `bidengine/service.go:457-461` | an order whose monitor is done is forgotten by the service, though not by the record of monitors there were |
| `Hostnames.OwnerNeverChanges` | `cluster/hostname.go:93-243` | over any reserve, prepare-transfer and release requests, a hostname held all the way keeps its owner |
| `Hostnames.HeldExactly` | `cluster/hostname.go:93-243` | over any requests each name is held for exactly the group the granted ones call for: the first to reserve it until it releases it or reserves without it, or the last to prepare its transfer; a request is granted exactly if no name of it is another owner's |
| `Hostnames.ReserveExact` | `cluster/hostname.go:136-194` | a successful reservation leaves the ID holding exactly the requested names that are not withheld, and every other ID's names as they were |
| `Hostnames.PrepareThenReserve` | `cluster/hostname.go:93-112` | reserving right after a successful prepare of the same names succeeds and withholds none |
| `Hostnames.ServicePrepareThenReserve` | `cluster/hostname.go:342-436` | through the service, which checks blocked names and lower-cases only to reserve, that holds if and only if none of the names is blocked and each one's lower-case form is free, already held for the ID, or itself among the names prepared |
| `Hostnames.LowerCaseNamesPrepare` | `cluster/hostname.go:342-436` | so for lower-case names it holds if and only if none is blocked |
| `Hostnames.CapitalNameWithheld` | `cluster/hostname.go:342-436` | and fails for a concrete name with a capital: the prepare succeeds and changes nothing, the reservation withholds the name |
| `Hostnames.BlockedNamePrepared` | `cluster/hostname.go:387-436` | and fails for a concrete blocked name: the prepare succeeds, the reservation is refused |
| `Hostnames.ListsBlock` | `cluster/hostname.go:280-290` | the two lists built from the configured names block exactly what those names say |
| `Hostnames.Service.constructor` | `cluster/hostname.go:279-313` | builds the lists of blocked names and domains |
| `Hostnames.Service.IsHostnameBlocked` | `cluster/hostname.go:373-385` | a name is refused exactly if a configured name blocks it |
| `Hostnames.Service.CanReserve` | `cluster/hostname.go:204-217` | succeeds exactly if no name of the list is another owner's, and otherwise names one that is |
| `Hostnames.Service.Reserve` | `cluster/hostname.go:136-194` | succeeds exactly when can-reserve does, with the new store and the withheld names in full; a failure leaves the store unchanged |
| `Hostnames.Service.Prepare` | `cluster/hostname.go:93-112` | moves the held names of the list to the ID, or fails and leaves the store unchanged |
| `Hostnames.Service.Release` | `cluster/hostname.go:232-243` | removes exactly the ID's names, in whatever order the map yields them |
| `Hostnames.Service.ReserveHostnames` | `cluster/hostname.go:387-436` | succeeds exactly if the lower-cased names are neither blocked nor another owner's, and then reserves them |
| `Hostnames.Service.CanReserveHostnames` | `cluster/hostname.go:451-480` | succeeds exactly when reserving would |
| `Hostnames.Service.PrepareHostnamesForTransfer` | `cluster/hostname.go:342-371` | prepares the names as they are |
| `Inventory.PortsAlwaysBalance` | `cluster/inventory.go:650-690` | in every run the ports left and those of the allocated reservations add up to the configured quantity modulo 2^64 |
| `Inventory.PortsExact` | `cluster/inventory.go:650-690` | and exactly, without wrapping, if and only if the allocated reservations' ports fit the quantity |
| `Inventory.LeasedIPsNeverOversold` | `cluster/inventory.go:541-585` | in every run that starts below 2^64 leased IPs the service's count never wraps, and every accepted reservation leaves the true sum within the total |
| `Inventory.ReserveAddsIff` | `cluster/inventory.go:541-585` | in every such run a reservation is added if and only if the inventory agrees and it asks for no address, or there is an IP operator and the addresses used, those unconfirmed and its own fit the total |
| `Inventory.OrdersKeptApart` | `cluster/inventory.go:652-818` | in every such run each order's reservations are a queue of their own that no other order's events touch: one accepted joins at the end, a release takes the oldest, a usage report that names the order confirms the oldest, a deployment event marks the oldest of its group |
| `Inventory.UsageIsLast` | `cluster/inventory.go:797-818` | in every run the addresses left are counted from the last usage report |
| `Inventory.PortsAreCounted` | `cluster/inventory.go:1004-1019` | a unit takes one external port for each endpoint of the random-port kind and none for any other |
| `Inventory.AvailableLeasedIPs` | `cluster/inventory.go:456-467` | what is left of the total or nothing, with no unsigned subtraction below zero |
| `Inventory.CountReservedIPs` | `cluster/inventory.go:445-454` | the loop computes the unconfirmed reservations' IPs modulo 2^64 |
| `Inventory.CountEndpoints` | `cluster/inventory.go:1004-1019` | the nested loops compute a reservation's external ports modulo 2^64 |
| `Inventory.EndpointQuantity` | `cluster/util/endpoint_quantity.go:8-23` | the number of different sequence numbers among a group's leased-IP endpoints, which fits 64 bits |
| `Inventory.Service.constructor` | `cluster/inventory.go:117-168` | starts with the configured ports and an unallocated reservation per deployment found |
| `Inventory.Service.OnClusterDeployment` | `cluster/inventory.go:652-690` | the first reservation of the order and group is marked and its ports taken or given back, if that is a change |
| `Inventory.Service.HandleRequest` | `cluster/inventory.go:541-585` | a reservation is accepted if and only if the inventory agrees and its leased IPs, if any, fit; otherwise refused for the first reason that applies |
| `Inventory.Service.Unreserve` | `cluster/inventory.go:711-737` | the first reservation of the order is removed and its ports given back if it was allocated; says whether there was one |
| `Inventory.Service.OnCheckResult` | `cluster/inventory.go:797-818` | the usage report is stored and the first reservation of each confirmed order confirmed |
| `Pods.AllocatedIsSum` | `operator/inventory/node-discovery.go:506-548` | after any pod events and watcher restarts the CPU, memory (memory-backed volumes included), ephemeral storage and GPUs allocated are the sums over the recorded pods, given that the last listing names no scheduled pod twice |
| `Pods.AllocatedIsSumIff` | `operator/inventory/node-discovery.go:506-548` | for any listing: if and only if the pods replaced within the last one took nothing |
| `Pods.DeletionNeverNegative` | `operator/inventory/node-discovery.go:1001-1026` | with non-negative requests, in every run what is allocated covers every recorded pod, so that a deletion leaves nothing negative |
| `Pods.RecordedExactly` | `operator/inventory/node-discovery.go:647-678` | in every run the pod on record under a name is the first one seen scheduled since one was last deleted or the watch restarted, and after a restart the last one listed scheduled |
| `Pods.ScheduledIff` | `operator/inventory/node-discovery.go:430-436` | a pod counts as scheduled exactly if its first condition about scheduling is there and true |
| `Pods.RequestedIsTotal` | `operator/inventory/node-discovery.go:957-988` | what a container takes of a resource is the sum of its requests that count towards it, three names for GPUs and none for one not known |
| `Pods.StepAccounted` | `operator/inventory/node-discovery.go:647-678` | every pod event and restart keeps the accounting equation |
| `Pods.Monitor.AddPod` | `operator/inventory/node-discovery.go:957-988` | adds what the pod takes, for every order in which its requests are visited; its memory-backed volumes once per container |
| `Pods.Monitor.SubPod` | `operator/inventory/node-discovery.go:1028-1059` | subtracts what the pod takes, and goes negative at no single subtraction if requests are non-negative and covered |
| `Pods.Monitor.RestartPodsWatcher` | `operator/inventory/node-discovery.go:506-548` | recomputes everything from a listing |
| `Pods.Monitor.OnPodSeen` | `operator/inventory/node-discovery.go:660-666` | a pod is recorded once, when first seen scheduled |
| `Pods.Monitor.OnPodDeleted` | `operator/inventory/node-discovery.go:667-677` | what was recorded is subtracted; the went-negative branch is dead in an accounted state with non-negative requests |
| `Reconcile.PassTouchesOnlyOwn` | `cluster/service.go:553-619` | a whole pass, whatever it is answered, touches only this provider's leases that the cluster lists and the chain reports closed |
| `Reconcile.OnlyClosedTornDown` | `cluster/service.go:590-619` | everything a pass does is about a lease in the cluster, not active, that the chain, asked about that very lease, reports closed |
| `Reconcile.ReleaseOnlyLastOfGroup` | `cluster/service.go:578-588` | hostnames are released only for a lease whose group no other lease of the provider, in the cluster or active on chain, shares |
| `Reconcile.LastOfGroup` | `cluster/service.go:578-588` | the count of a group is one if and only if the lease stands once in the cluster and no other lease of the group is there or active |
| `Reconcile.NoErrorMeansDone` | `cluster/service.go:590-619` | where handling the leases gave no error, the closure of every managed closed lease was published, with the reason the chain gave, and taken by the bus, and for every other both purges, the release if last of its group and the teardown were done and succeeded |
| `Reconcile.NoErrorMeansConfirmed` | `cluster/service.go:596-600` | and no lease was left unconfirmed |
| `Reconcile.PassWithoutError` | `cluster/service.go:553-619` | both of a whole pass: one that returns no error read the cluster and the chain, and left nothing unconfirmed or undone |
| `Reconcile.FailsExactly` | `cluster/service.go:590-619` | the handling fails if and only if some lease not active could not be confirmed, or is closed and could not be published or removed in full; one lease's failure hides no other |
| `Reconcile.DoesExactly` | `cluster/service.go:590-640` | what a pass does, action by action: a closure published with the chain's reason for a managed lease, otherwise both purges, then if both succeed the teardown, and the release if the lease is alone in its group; for exactly the leases not active that the chain reports closed |
| `Reconcile.PassFailsExactly` | `cluster/service.go:553-619` | a whole pass fails if and only if the cluster cannot be read, or there are own leases and the active ones cannot be read to the end, or some lease could not be confirmed, published or removed |
| `Reconcile.TeardownAfterPurges` | `cluster/service.go:621-640` | wherever in a pass a namespace is torn down, both purges of that lease came before and succeeded, so a pass cut short leaves the lease for the next one to find |
| `Reconcile.ActiveExactly` | `cluster/service.go:642-669` | the active leases are read if and only if the pages come to an end before an error or a repeated key, and are then those the pages list |
| `Reconcile.LeasesOfIs` | `cluster/service.go:655-657` | the leases collected from pages are those one of the pages lists |
| `Reconcile.ActiveLeases` | `cluster/service.go:642-669` | the pagination loop computes that reading |
| `Reconcile.CountGroups` | `cluster/service.go:578-588` | the two loops count each group's leases, for every order of the map |
| `Reconcile.RemoveUnmanagedLease` | `cluster/service.go:626-640` | removing one lease fails if and only if a step of it does; the namespace is torn down if and only if both purges succeeded, and hostnames released if and only if moreover it is the last of its group |
| `Reconcile.TearDownClosed` | `cluster/service.go:590-619` | the loop over the provider's leases does what is specified for each, and fails if any does |
| `Reconcile.ReconcileOnce` | `cluster/service.go:553-619` | a whole pass: cluster read, own leases, active leases, teardown |
| `AttributeCache.CacheBounded` | `bidengine/provider_attributes.go:249-294` | in every run, for every order of the map, if each result has at most 25000 attributes the cache holds at most 50000 |
| `AttributeCache.LimitIsTight` | `bidengine/provider_attributes.go:249-294` | and 25000 is the most: some run whose results have at most 25001 attributes leaves 50001 in the cache |
| `AttributeCache.CacheFreshAfterResult` | `bidengine/provider_attributes.go:249-269` | in every run, right after a result came in each cached entry is its auditor's latest result, not purged since, and no older than the time to live |
| `AttributeCache.CachedIsLatest` | `bidengine/provider_attributes.go:223-239` | in every run each cached entry is its auditor's latest result, not purged since |
| `AttributeCache.PurgeIsKept` | `bidengine/provider_attributes.go:177-179` | after a purge no continuation brings the auditor's entry back before another result of its own, so that a request for it waits for a fetch |
| `AttributeCache.PurgeHoldsIff` | `bidengine/provider_attributes.go:177-179` | with nobody asking for the auditor again a purge holds in every continuation if and only if no fetch of the auditor was in flight when it came |
| `AttributeCache.PurgeUndone` | `bidengine/provider_attributes.go:177-179` | an input: an auditor asked for, purged, and cached again by the fetch in flight |
| `AttributeCache.AnsweredAtMostOnce` | `bidengine/provider_attributes.go:215-239` | in every run, duplicate fetches included, each request received is answered once or waiting once, not both, and no other is answered |
| `AttributeCache.EveryAnswerExplained` | `bidengine/provider_attributes.go:215-239` | in every run each value sent is that of a result fetched for the request's own auditor: the one that came in then, or for a request answered at once the latest before it, not purged since and younger than the time to live; each error comes of a failed fetch of that auditor |
| `AttributeCache.AnsweredExactly` | `bidengine/provider_attributes.go:339-356` | in every run a request is answered at once if and only if that latest result is still cached and young enough; a result answers everyone waiting with just that result, a failure with the error |
| `AttributeCache.CachedIff` | `bidengine/provider_attributes.go:223-294` | in every run an auditor is cached if and only if a result for it came in, it was not purged since the latest, and that one outlived every trim since: not expired by then and not pruned |
| `AttributeCache.WaitsExactly` | `bidengine/provider_attributes.go:296-356` | in every run a request not answered at once waits with a fetch of its own started, the end of a fetch leaves nobody waiting, and nothing else changes either |
| `AttributeCache.WaitingIsFetched` | `bidengine/provider_attributes.go:296-312` | in every run a request that waits has a fetch of its auditor in flight, whose end answers it, with the result or with the failure, although the table of fetches in progress is never filled |
| `AttributeCache.Service.WaitersAreFetched` | `bidengine/provider_attributes.go:296-312` | whenever the loop is between two cases at least as many fetches of an auditor are in flight as requests wait for it |
| `AttributeCache.Service.HandleRequest` | `bidengine/provider_attributes.go:140-144` | a request takes the machine's step |
| `AttributeCache.Service.AddRequest` | `bidengine/provider_attributes.go:339-356` | answers from the cache exactly if its entry is young enough, and queues the request otherwise |
| `AttributeCache.Service.MaybeStart` | `bidengine/provider_attributes.go:296-312` | starts a fetch if requests wait and none is marked in progress |
| `AttributeCache.Service.CompleteAllPending` | `bidengine/provider_attributes.go:223-239` | a result is cached, answers everyone waiting with just that result, and the cache is trimmed by some prune the map's order allows |
| `AttributeCache.Service.FailAllPending` | `bidengine/provider_attributes.go:215-221` | a failure answers everyone waiting |
| `AttributeCache.Service.TrimCache` | `bidengine/provider_attributes.go:249-294` | leaves the unexpired entries, less a prune's worth if they are too many: at least 25000 attributes or everything, and not one entry more than it takes |
| `AttributeCache.ProviderAttrSize` | `bidengine/provider_attributes.go:241-247` | the attributes of a result, counted in a loop |

## Left out

- Kubernetes calls, object builders, chain queries and transactions themselves: their results are arguments.
- The computation of a funds check (`balance_checker.go:158-287`), of a price, of the decision to bid
  (`bidengine/order.go:530`) and of a reclamation attempt (`cluster/manager.go:696`): their outcomes are arguments.
- Go's memory model and the channels' own mechanics: a loop's case is one atomic step, a result channel is a flag or a
  sequence, and receiving from a one-shot result channel happens once.  In `bidengine/order.go` the channel of the
  existing bid's lookup is not reset after the result, which relies on that.
- Clocks and random jitter: times are integers given with the events.
- BalanceLoop.EveryMonitorChecked: stated for runs before the context ends, since a check may be dropped after that.
- BalanceHistory.ScheduledStays: stated for continuations in which no check is dropped, which only happens after the
  context ended.
- BalanceLoop.TransactionsBounded: the emptiness of the queues is stated for runs before the context ends, since
  withdrawals not yet sent are dropped after that.
- Manifest manager's linger timer (`manifest/manager.go:384-400`): it only ends the loop, which the model allows at any
  time.  The deployment data published with a manifest and the manifest's own validation are not modelled beyond their
  outcome.
- Deployment manager's wait for running jobs after a shutdown request and its release of hostnames at the end.
- Order catch-up's bound on the page queue: the model's queue is unbounded, which allows more interleavings.
- `Hostnames.Lower`: maps ASCII letters only, where the source's `strings.ToLower` maps all of Unicode.
- Contexts and shutdown around the hostname service's requests: a request cancelled by its caller is one not made, or
  one whose answer nobody reads.
- Reservations are values in a sequence in `Inventory.dfy`; that the source shares the objects with callers, who only
  read them, is not captured.  The inventory's `Adjust` is an oracle that accepts or refuses.
- The commit levels that scale a request's resources (`cluster/inventory.go:290-339`): they change neither its name nor
  its endpoints.
- Pods.AllocatedIsSum: assumes that the last listing names no scheduled pod twice, as the cluster's API promises;
  `Pods.AllocatedIsSumIff` has no such assumption.
- Pod accounting for interconnect devices and for volumes attached: the interconnect counter is not recomputed when
  its resource pattern changes.
- A failed restart of the pod watch, which ends the monitor.
- Reconcile.ReleaseOnlyLastOfGroup: speaks of this provider's leases; those of other providers that share the cluster do
  not count towards a group, in the source as in the model.
- Reconciliation's retry schedule.
- The attribute service's own attributes (`bidengine/provider_attributes.go:408-455`) and its shutdown.
- `operator/ip`, Ceph and Rancher volumes, the gateways, certificates, metrics, status reports and command line: they
  would only add easy members, or need facts about callers the code does not enforce.
