# A verified model of the GitHub runner manager

The charm keeps a fleet of self-hosted GitHub runners, each on its own OpenStack VM, close to a
target that a planner sends as "pressure". This project models how it does that and proves what it
promises. Everything is checked by `dafny verify dfyconfig.toml`; nothing here runs.

## What is modelled

**The reconciliation protocol** (`Runners`, `ScaleDown`, `Machine`, `Safety`, `Bounds`,
`Accounting`, `RunningMax`, `ScaleDownRuns`, `Selections`, `Sweeps`, `Snapshots`, `Convergence`,
`Stability`, `Tidiness`). Three actors share one lock: the create loop, the timer loop and the HTTP
flush handler. They act on two stores that can disagree, the VMs in the cloud and the runner
registrations at GitHub. `Machine` is a state machine in which each API call inside a locked section
is an event of its own, so the environment (jobs starting and ending, runners going offline, VMs
failing or vanishing, time passing) and the unlocked reads and writes of the reconciler can fall
between any two calls, and parallel workers finish in any order. An event that is not possible
leaves the state unchanged, so every event sequence is a run and the theorems quantify over all of
them.

**The code on top of it** (`Fleets`, `RunnerManagers`, `PressureReconcilers`). `Fleet` offers one
method per API call, with arbitrary interference before it and any failure in it. `RunnerManager`
and `PressureReconciler` are classes with the fields, loops and call order of the source. A ghost
log of events ties every execution to a run of `Machine`: `Valid()` says that the present stores and
fields are the state that this run reaches, so the theorems hold of the code. A `Fleet` built with
`faultFree` has no failures and no interference; on it the timer's reconcile is proved to reach its
target.

**Keys** (`Keys`), **duplicate servers** (`Servers`), **identifiers** (`Identifiers`), **the
pressure target** (`PressureTarget`) and **retry** (`Retry`): the parts the protocol rests on.

**The port allocator** (`Ports`, `PortSafety`, `PortStability`, `PortAllocators`). Unit processes on
one host persist an HTTP port each, with an unlocked first read, a lock around scan and write, and
an unlocked cleanup; again a state machine with theorems over all runs and a class with the code.

## Assumptions

- GitHub refuses to delete a busy runner (the client maps status 422 to its own error) and accepts
  deleting an absent one. A deleted runner takes no job.
- GitHub IDs are positive and fresh; a registration under a name that is in use is refused; a failed
  registration leaves none. Any failed launch may leave its server: the deletion that follows a
  timeout may fail too, and no other error is followed by one.
- A process starts over linked stores: each VM with a runner ID carries the one issued for its own
  name, each registration is under the name it was issued for, and no ID was issued twice. The
  manager keeps this (`Safety.LinkHolds`); that it finds it is assumed.
- An accepted server deletion counts as removal, because the code does not wait for it.
- An exception that escapes a loop ends the process, as the thread manager does; one in the HTTP
  handler is answered with status 500.
- The server list omits an existing server only while its key file is at most 60 seconds old, which
  is what the minimum key age is for.
- Juju application names have a letter in every dash-separated part. Without that rule ownership is
  ambiguous, which `Identifiers.NumericSegmentBreaksOwnership` shows.
- One call per unit is in flight in the port allocator, and a unit is not cleaned up during one.

## Results that differ from what the code says of itself

- Ports are unique except in two cases, and exactly in those two an allocation breaks uniqueness
  (`PortSafety.AllocationIsUniqueIff`, over runs `PortSafety.PortsAreUniqueIff`): an exhausted scan
  falls back to a base port that another unit holds, or the unit overlooks another's port because it
  could not read the file and the scan comes to that port first. Both happen
  (`PortSafety.ExhaustedScanBreaksUniqueness`, `PortSafety.UnreadableFileBreaksUniqueness`).
- The maximum delay of a retry does not bound the first sleep. The sleeps are within the maximum
  exactly if the first delay is (`Retry.DelaysAreCappedIff`, and on the call itself
  `Retry.CallWithRetry`); with a delay of 10 and a maximum of 5 the one sleep of two tries is 10
  (`Retry.SleepsBeyondTheMaximum`).
- Key expiry reads the clock after it has listed the servers, so the minimum age protects a server
  that the list omits only if its key file is still young enough then: exactly if its age at the
  listing and the time elapsed come to at most 60 seconds (`Keys.KeyStore.DeleteExpiredKeys`,
  `Keys.SlowPassLosesAKey`).
- The fold over servers of one name keeps the one created first, although its documentation says the
  latest: the latest is kept exactly if all are of one age (`Servers.LatestIsKeptIffAllAreSameAge`,
  `Servers.LaterServerIsDeleted`).
- The in-memory count does not cover a server that a failed launch leaves behind. The account is
  exact: with the lock free, live VMs are the count, plus such servers since the last recount, less
  the VMs lost since its listing, which vanished or which a cleanup or flush deleted; so the count
  covers the live VMs exactly if no more were left than lost (`Accounting.CountIsExact`). After one
  such launch the count is 0 and a VM is live (`Bounds.StraysAreUncounted`).
- For the same reason live VMs can exceed the larger of the cap and the VMs at the initial sync:
  with a cap of two over an empty start, one such launch leads to three live VMs
  (`Accounting.StrayBreaksTheCap`). They exceed it by at most the servers left
  (`Bounds.LiveVmsAreCapped`), so without one they never do (`Accounting.CapHoldsWithoutStrays`).
- A VM that runs a job is spared by cleanup, scale-down and idle flush exactly if it is not a legacy
  VM without runner ID (`Safety.NoJobLost`, `Safety.JobIsAtRiskIff`); on a legacy VM the job is lost
  (`Tidiness.LegacyVmLosesItsJob`).
- A cleanup leaves an idle runner without a VM exactly if the runner bore the name of a legacy VM
  without runner ID (`Tidiness.CleanupLeavesDanglingIff`), which happens
  (`Tidiness.LegacyVmLeavesItsRunner`).
- A unit's port can change before it is cleaned up. From the call that returns a port on, the unit
  keeps it exactly if it is not cleaned up, tears no write and comes to no selection elsewhere
  (`PortStability.ReturnedPortIsStable`). A unit that cannot read its own port file allocates again,
  and that call returns the old port exactly if its selection comes back to it: the port is then the
  lowest that the unit takes for free, or the base port of an exhausted scan
  (`PortStability.ReallocationReturnsIff`). If it can read the file under the lock its own port
  counts as taken and it moves on, unless the scan falls back to it; otherwise it may get the port
  back (`PortStability.UnreadableOwnFileChangesThePort`,
  `PortStability.UnreadableOwnFileMayKeepThePort`).
- Printing an identifier and parsing it again gives it back exactly if it has a legacy infix, or
  none and a suffix that does not start with one (`Identifiers.PrintThenParse`).
- A launch can cost a live server its keys in two cases, and exactly in those two
  (`Keys.KeyStore.LaunchInstance`): its name is that of a live server, whose key file is removed
  before the cloud refuses the name (`Keys.RelaunchLosesAKey`), or its creation fails, leaves its
  server all the same, and the keys made for it are deleted (`Keys.FailedLaunchLosesKeys`).

## Model

| member | source | states |
|---|---|---|
| Safety.NoJobLost | github-runner-manager/src/github_runner_manager/manager/runner_manager.py:346-493 | in every run without a request to flush busy runners, a VM that the manager destroys runs no job at that moment, unless it is a legacy VM without runner ID; whatever happens between snapshot, runner deletion and VM deletion |
| Safety.JobIsAtRiskIff | github-runner-manager/src/github_runner_manager/manager/runner_manager.py:756-775 | in every run without such a request, a VM that is executing a job when a section goes on to delete VMs is among its targets exactly if it is a legacy one |
| Safety.NoJobLostWithoutLegacyVms | github-runner-manager/src/github_runner_manager/manager/runner_manager.py:346-493 | from a linked start in which every VM has a runner ID, no job is ever lost without such a request |
| Safety.FlushBusyTargetsEverything | github-runner-manager/src/github_runner_manager/manager/runner_manager.py:432-455 | a flush of busy runners goes on to delete every VM of its snapshot, refused runner deletions or not |
| Safety.LinkHolds | github-runner-manager/src/github_runner_manager/manager/runner_manager.py:600-634 | in every state of every run each VM carries the ID issued for its own name, IDs are pairwise distinct, and a registration taken for dangling never belongs to a VM |
| Safety.RunsAreSafe | github-runner-manager/src/github_runner_manager/manager/runner_manager.py:346-493 | the inductive invariant behind these: what is marked deleted is not registered, what is left to destroy is released, what is being created has no VM yet |
| Safety.StepKeepsSafe | github-runner-manager/src/github_runner_manager/manager/runner_manager.py:346-493 | each single step of any actor or of the environment keeps that invariant |
| Safety.RunsKeepIds | github-runner-manager/src/github_runner_manager/manager/runner_manager.py:616-618 | the manager creates no VM without a runner ID |
| Safety.OnlyDeleteServerRemoves | github-runner-manager/src/github_runner_manager/openstack_cloud/openstack_cloud.py:354-400 | only the deletion of a server in the VM phase of a section takes a VM away |
| Bounds.CountOverApproximates | github-runner-manager/src/github_runner_manager/manager/pressure_reconciler.py:139-258 | whenever the lock is free after the initial sync, live VMs number at most the in-memory count and the servers that failed launches have left since the last recount, in every run |
| Bounds.StraysAreUncounted | github-runner-manager/src/github_runner_manager/openstack_cloud/openstack_cloud.py:305-331 | that bound is met: after one failed launch whose server is not deleted, the count is 0 and that server is live |
| Bounds.LiveVmsAreCapped | github-runner-manager/src/github_runner_manager/manager/pressure_reconciler.py:383-404 | with a cap set, live VMs never exceed the larger of the cap and the VMs at the initial sync by more than the servers that failed launches have left since, in every later state of every run |
| Bounds.RunsKeepCounts | github-runner-manager/src/github_runner_manager/manager/pressure_reconciler.py:270-320 | the section by section invariant behind both: resync, creation by workers and scale-down each account for every VM |
| Bounds.BackOffBudget | github-runner-manager/src/github_runner_manager/manager/pressure_reconciler.py:216-258 | create calls that return no ID outnumber the timer resyncs by at most one, and only while the create loop is paused; no creation runs while it is paused |
| Bounds.PauseSteps | github-runner-manager/src/github_runner_manager/manager/pressure_reconciler.py:255-258 | the pause changes only by a fruitless creation, which sets it, and by a resync; no creation starts under it |
| Accounting.CountIsExact | github-runner-manager/src/github_runner_manager/manager/pressure_reconciler.py:139-326 | in every run from linked stores, whenever the lock is free after the initial sync, live VMs are the count plus the servers left by failed launches since the last recount less the VMs lost since its listing, by vanishing or to a cleanup or flush; so the count covers them exactly if no more were left than lost, and they stay within any bound exactly if that sum does |
| Accounting.RunsKeepAccount | github-runner-manager/src/github_runner_manager/manager/pressure_reconciler.py:270-320 | the account behind it in every section: a tally, a creation by workers and a scale-down each balance to the VM, whatever vanishes meanwhile |
| Accounting.StrayBreaksTheCap | github-runner-manager/src/github_runner_manager/manager/pressure_reconciler.py:207-258 | a concrete run with a cap of two from an empty start ends with three live VMs, because the server left by a failed launch is replaced |
| Accounting.CapHoldsWithoutStrays | github-runner-manager/src/github_runner_manager/manager/pressure_reconciler.py:383-404 | in every run in which no failed launch leaves a server, live VMs never exceed the larger of the cap and the VMs at the initial sync |
| RunningMax.CreateLoopComputesMax | github-runner-manager/src/github_runner_manager/manager/pressure_reconciler.py:207-258 | between timer reconciles and with successful creations, the count after any sequence of pressure events is the largest of its start and the desired totals seen |
| RunningMax.CountAtMostLargest | github-runner-manager/src/github_runner_manager/manager/pressure_reconciler.py:207-258 | with any failures it is never more than that |
| RunningMax.LargestIsAttained | github-runner-manager/src/github_runner_manager/manager/pressure_reconciler.py:207-258 | that largest value is a bound of the start and of every desired total taken up, and is one of them |
| Convergence.TimerReconcileConverges | github-runner-manager/src/github_runner_manager/manager/pressure_reconciler.py:260-326 | a fault-free timer section in a quiet environment ends with max(desired, busy runners) VMs, the count equal to that, and nothing for cleanup to do, in whatever order its workers finish |
| Stability.SecondReconcileChangesNothing | github-runner-manager/src/github_runner_manager/manager/pressure_reconciler.py:260-326 | reconciling a converged fleet again at the same clock and target creates and deletes nothing at any point |
| Tidiness.CleanupLeavesDanglingIff | github-runner-manager/src/github_runner_manager/manager/runner_manager.py:461-493 | after the cleanup of a quiet section, from any linked start, the idle runners without a VM are exactly those that bore the name of a legacy VM; so there are none exactly if no idle runner did |
| Tidiness.LegacyVmLeavesItsRunner | github-runner-manager/src/github_runner_manager/manager/runner_manager.py:461-493 | a concrete cleanup deletes a legacy VM and leaves the idle runner of its name registered |
| Tidiness.LegacyVmLosesItsJob | github-runner-manager/src/github_runner_manager/manager/runner_manager.py:461-493 | a concrete cleanup destroys a legacy VM on which a job is executing: the exception of `Safety.NoJobLost` is needed |
| Snapshots.CleanupOfSnapshot | github-runner-manager/src/github_runner_manager/manager/runner_manager.py:637-702 | cleanup picks the stored ID of exactly the VMs that are not wanted and the listed ID of exactly the registrations without VM |
| Snapshots.CleanupSparesBusy | github-runner-manager/src/github_runner_manager/manager/runner_manager.py:637-702 | if busy runners sit on VMs that are not in error, cleanup never picks the runner of a job |
| Snapshots.SoftDeleteOfClean | github-runner-manager/src/github_runner_manager/manager/runner_manager.py:364-379 | in a clean fleet a soft deletion picks exactly min(num, idle runners) runners of VMs, none busy |
| ScaleDown.ScaleDownFloor | github-runner-manager/src/github_runner_manager/manager/runner_manager.py:364-398 | the runner IDs a soft deletion of at most current - desired asks for spare at least min(healthy, desired - VMs without ID) of the healthy VMs, whatever the cleanup set holds |
| ScaleDown.SoftSelectionIsExact | github-runner-manager/src/github_runner_manager/manager/runner_manager.py:364-379 | whatever the snapshot and the cleanup set, a soft deletion takes the cleanup set and exactly min(max(num - cleanup, 0), available) more runners, all of VMs that cleanup does not take and whose runner is not listed as busy |
| ScaleDown.FirstAvailableAreTaken | github-runner-manager/src/github_runner_manager/manager/runner_manager.py:743-753 | those are the first ones of the server list |
| ScaleDownRuns.SoftSectionFloor | github-runner-manager/src/github_runner_manager/manager/runner_manager.py:364-404 | over every run: the VMs that a soft section spares number at least that floor, less what vanished between count and snapshot, and at no step of the section does the manager destroy one of them |
| ScaleDownRuns.RunsKeepDistinct | github-runner-manager/src/github_runner_manager/openstack_cloud/openstack_cloud.py:522-542 | the snapshot of a section names each VM and each runner ID once, in every run |
| Selections.SelectionIsExact | github-runner-manager/src/github_runner_manager/manager/runner_manager.py:346-493 | in every run, whatever happens between server list and runner list, a section asks for the registrations whose name no listed VM bears and for the runners of exactly these listed VMs: those unregistered, in error, or offline, idle and over 1380 seconds old; in an idle flush also the online idle ones, in a busy flush all; a scale-down by num takes in addition exactly min(max(num - those - such registrations, 0), spare) spare VMs, which run no job |
| Selections.FirstSpareAreTaken | github-runner-manager/src/github_runner_manager/manager/runner_manager.py:734-753 | of the spare VMs a scale-down takes the first ones of the server list |
| Sweeps.QuietSectionSweeps | github-runner-manager/src/github_runner_manager/manager/runner_manager.py:346-493 | a section in which nothing fails, from any linked stores and in any order of its workers, destroys exactly its targets: every legacy VM, every doubtful VM that runs no job, and beyond that nothing (cleanup), the online idle ones (idle flush), everything (busy flush) or as many spare ones as are missing (scale-down); exactly the busy runners stay, and the idle ones whose VM stays or is a legacy one |
| Sweeps.CleanupLeaves | github-runner-manager/src/github_runner_manager/manager/runner_manager.py:461-493 | cleanup leaves exactly the VMs with a runner ID that run a job or that it has no reason to take |
| Sweeps.IdleFlushLeaves | github-runner-manager/src/github_runner_manager/manager/runner_manager.py:406-459 | an idle flush leaves exactly the VMs that run a job and those not in error, at most 1380 seconds old, whose runner is registered but offline |
| Sweeps.BusyFlushLeavesNone | github-runner-manager/src/github_runner_manager/manager/runner_manager.py:406-459 | a busy flush leaves no VM |
| Sweeps.ScaleDownDestroys | github-runner-manager/src/github_runner_manager/manager/runner_manager.py:346-404 | a scale-down by num destroys as many VMs as are legacy, doubtful without a job, and then still missing from num among the spare ones |
| ScaleDown.CleanupTakesUnwanted | github-runner-manager/src/github_runner_manager/manager/runner_manager.py:656-702 | cleanup takes the stored ID of a VM exactly when no listed runner bears its name, it is in error, or its listed runner is offline and idle and it is more than 1380 seconds old |
| ScaleDown.OfflineIdleTimesOut | github-runner-manager/src/github_runner_manager/manager/runner_manager.py:687-700 | a VM not in error whose listed runner is offline and idle is taken exactly once it is over 1380 seconds old |
| ScaleDown.CleanupTakesDangling | github-runner-manager/src/github_runner_manager/manager/runner_manager.py:656-660 | beyond those it takes the listed ID of exactly the runners whose name no VM of the snapshot bears |
| ScaleDown.SnapshotSplits | github-runner-manager/src/github_runner_manager/manager/runner_manager.py:756-775 | for any set of runner IDs the VMs of a snapshot split into those whose runner it holds, those it spares and those without an ID |
| ScaleDown.FlushTakes | github-runner-manager/src/github_runner_manager/manager/runner_manager.py:705-731 | a flush takes the runner of a VM exactly when it is online and idle or busy ones are to be flushed as well, and no other runner |
| Runners.ScaleDownSelection | github-runner-manager/src/github_runner_manager/manager/runner_manager.py:734-753 | the soft selection has exactly min(num, candidates) distinct IDs, none busy; no runner is picked before one that goes before it, deletable before idle before busy |
| Runners.SortedIsOrdered | github-runner-manager/src/github_runner_manager/manager/runner_manager.py:744-748 | the candidates are considered in the order deletable, idle, busy |
| Runners.SortedIsStable | github-runner-manager/src/github_runner_manager/manager/runner_manager.py:743-745 | runners of one priority keep their order |
| Runners.HealthIsExact | github-runner-manager/src/github_runner_manager/platform/github_provider.py:119-165 | one entry per VM in order, deletable exactly when no listed runner bears the VM's ID and otherwise reporting such a runner; the non-requested list is exactly the rest |
| Runners.GetRunnersHealth | github-runner-manager/src/github_runner_manager/platform/github_provider.py:128-165 | the loop builds that report |
| Runners.ListingIsExact | github-runner-manager/src/github_runner_manager/github_client.py:278-307 | the listing holds exactly the remote runners whose name has the prefix, under the identifier parsed from it |
| Runners.ListRunners | github-runner-manager/src/github_runner_manager/github_client.py:295-307 | the loop builds that listing |
| Fleets.Fleet.ListServers | github-runner-manager/src/github_runner_manager/openstack_cloud/openstack_runner_manager.py:123-130 | the list holds every VM there is once, or the call fails and nothing advances |
| Fleets.Fleet.ListRunners | github-runner-manager/src/github_runner_manager/github_client.py:278-307 | the listing holds every registration there is once, and the clock is read no earlier; the runners then chosen are those of the section |
| Fleets.Fleet.CountServers | github-runner-manager/src/github_runner_manager/manager/runner_manager.py:259-278 | the number of VMs at the moment they were listed, at least as many as there are when the call returns |
| Fleets.Fleet.DeleteRunner | github-runner-manager/src/github_runner_manager/github_client.py:380-402 | a refused runner is registered and busy; an accepted one is not registered any more; any other error leaves the request undone |
| Fleets.Fleet.DeleteServer | github-runner-manager/src/github_runner_manager/openstack_cloud/openstack_cloud.py:354-400 | a VM reported deleted was there and is gone, one reported absent is not there; a failure is logged or raised |
| Fleets.Fleet.Register | github-runner-manager/src/github_runner_manager/github_client.py:311-354 | a name used before or by a VM is refused; otherwise GitHub registers it, idle and offline, under an ID never used before |
| Fleets.Fleet.Launch | github-runner-manager/src/github_runner_manager/openstack_cloud/openstack_runner_manager.py:86-121 | a launched VM is there and carries the ID issued for its name; after a failed launch a server is there exactly if one was left |
| Fleets.Fleet.Undo | github-runner-manager/src/github_runner_manager/manager/runner_manager.py:629-633 | if the call is made, the registration is gone unless GitHub refused because the runner is busy; a failed call is logged as such |
| RunnerManagers.RunnerManager.CreateRunners | github-runner-manager/src/github_runner_manager/manager/runner_manager.py:170-257 | in every interleaving and completion order of workers the returned list holds each launched VM's ID once and nothing else, all of this unit; without failures it holds as many as asked for |
| RunnerManagers.RunnerManager.StartWorker | github-runner-manager/src/github_runner_manager/manager/runner_manager.py:611-622 | a started worker contributes nothing or one pending name, built from its token within the length limit, that GitHub has an ID and a registration for |
| RunnerManagers.RunnerManager.LaunchWorker | github-runner-manager/src/github_runner_manager/manager/runner_manager.py:624-634 | the pending VM is launched, there and reported once, or left to undo |
| RunnerManagers.RunnerManager.DeleteRunners | github-runner-manager/src/github_runner_manager/platform/github_provider.py:167-206 | GitHub is asked for every runner, errors or not; without an uncaught error the returned list holds each deleted one once, in any completion order, and busy refusals are skipped |
| RunnerManagers.RunnerManager.DeleteVms | github-runner-manager/src/github_runner_manager/openstack_cloud/openstack_cloud.py:402-449 | likewise for VMs: the deletion of each is asked for, failed and absent ones are excluded |
| RunnerManagers.RunnerManager.Snapshot | github-runner-manager/src/github_runner_manager/manager/runner_manager.py:469-472 | every deletion section starts from one VM list and one health report of it |
| RunnerManagers.RunnerManager.DeleteVmsOf | github-runner-manager/src/github_runner_manager/manager/runner_manager.py:382-401 | the VMs then deleted are those of the given runners and those without an ID; the runners may be the chosen ones only when flushing busy ones, else the deleted ones |
| RunnerManagers.RunnerManager.Cleanup | github-runner-manager/src/github_runner_manager/manager/runner_manager.py:461-493 | the section of cleanup, with key expiry between listing and deleting; without failures its effect on the stores is exactly that of `Sweeps.QuietSectionSweeps` |
| RunnerManagers.RunnerManager.SoftDeleteRunners | github-runner-manager/src/github_runner_manager/manager/runner_manager.py:333-404 | the section of a soft scale-down, likewise; its result is the number of VMs really deleted |
| RunnerManagers.RunnerManager.FlushRunners | github-runner-manager/src/github_runner_manager/manager/runner_manager.py:406-459 | the section of a flush in either mode, likewise |
| RunnerManagers.ListsOnceCounts | github-runner-manager/src/github_runner_manager/manager/runner_manager.py:243-257 | a list that holds each element of a set once has its size, in whatever order it was filled |
| PressureReconcilers.PressureReconciler.SyncCount | github-runner-manager/src/github_runner_manager/manager/pressure_reconciler.py:141-142 | the initial sync makes the count the number of VMs at the moment they were listed |
| PressureReconcilers.PressureReconciler.SeePressure | github-runner-manager/src/github_runner_manager/manager/pressure_reconciler.py:213 | the pressure is remembered outside the lock and nothing else changes |
| PressureReconcilers.PressureReconciler.CreateUpTo | github-runner-manager/src/github_runner_manager/manager/pressure_reconciler.py:214-258 | paused or satisfied it changes nothing; else the count grows by what was created, never past the desired total, and growing by nothing pauses; without failures it becomes the larger of itself and the pressure clamped to the limits |
| PressureReconcilers.PressureReconciler.HandleCreateRunners | github-runner-manager/src/github_runner_manager/manager/pressure_reconciler.py:198-258 | the pressure is remembered and the count never falls nor passes the larger of itself and the desired total |
| PressureReconcilers.PressureReconciler.CreateLoop | github-runner-manager/src/github_runner_manager/manager/pressure_reconciler.py:139-181 | over any stream of readings and interruptions the desired total stays that of the last reading; without a planner it is the floor |
| PressureReconcilers.PressureReconciler.WakeTimer | github-runner-manager/src/github_runner_manager/manager/pressure_reconciler.py:187-192 | the timer takes up the pressure as remembered at that moment, if any |
| PressureReconcilers.PressureReconciler.HandleTimerReconcile | github-runner-manager/src/github_runner_manager/manager/pressure_reconciler.py:260-326 | on a fleet without failures the call succeeds, ends with that many VMs and that count: the larger of the busy runners and the pressure clamped to the limits; and changes nothing if that was so before; in general a pause after it means the count is below target |
| PressureReconcilers.PressureReconciler.CleanUpAndCount | github-runner-manager/src/github_runner_manager/manager/pressure_reconciler.py:276-278 | cleanup, then the number of VMs at the moment they were listed; without failures exactly the VMs that cleanup leaves |
| PressureReconcilers.PressureReconciler.ScaleTo | github-runner-manager/src/github_runner_manager/manager/pressure_reconciler.py:278-326 | the resync lifts the pause; scaling up ends between current and desired, scaling down at most at current |
| PressureReconcilers.PressureReconciler.ScaleUp | github-runner-manager/src/github_runner_manager/manager/pressure_reconciler.py:242-258 | the creation of both loops: the count grows by what was created, by all of it without failures, and nothing created pauses the create loop |
| PressureReconcilers.PressureReconciler.ScaleDown | github-runner-manager/src/github_runner_manager/manager/pressure_reconciler.py:311-320 | the count falls by what was really deleted; without failures that is the exact effect of a scale-down |
| PressureReconcilers.PressureReconciler.FlushRunner | github-runner-manager/src/github_runner_manager/http_server.py:60-87 | "True" and "true" flush busy runners and anything else idle ones; failure answers 500 and never ends the process or touches the count; without failures a busy flush leaves no VM, an idle one exactly those of `Sweeps.IdleFlushLeaves` |
| PressureReconcilers.PressureReconciler.Serve | github-runner-manager/src/github_runner_manager/manager/pressure_reconciler.py:139-326 | with the actors taking turns in any order, whenever the lock is free live VMs are exactly the count plus the servers left by failed launches less the VMs lost since the last recount |
| PressureReconcilers.CountIsTrusted | github-runner-manager/src/github_runner_manager/manager/pressure_reconciler.py:207-231 | between sections that account holds of the count field, which is not negative |
| PressureReconcilers.NoJobWasLost | github-runner-manager/src/github_runner_manager/manager/runner_manager.py:346-493 | no VM that these methods destroyed was executing a job, unless a flush of busy runners came first |
| PressureReconcilers.CalmSectionConverges | github-runner-manager/src/github_runner_manager/manager/pressure_reconciler.py:260-326 | the log of a section without failures ends in convergence, or changed nothing if the fleet had converged |
| PressureTarget.CharmConfigsAreAccepted | src/charm_state.py:731-749 | the charm accepts exactly the consistent machine counts, with the limits they say, and nothing the application rejects |
| PressureTarget.FloorHonouredIffAccepted | github-runner-manager/src/github_runner_manager/configuration/base.py:236-259 | the floor is honoured at every pressure exactly by accepted configurations |
| PressureTarget.TargetIsCappedAndMonotone | github-runner-manager/src/github_runner_manager/manager/pressure_reconciler.py:383-404 | the desired total is never negative, never above a cap that is set, at least the pressure without one, and monotone in it |
| PressureTarget.TargetInNumbers | github-runner-manager/src/github_runner_manager/manager/pressure_reconciler.py:383-404 | for every configuration the desired total is exactly the pressure if that lies between floor and cap, else the nearer of them, a cap below the floor winning |
| PressureTarget.InterruptionsKeepTheTarget | github-runner-manager/src/github_runner_manager/manager/pressure_reconciler.py:159-181 | however often the stream breaks, the desired total stays that of the last pressure received; the pressure remembered is that one or, after an interruption, the larger of it and the floor |
| Keys.KeyStore.LaunchInstance | github-runner-manager/src/github_runner_manager/openstack_cloud/openstack_cloud.py:288-333 | whatever fails, every server of the prefix still has key file and keypair exactly unless the name was that of a live server or the failed creation left its server and the keys made for it were deleted; a server is there afterwards exactly if the launch succeeded or left one |
| Keys.RelaunchLosesAKey | github-runner-manager/src/github_runner_manager/openstack_cloud/openstack_cloud.py:288-333 | of two launches under one name the second fails and takes away the key file of the first |
| Keys.FailedLaunchLosesKeys | github-runner-manager/src/github_runner_manager/openstack_cloud/openstack_cloud.py:324-331 | a creation that fails but leaves its server loses the keys of that server |
| Keys.KeyStore.SetupKeypair | github-runner-manager/src/github_runner_manager/openstack_cloud/openstack_cloud.py:703-726 | a new keypair and key file exactly if nothing unremovable is in the way, the name has no keypair and both calls succeed; a failure leaves other names alone |
| Keys.KeyStore.DeleteKeypair | github-runner-manager/src/github_runner_manager/openstack_cloud/openstack_cloud.py:728-753 | the key file goes exactly when the cloud confirms the deletion of the keypair |
| Keys.KeyStore.DeleteInstance | github-runner-manager/src/github_runner_manager/openstack_cloud/openstack_cloud.py:354-400 | the server goes if its deletion took effect; its keys change only if that was accepted, and its key file goes if the cloud then confirms the deletion of the keypair; every other server keeps its keys |
| Keys.KeyStore.DeleteExpiredKeys | github-runner-manager/src/github_runner_manager/openstack_cloud/openstack_cloud.py:545-560 | whatever cannot be listed or deleted: a server of the prefix that had its keys keeps them exactly if it is listed or its key file has not outlived 60 seconds when the clock is read; a pass that no call ends leaves exactly the keys so spared, but for keypairs the cloud does not delete, and it is stated which answers end it |
| Keys.KeyStore.CleanupKeyFiles | github-runner-manager/src/github_runner_manager/openstack_cloud/openstack_cloud.py:574-596 | exactly the key files of the prefix that are not excluded go, unless one of them cannot be unlinked; then the pass ends and nothing but such files has gone |
| Keys.KeyStore.CleanupKeypairs | github-runner-manager/src/github_runner_manager/openstack_cloud/openstack_cloud.py:598-626 | exactly the keypairs of the prefix that are not excluded and that the cloud agrees to delete go, with their key files; the pass ends early exactly if the list or an unlink raises |
| Keys.ExpiryIsExact | github-runner-manager/src/github_runner_manager/openstack_cloud/openstack_cloud.py:545-560 | a key file of the prefix survives, and a keypair with or without a key file, exactly if the server is listed or the key file's age at the listing and the time elapsed since come to at most 60 seconds |
| Keys.ExpiryTakesOnlyKeys | github-runner-manager/src/github_runner_manager/openstack_cloud/openstack_cloud.py:574-626 | nothing goes but regular files named after the prefix that end in .key and keypairs of the prefix, none of a listed server |
| Keys.SlowPassLosesAKey | github-runner-manager/src/github_runner_manager/openstack_cloud/openstack_cloud.py:547-572 | a key 59 seconds old at the listing is lost if the clock is read two seconds later |
| Keys.ExpiryIsIdempotent | github-runner-manager/src/github_runner_manager/openstack_cloud/openstack_cloud.py:545-560 | at the same clock and server list a second pass has nothing to do |
| Keys.OtherUnitsKeysSurvive | github-runner-manager/src/github_runner_manager/openstack_cloud/openstack_cloud.py:577-580 | expiry of one unit leaves every key of another unit alone |
| Servers.SurvivorIsEarliest | github-runner-manager/src/github_runner_manager/openstack_cloud/openstack_cloud.py:669-677 | the fold keeps the server created first and, among several, the last one listed |
| Servers.LatestIsKeptIffAllAreSameAge | github-runner-manager/src/github_runner_manager/openstack_cloud/openstack_cloud.py:647-650 | the latest server is kept only if all are of one age |
| Servers.LaterServerIsDeleted | github-runner-manager/src/github_runner_manager/openstack_cloud/openstack_cloud.py:669-677 | of two servers of one name, in either order, the one created later is not kept |
| Servers.Cloud.EnsureUniqueServer | github-runner-manager/src/github_runner_manager/openstack_cloud/openstack_cloud.py:643-690 | one server of the name stays, none older than it goes, and the deletion of every other one is asked for, whether or not an earlier one failed |
| Servers.Cloud.GetInstances | github-runner-manager/src/github_runner_manager/openstack_cloud/openstack_cloud.py:522-542 | each name of the prefix gives exactly one instance, no two share an ID; a server goes only if one at least as old of its name stays, and of two servers of a name at least one is asked to go |
| Identifiers.ParseThenPrint | github-runner-manager/src/github_runner_manager/manager/models.py:47-79 | parsing succeeds exactly on names with the prefix, and printing the result gives the name back |
| Identifiers.PrintThenParse | github-runner-manager/src/github_runner_manager/manager/models.py:38-79 | printing then parsing gives an identifier back exactly if it has a legacy infix or its suffix does not start with one |
| Identifiers.ParsedParts | github-runner-manager/src/github_runner_manager/manager/models.py:47-79 | exactly `r-` and `n-` right after the dash are taken for a legacy infix |
| Identifiers.ParsingIsInjective | github-runner-manager/src/github_runner_manager/manager/models.py:47-79 | distinct names give distinct identifiers |
| Identifiers.GeneratedIdsRoundTrip | github-runner-manager/src/github_runner_manager/manager/models.py:81-112 | generation succeeds exactly for prefixes of at most 51 characters; what it generates is named prefix, dash and token, fits into 64 characters and survives the round trip |
| Identifiers.PrintingIsNotInjective | github-runner-manager/src/github_runner_manager/manager/models.py:38-45 | two identifiers can print as one name |
| Identifiers.OwnershipIsUnambiguous | github-runner-manager/src/github_runner_manager/manager/models.py:114-129 | no VM, key or runner name belongs to two units |
| Identifiers.OwnershipClashesIff | github-runner-manager/src/github_runner_manager/manager/models.py:114-129 | whatever the units are called, some name belongs to two prefixes exactly if one of them with its dash begins the other |
| Identifiers.NormalizationIsInjective | src/manager_service.py:173-182 | two units never share a normalised name |
| Identifiers.NumericSegmentBreaksOwnership | src/factories.py:136 | without the letter rule for application names ownership is ambiguous |
| Retry.CallWithRetry | github-runner-manager/src/github_runner_manager/utilities.py:60-100 | at most `tries` calls; the first success is returned, the last error raised again, unless a negative sleep is rejected before; the trailing error is reached exactly if `tries` is not positive; the sleeps are within the maximum exactly if there are none or the first delay is |
| Retry.DelayClosedForm | github-runner-manager/src/github_runner_manager/utilities.py:73-98 | for every input that can be slept for, the k-th sleep is delay for k = 0 and later the lesser of delay * backoff^k and the maximum, which a backoff below 1 shrinks in turn |
| Retry.DelaysAreCappedIff | github-runner-manager/src/github_runner_manager/utilities.py:39-98 | every delay is within the maximum exactly if the first is, for every backoff |
| Retry.SleepableIff | github-runner-manager/src/github_runner_manager/utilities.py:91-98 | no sleep is ever negative exactly if delay and maximum are not, nor backoff unless the delay is 0; else the first or second one is |
| Retry.SleepsBeyondTheMaximum | github-runner-manager/src/github_runner_manager/utilities.py:73-98 | two tries with delay 10 and maximum 5 sleep for 10 |
| Ports.SelectHttpPort | src/manager_service.py:89-108 | the lowest port of the span that is neither persisted nor unbindable, and the base port exactly when there is none |
| Ports.BaseOfUnit | src/manager_service.py:111-124 | unit number n starts its scan at 55555 + n, one whose index is no number at 55555 |
| Ports.HundredPortsDoNotExhaust | src/manager_service.py:97-108 | a hundred persisted ports cannot exhaust the span if only they are bound |
| PortSafety.AllocationIsUniqueIff | src/manager_service.py:97-108 | whatever the unit could read, an allocation keeps ports unique exactly if it neither falls back to a taken base port nor overlooks another unit's port that its scan comes to first |
| PortSafety.SelectionClashesIff | src/manager_service.py:97-108 | the selected port is another unit's exactly in those two cases |
| PortSafety.PortsAreUniqueIff | src/manager_service.py:49-86 | in a run, no two units hold the same port at any point, nor would if the write in progress went through, exactly if no selection is one of those two cases |
| PortSafety.SecureIff | src/manager_service.py:75-86 | the invariant of that theorem says just this: ports are unique and stay so if the write in progress goes through |
| PortSafety.ReadablePortsAreUnique | src/manager_service.py:49-86 | with readable port files and no fallback to a taken base port, ports are unique in every run |
| PortSafety.HundredOthersNeverClash | src/manager_service.py:65-108 | with at most a hundred other units on an otherwise idle host no two units ever clash |
| PortSafety.UnreadableFileBreaksUniqueness | src/manager_service.py:162-166 | one port file that cannot be read is enough for two units to get one port, by overlooking and not by fallback |
| PortSafety.ExhaustedScanBreaksUniqueness | src/manager_service.py:97-108 | a span that cannot be bound is enough as well: all 101 ports taken, the base port by another unit, by fallback and not by overlooking |
| PortStability.ReturnedPortIsStable | src/manager_service.py:65-86 | from the call that returns a port on, a unit has that port at every point exactly if it is not cleaned up, tears no write and comes to no selection elsewhere; until then every call returns the same port |
| PortStability.PortIsKeptIff | src/manager_service.py:65-86 | the same from any point at which a unit has a port, in every run |
| PortStability.SelectionIsIff | src/manager_service.py:97-108 | a selection gives a port exactly if it is the lowest one the unit takes for free, or the base port and the scan is exhausted |
| PortStability.ReallocationReturnsIff | src/manager_service.py:68-86 | among any steps of other units, the call of a unit that has a port but could not read it at first returns that port exactly if its selection comes back to it |
| PortStability.UnreadableOwnFileChangesThePort | src/manager_service.py:68-86 | a unit that cannot read its own file at first but can under the lock moves to the next port |
| PortStability.UnreadableOwnFileMayKeepThePort | src/manager_service.py:68-86 | one that cannot read it under the lock either can get its port back |
| PortAllocators.PortDirectory.EnsureHttpPort | src/manager_service.py:49-86 | among any steps of other units the port returned is the one persisted, and the unit holds no lock however the call ends, an error in the scan included; without faults it returns the port of the file or the lowest of the 101 from its base on that is neither persisted nor unbindable, so unit number n gets 55555 + n if it can |
| PortAllocators.PortDirectory.GetPersistedPorts | src/manager_service.py:146-170 | every unit's file is read, malformed and unreadable ones skipped: each port persisted in the end is among the result unless reading its file failed, and without faults exactly those; if the listing raises, the lock is released |
| PortAllocators.PortDirectory.Choose | src/manager_service.py:89-108 | the lowest port of the span that is neither among those ports nor unbindable, or the base port if there is none |
| PortAllocators.PortDirectory.Write | src/manager_service.py:75-86 | the port is persisted before the lock is released; a failed write never leaves the lock |
| PortAllocators.PortDirectory.Cleanup | src/manager_service.py:413-431 | the unit's port file is gone, and without interference nothing else |
| PortAllocators.DirectoryIsUnique | src/manager_service.py:49-86 | whatever calls were made, ports are unique under the conditions above |

## Left out

- OpenStack, GitHub, SSH, systemd, Flask, sockets and the planner stream: each appears only as a
  nondeterministic outcome (accepted, refused, failed) under the assumptions above.
- Metrics, log files, cloud-init, SSH metric extraction: no influence on the protocol; the points
  where extracting or issuing metrics may raise are kept.
- Charm hooks, status messages, credentials and YAML parsing: plumbing.
- Hard deletion as a section of its own (`delete_runners` of the runner manager): neither loop nor
  handler calls it; its selection rule is covered by `Runners.ScaleDownSelection`.
- Aggregated runner information (`get_runner_info`): a count by state.
- Liveness under faults, waiting times and scheduling fairness: time is a number that only grows.
- Unlocked reads and writes in the middle of a locked section: `Machine` has them at every point;
  the methods of `PressureReconciler` interleave between sections, through `Serve`.
- Worker processes killed in the middle of a call when another worker's exception ends the pool: the
  process ends with that exception, and the model stops following the manager there.
- Concurrent threads inside key handling: workers of one creation touch keys of distinct names.
- Servers of one name outside `Servers`: elsewhere a name stands for one server, which fresh names
  guarantee.
- Other spellings that Python's `int()` accepts for a unit number or a persisted port (signs,
  underscores, blanks, other digits): Juju writes plain digits and the code writes what it reads.
- Keys.KeyStore.DeleteExpiredKeys: for a pass that an error ends it gives bounds on what has gone,
  not which keys in which order; the directory may list them in any.
- A server that comes up only after its failed launch has ended: the protocol counts the server of a
  failed launch from the launch on.
- Convergence.TimerReconcileConverges: speaks of sections that reach their end;
  `PressureReconcilers.PressureReconciler.HandleTimerReconcile` proves that the code's does.
