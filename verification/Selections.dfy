/**
 * What a deletion section asks GitHub to delete, said of the two stores alone: which registrations
 * and which VMs' runners, and in a scale-down exactly how many.
 */
module Selections {
  import opened Wrappers
  import opened Identifiers
  import opened PressureTarget
  import opened Runners
  import opened ScaleDown
  import opened Machine
  import opened Safety
  import opened ScaleDownRuns

  /** A runner of this name runs a job. */
  ghost predicate HasJob(runners: map<GitHubId, Registration>, v: InstanceID) {
    exists id :: id in runners && runners[id].instance == v && runners[id].busy
  }

  /** A runner of this name is registered, runs no job, and is online or not. */
  ghost predicate IsIdle(runners: map<GitHubId, Registration>, v: InstanceID, online: bool) {
    exists id :: id in runners && runners[id].instance == v && runners[id].online == online && !runners[id].busy
  }

  /**
   * Cleanup has a reason to take the VM: no runner of its name is registered, it is in error, or
   * its runner is offline and idle and it is more than 1380 seconds old.
   */
  ghost predicate HasReason(runners: map<GitHubId, Registration>, vm: VM, clock: int) {
    || (forall id :: id in runners ==> runners[id].instance != vm.instance)
    || vm.state == ERROR
    || (IsIdle(runners, vm.instance, false) && clock - vm.createdAt > 1380)
  }

  /** Cleanup or flush takes the runner of the VM. */
  ghost predicate Takes(sweep: Sweep, runners: map<GitHubId, Registration>, vm: VM, clock: int) {
    || HasReason(runners, vm, clock)
    || (sweep.FlushIdle? && IsIdle(runners, vm.instance, true))
    || sweep.FlushBusy?
  }

  function VmsOf(vms: seq<VM>): set<VM> {
    set vm <- vms
  }

  /** Registrations whose name no VM bears. */
  function Dangling(names: set<InstanceID>, runners: map<GitHubId, Registration>): set<GitHubId> {
    set id | id in runners && runners[id].instance !in names
  }

  ghost function WithReason(vms: set<VM>, runners: map<GitHubId, Registration>, clock: int): set<VM> {
    set vm <- vms | vm.runnerId.Some? && HasReason(runners, vm, clock)
  }

  /** VMs that run no job and that cleanup has no reason to take. */
  ghost function Spare(vms: set<VM>, runners: map<GitHubId, Registration>, clock: int): set<VM> {
    set vm <- vms | vm.runnerId.Some? && !HasReason(runners, vm, clock) && !HasJob(runners, vm.instance)
  }

  /** VMs that are taken although cleanup has no reason to. */
  ghost function Extra(
    vms: set<VM>, runners: map<GitHubId, Registration>, clock: int, chosen: set<RunnerId>): set<VM>
  {
    set vm <- vms
      | vm.runnerId.Some? && !HasReason(runners, vm, clock) && Stored(vm.runnerId.value) in chosen
  }

  /** Of a scale-down by num: what cleanup takes counts towards num, and the rest are spare VMs. */
  function StillMissing(num: int, withReason: nat, dangling: nat, spare: nat): int {
    Min(Max(num - withReason - dangling, 0), spare)
  }

  /** The selection of a section, given its server list and the registrations at the listing. */
  ghost predicate Selected(
    sweep: Sweep, vms: seq<VM>, runners: map<GitHubId, Registration>, clock: int, chosen: set<RunnerId>)
  {
    && (forall n: GitHubId :: Listed(n) in chosen <==> n in Dangling(Instances(vms), runners))
    && (forall n: GitHubId :: Stored(n) in chosen ==> exists vm :: vm in vms && vm.runnerId == Some(n))
    && (!sweep.Soft? ==> forall vm :: vm in vms && vm.runnerId.Some? ==>
                           (Stored(vm.runnerId.value) in chosen <==> Takes(sweep, runners, vm, clock)))
    && (sweep.Soft? ==>
          && (forall vm :: vm in WithReason(VmsOf(vms), runners, clock) ==> Stored(vm.runnerId.value) in chosen)
          && Extra(VmsOf(vms), runners, clock, chosen) <= Spare(VmsOf(vms), runners, clock)
          && |Extra(VmsOf(vms), runners, clock, chosen)|
             == StillMissing(sweep.num, |WithReason(VmsOf(vms), runners, clock)|, |Dangling(Instances(vms), runners)|,
                             |Spare(VmsOf(vms), runners, clock)|))
  }

  // ---------------------------------------------------------------- listing and registrations

  /** GitHub holds a name once. */
  ghost predicate NamesUnique(runners: map<GitHubId, Registration>) {
    forall a, b :: a in runners && b in runners && runners[a].instance == runners[b].instance ==> a == b
  }

  lemma {:induction false} NamesOfLinked(w: World)
    requires Linked(w)
    ensures NamesUnique(w.runners)
  {
    forall a, b | a in w.runners && b in w.runners && w.runners[a].instance == w.runners[b].instance ensures a == b {
      assert w.issued[w.runners[a].instance] == a && w.issued[w.runners[b].instance] == b;
    }
  }

  /** So every listed runner is the last one of its name. */
  lemma {:induction false} ListedOnce(
    listing: seq<ListedRunner>, runners: map<GitHubId, Registration>, v: InstanceID, r: ListedRunner)
    requires Lists(listing, runners) && NamesUnique(runners)
    ensures LastListed(listing, v, r) <==> r in listing && r.instance == v
  {
    if r in listing && r.instance == v {
      var i :| 0 <= i < |listing| && listing[i] == r;
      forall j | i < j < |listing| ensures listing[j].instance != v {
        assert listing[j].id in runners && listing[i].id in runners;
      }
    }
  }

  lemma {:induction false} AsListed(
    listing: seq<ListedRunner>, runners: map<GitHubId, Registration>, v: InstanceID, online: bool)
    requires Lists(listing, runners) && NamesUnique(runners)
    ensures ListedBusy(listing, v) <==> HasJob(runners, v)
    ensures ListedIdle(listing, v, online) <==> IsIdle(runners, v, online)
    ensures (forall r :: r in listing ==> r.instance != v) <==> forall id :: id in runners ==> runners[id].instance != v
  {
    hide LastListed;
    forall r ensures LastListed(listing, v, r) <==> r in listing && r.instance == v {
      ListedOnce(listing, runners, v, r);
    }
    forall id | id in runners
      ensures ListedRunner(id, runners[id].instance, runners[id].online, runners[id].busy) in listing
    {
    }
    if HasJob(runners, v) {
      var id :| id in runners && runners[id].instance == v && runners[id].busy;
      assert LastListed(listing, v, ListedRunner(id, v, runners[id].online, true));
    }
    if IsIdle(runners, v, online) {
      var id :| id in runners && runners[id].instance == v && runners[id].online == online && !runners[id].busy;
      assert LastListed(listing, v, ListedRunner(id, v, online, false));
    }
  }

  lemma {:induction false} ReasonIsUnwanted(
    listing: seq<ListedRunner>, runners: map<GitHubId, Registration>, vm: VM, clock: int)
    requires Lists(listing, runners) && NamesUnique(runners)
    ensures Unwanted(vm, listing, clock) <==> HasReason(runners, vm, clock)
  {
    hide ListedIdle, IsIdle, Lists;
    AsListed(listing, runners, vm.instance, false);
  }

  // ---------------------------------------------------------------- the selection of each section

  /** What cleanup takes, as registrations and VMs. */
  lemma {:induction false} CleanupIsExact(
    vms: seq<VM>, listing: seq<ListedRunner>, runners: map<GitHubId, Registration>, clock: int)
    requires DistinctInstances(vms) && DistinctRunnerIds(vms) && Lists(listing, runners) && NamesUnique(runners)
    ensures var cleanup := CleanupSet(vms, listing, clock);
            && (forall n: GitHubId :: Listed(n) in cleanup <==> n in Dangling(Instances(vms), runners))
            && (forall n: GitHubId :: Stored(n) in cleanup ==> exists vm :: vm in vms && vm.runnerId == Some(n))
            && (forall vm :: vm in vms && vm.runnerId.Some? ==>
                  (Stored(vm.runnerId.value) in cleanup <==> HasReason(runners, vm, clock)))
  {
    hide CleanupSet, HasReason, Unwanted;
    var cleanup := CleanupSet(vms, listing, clock);
    forall n: GitHubId
      ensures Listed(n) in cleanup <==> n in Dangling(Instances(vms), runners)
      ensures Stored(n) in cleanup ==> exists vm :: vm in vms && vm.runnerId == Some(n)
    {
      CleanupTakesDangling(vms, listing, clock, n);
      if n in runners {
        assert ListedRunner(n, runners[n].instance, runners[n].online, runners[n].busy) in listing;
      }
      if Stored(n) in cleanup {
        var i :| 0 <= i < |vms| && vms[i].runnerId == Some(n);
        assert vms[i] in vms;
      }
    }
    forall vm | vm in vms && vm.runnerId.Some?
      ensures Stored(vm.runnerId.value) in cleanup <==> HasReason(runners, vm, clock)
    {
      var i :| 0 <= i < |vms| && vms[i] == vm;
      CleanupTakesUnwanted(vms, listing, clock, i);
      ReasonIsUnwanted(listing, runners, vm, clock);
    }
  }

  /** A flush adds the runners that FlushTakes names. */
  lemma {:induction false} FlushIsExact(
    sweep: Sweep, vms: seq<VM>, listing: seq<ListedRunner>, runners: map<GitHubId, Registration>, clock: int, vm: VM)
    requires DistinctRunnerIds(vms) && Lists(listing, runners) && NamesUnique(runners)
    requires (sweep.FlushIdle? || sweep.FlushBusy?) && vm in vms && vm.runnerId.Some?
    ensures Stored(vm.runnerId.value) in Choose(sweep, vms, listing, clock) <==>
            || Stored(vm.runnerId.value) in CleanupSet(vms, listing, clock)
            || (sweep.FlushIdle? && IsIdle(runners, vm.instance, true)) || sweep.FlushBusy?
  {
    hide CleanupSet, RequestedHealth, RunnersToFlush, ListedIdle, IsIdle, Lists;
    var i :| 0 <= i < |vms| && vms[i] == vm;
    FlushTakes(vms, listing, if sweep.FlushBusy? then FLUSH_BUSY else FLUSH_IDLE, i);
    AsListed(listing, runners, vm.instance, true);
  }

  function ListedOf(ids: set<GitHubId>): set<RunnerId> {
    set n <- ids :: Listed(n)
  }

  lemma {:induction false} CountListedOf(ids: set<GitHubId>)
    ensures |ListedOf(ids)| == |ids|
  {
    if ids == {} {
    } else {
      var n :| n in ids;
      CountListedOf(ids - {n});
      assert ListedOf(ids) == ListedOf(ids - {n}) + {Listed(n)};
    }
  }

  lemma {:induction false} CountStored(vms: seq<VM>, some: set<VM>)
    requires DistinctRunnerIds(vms) && forall vm :: vm in some ==> vm in vms && vm.runnerId.Some?
    ensures |StoredOf(some)| == |some|
  {
    forall a, b | a in some && b in some && a.runnerId == b.runnerId ensures a == b {
      SameRunnerSameVm(vms, a, b);
    }
    CountStoredOf(some);
  }

  lemma {:induction false} CountCleanup(
    vms: seq<VM>, listing: seq<ListedRunner>, runners: map<GitHubId, Registration>, clock: int)
    requires DistinctInstances(vms) && DistinctRunnerIds(vms) && Lists(listing, runners) && NamesUnique(runners)
    ensures |CleanupSet(vms, listing, clock)|
            == |WithReason(VmsOf(vms), runners, clock)| + |Dangling(Instances(vms), runners)|
  {
    hide CleanupSet, HasReason, Lists, NamesUnique, Dangling;
    CleanupIsExact(vms, listing, runners, clock);
    var cleanup, withReason := CleanupSet(vms, listing, clock), WithReason(VmsOf(vms), runners, clock);
    var stored, listed := StoredOf(withReason), ListedOf(Dangling(Instances(vms), runners));
    CountStored(vms, withReason);
    CountListedOf(Dangling(Instances(vms), runners));
    forall id ensures id in cleanup <==> id in stored + listed {
      if id.Stored? && id in cleanup {
        var vm :| vm in vms && vm.runnerId == Some(id.n);
        assert vm in withReason;
      }
    }
    assert cleanup == stored + listed && stored !! listed;
  }

  lemma {:induction false} SpareIsAvailable(
    vms: seq<VM>, listing: seq<ListedRunner>, runners: map<GitHubId, Registration>, clock: int)
    requires DistinctInstances(vms) && DistinctRunnerIds(vms) && Lists(listing, runners) && NamesUnique(runners)
    ensures Available(vms, listing, CleanupSet(vms, listing, clock)) == Spare(VmsOf(vms), runners, clock)
  {
    hide CleanupSet, HasReason, HasJob, ListedBusy, Lists, NamesUnique;
    CleanupIsExact(vms, listing, runners, clock);
    forall vm | vm in vms ensures ListedBusy(listing, vm.instance) <==> HasJob(runners, vm.instance) {
      AsListed(listing, runners, vm.instance, true);
    }
  }

  /** In a scale-down, what is chosen beyond cleanup are the runners of spare VMs. */
  lemma {:induction false} ExtraIsBeyondCleanup(
    vms: seq<VM>, listing: seq<ListedRunner>, runners: map<GitHubId, Registration>, clock: int, num: int)
    requires DistinctInstances(vms) && DistinctRunnerIds(vms) && Lists(listing, runners) && NamesUnique(runners)
    ensures var cleanup, chosen := CleanupSet(vms, listing, clock), SoftDeleteSet(vms, listing, clock, num);
            var extra := Extra(VmsOf(vms), runners, clock, chosen);
            cleanup <= chosen && chosen - cleanup == StoredOf(extra) && extra <= Spare(VmsOf(vms), runners, clock)
  {
    hide CleanupSet, SoftDeleteSet, HasReason, HasJob, Lists, NamesUnique, Available;
    var cleanup, chosen := CleanupSet(vms, listing, clock), SoftDeleteSet(vms, listing, clock, num);
    var extra, spare := Extra(VmsOf(vms), runners, clock, chosen), Spare(VmsOf(vms), runners, clock);
    CleanupIsExact(vms, listing, runners, clock);
    SpareIsAvailable(vms, listing, runners, clock);
    SoftSelectionIsExact(vms, listing, clock, num);
    forall vm | vm in extra ensures vm in spare {
      assert Stored(vm.runnerId.value) in StoredOf(spare);
      var other :| other in spare && other.runnerId == vm.runnerId;
      SameRunnerSameVm(vms, vm, other);
    }
    forall id | id in chosen - cleanup ensures id in StoredOf(extra) {
      var vm :| vm in spare && vm.runnerId.Some? && id == Stored(vm.runnerId.value);
      assert vm in extra;
    }
  }

  lemma {:induction false} StoredOfKnown(vms: set<VM>, id: RunnerId)
    requires id in StoredOf(vms)
    ensures id.Stored? && exists vm :: vm in vms && vm.runnerId == Some(id.n)
  {}

  lemma {:induction false} SoftIsSelected(
    sweep: Sweep, vms: seq<VM>, listing: seq<ListedRunner>, runners: map<GitHubId, Registration>, clock: int)
    requires DistinctInstances(vms) && DistinctRunnerIds(vms) && Lists(listing, runners) && NamesUnique(runners)
    requires sweep.Soft?
    ensures Selected(sweep, vms, runners, clock, SoftDeleteSet(vms, listing, clock, sweep.num))
  {
    hide CleanupSet, SoftDeleteSet, HasReason, HasJob, Lists, NamesUnique, Available, Dangling, StoredOf, Spare;
    var chosen := SoftDeleteSet(vms, listing, clock, sweep.num);
    var extra := Extra(VmsOf(vms), runners, clock, chosen);
    CleanupIsExact(vms, listing, runners, clock);
    CountCleanup(vms, listing, runners, clock);
    SpareIsAvailable(vms, listing, runners, clock);
    SoftSelectionIsExact(vms, listing, clock, sweep.num);
    ExtraIsBeyondCleanup(vms, listing, runners, clock, sweep.num);
    CountStored(vms, extra);
    forall id | id in StoredOf(extra) ensures id.Stored? && exists vm :: vm in vms && vm.runnerId == Some(id.n) {
      StoredOfKnown(extra, id);
    }
  }

  /** Beyond cleanup a flush takes nothing but runners of VMs. */
  lemma {:induction false} FlushIsOfVms(sweep: Sweep, vms: seq<VM>, listing: seq<ListedRunner>, clock: int)
    requires !sweep.Soft?
    ensures CleanupSet(vms, listing, clock) <= Choose(sweep, vms, listing, clock)
    ensures forall id :: id in Choose(sweep, vms, listing, clock) && id !in CleanupSet(vms, listing, clock) ==>
              id.Stored? && exists vm :: vm in vms && vm.runnerId == Some(id.n)
  {
    hide CleanupSet, RequestedHealth;
    var health := RequestedHealth(vms, listing);
    forall h | h in health ensures h.vm in vms {
      var i :| 0 <= i < |health| && health[i] == h;
      HealthOfVm(vms[i], listing);
      hide HealthOf, RunnersByInstance;
      assert health[i].vm == vms[i];
    }
  }

  lemma {:induction false} CleanupChooses(sweep: Sweep, vms: seq<VM>, listing: seq<ListedRunner>, clock: int)
    requires sweep.Cleanup?
    ensures Choose(sweep, vms, listing, clock) == CleanupSet(vms, listing, clock)
  {}

  lemma {:induction false} OtherIsSelected(
    sweep: Sweep, vms: seq<VM>, listing: seq<ListedRunner>, runners: map<GitHubId, Registration>, clock: int)
    requires DistinctInstances(vms) && DistinctRunnerIds(vms) && Lists(listing, runners) && NamesUnique(runners)
    requires !sweep.Soft?
    ensures Selected(sweep, vms, runners, clock, Choose(sweep, vms, listing, clock))
  {
    hide CleanupSet, HasReason, IsIdle, Lists, NamesUnique, Dangling, RunnersToFlush, RequestedHealth, Choose;
    CleanupIsExact(vms, listing, runners, clock);
    forall vm | vm in vms && vm.runnerId.Some?
      ensures Stored(vm.runnerId.value) in Choose(sweep, vms, listing, clock) <==> Takes(sweep, runners, vm, clock)
    {
      if sweep.Cleanup? { CleanupChooses(sweep, vms, listing, clock); }
      else { FlushIsExact(sweep, vms, listing, runners, clock, vm); }
    }
    FlushIsOfVms(sweep, vms, listing, clock);
  }

  lemma {:induction false} ChoiceIsSelected(
    sweep: Sweep, vms: seq<VM>, listing: seq<ListedRunner>, runners: map<GitHubId, Registration>, clock: int)
    requires DistinctInstances(vms) && DistinctRunnerIds(vms) && Lists(listing, runners) && NamesUnique(runners)
    ensures Selected(sweep, vms, runners, clock, Choose(sweep, vms, listing, clock))
  {
    hide Selected, Lists, CleanupSet, SoftDeleteSet, NamesUnique;
    if sweep.Soft? {
      SoftIsSelected(sweep, vms, listing, runners, clock);
    } else {
      OtherIsSelected(sweep, vms, listing, runners, clock);
    }
  }

  /**
   * Over every run: whatever has happened since the server list, a section asks GitHub to delete
   * the registrations whose name no listed VM bears, and the runners of exactly the listed VMs that
   * it has a reason to take; a scale-down by num takes in addition exactly as many spare VMs as are
   * then still missing from num, or all there are.
   */
  lemma {:induction false} SelectionIsExact(limits: Limits, s: State, events: seq<Event>, j: nat)
    requires Initial(s) && Linked(s.world) && j < |events|
    requires At(limits, s, events, j).phase.SweepListed? && events[j].ListRunners?
    requires Lists(events[j].listing, At(limits, s, events, j).world.runners)
    ensures var t, p := At(limits, s, events, j), At(limits, s, events, j + 1).phase;
            && p.SweepRunners? && p.todo == p.chosen && p.deleted == {} && p.sweep == t.phase.sweep
            && Selected(t.phase.sweep, t.phase.vms, t.world.runners, t.world.now + events[j].lag, p.chosen)
  {
    hide Lists, Choose, Selected, Run;
    var t := At(limits, s, events, j);
    RunsKeepDistinct(limits, s, events[..j]);
    RunsAreSafe(limits, s, events[..j]);
    NamesOfLinked(t.world);
    StepsOfRun(limits, s, events, j);
    ChoiceIsSelected(t.phase.sweep, t.phase.vms, events[j].listing, t.world.runners, t.world.now + events[j].lag);
  }

  /** And of the spare VMs it takes the first ones of the server list. */
  lemma {:induction false} FirstSpareAreTaken(limits: Limits, s: State, events: seq<Event>, j: nat, a: nat, b: nat)
    requires Initial(s) && Linked(s.world) && j < |events|
    requires At(limits, s, events, j).phase.SweepListed? && At(limits, s, events, j).phase.sweep.Soft?
    requires events[j].ListRunners? && Lists(events[j].listing, At(limits, s, events, j).world.runners)
    requires var t := At(limits, s, events, j);
             var spare := Spare(VmsOf(t.phase.vms), t.world.runners, t.world.now + events[j].lag);
             a < b < |t.phase.vms| && t.phase.vms[a] in spare && t.phase.vms[b] in spare
    ensures var vms, p := At(limits, s, events, j).phase.vms, At(limits, s, events, j + 1).phase;
            && p.SweepRunners?
            && (Stored(vms[b].runnerId.value) in p.chosen ==> Stored(vms[a].runnerId.value) in p.chosen)
  {
    hide Lists, SoftDeleteSet, CleanupSet, Run, HasReason, HasJob, Available;
    var t := At(limits, s, events, j);
    var vms, listing, clock := t.phase.vms, events[j].listing, t.world.now + events[j].lag;
    RunsKeepDistinct(limits, s, events[..j]);
    RunsAreSafe(limits, s, events[..j]);
    NamesOfLinked(t.world);
    SpareIsAvailable(vms, listing, t.world.runners, clock);
    SelectionStep(limits, s, events, j);
    FirstAvailableAreTaken(vms, listing, clock, t.phase.sweep.num, a, b);
  }
}
