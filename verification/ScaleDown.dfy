/** What a soft scale-down leaves alive, whatever its snapshot contains. */
module ScaleDown {
  import opened Wrappers
  import opened Identifiers
  import opened Runners

  predicate DistinctInstances(vms: seq<VM>) {
    forall i, j :: 0 <= i < j < |vms| ==> vms[i].instance != vms[j].instance
  }

  predicate DistinctRunnerIds(vms: seq<VM>) {
    forall i, j :: 0 <= i < j < |vms| && vms[i].runnerId.Some? ==> vms[i].runnerId != vms[j].runnerId
  }

  /** The last runner listed under this name; names being unique at GitHub, the only one. */
  ghost predicate LastListed(listing: seq<ListedRunner>, v: InstanceID, r: ListedRunner) {
    exists i :: 0 <= i < |listing| && listing[i] == r && r.instance == v
                && forall j :: i < j < |listing| ==> listing[j].instance != v
  }

  ghost predicate ListedBusy(listing: seq<ListedRunner>, v: InstanceID) {
    exists r :: LastListed(listing, v, r) && r.busy
  }

  ghost predicate ListedIdle(listing: seq<ListedRunner>, v: InstanceID, online: bool) {
    exists r :: LastListed(listing, v, r) && r.online == online && !r.busy
  }

  /**
   * The reasons for which cleanup takes a VM's runner: none is listed, the VM is in error, or the
   * runner is offline and idle and the VM is more than 23 minutes old.
   */
  ghost predicate Unwanted(vm: VM, listing: seq<ListedRunner>, now: int) {
    || (forall r :: r in listing ==> r.instance != vm.instance)
    || vm.state == ERROR
    || (ListedIdle(listing, vm.instance, false) && now - vm.createdAt > 1380)
  }

  lemma {:induction false} OnlyOneIsLast(listing: seq<ListedRunner>, v: InstanceID, r: ListedRunner, q: ListedRunner)
    requires LastListed(listing, v, r) && LastListed(listing, v, q)
    ensures r == q
  {
  }

  lemma {:induction false} LastReplaces(listing: seq<ListedRunner>)
    requires listing != []
    ensures var last := listing[|listing| - 1];
            RunnersByInstance(listing) == RunnersByInstance(listing[..|listing| - 1])[last.instance := last]
  {}

  lemma {:induction false} FoundAt(listing: seq<ListedRunner>, v: InstanceID) returns (i: nat)
    requires v in RunnersByInstance(listing)
    ensures i < |listing| && listing[i] == RunnersByInstance(listing)[v] && listing[i].instance == v
    ensures forall j :: i < j < |listing| ==> listing[j].instance != v
  {
    hide RunnersByInstance;
    var last, before := |listing| - 1, listing[..|listing| - 1];
    LastReplaces(listing);
    if listing[last].instance == v {
      i := last;
    } else {
      i := FoundAt(before, v);
      assert before[i] == listing[i];
    }
  }

  lemma {:induction false} ByInstanceIsLast(listing: seq<ListedRunner>, v: InstanceID)
    ensures v !in RunnersByInstance(listing) <==> forall r :: r in listing ==> r.instance != v
    ensures forall r :: LastListed(listing, v, r) <==> v in RunnersByInstance(listing) && RunnersByInstance(listing)[v] == r
  {
    var byInstance := RunnersByInstance(listing);
    if v in byInstance { var i := FoundAt(listing, v); }
    forall r | LastListed(listing, v, r) ensures v in byInstance && byInstance[v] == r {
      assert r in listing && r.instance in byInstance;
      hide LastListed, RunnersByInstance;
      OnlyOneIsLast(listing, v, r, byInstance[v]);
    }
  }

  /** What a VM's health entry says of the listing. */
  lemma {:induction false} HealthOfVm(vm: VM, listing: seq<ListedRunner>)
    ensures var h := HealthOf(vm, RunnersByInstance(listing));
            && h.vm == vm
            && (h.deletable <==> forall r :: r in listing ==> r.instance != vm.instance)
            && (h.busy <==> ListedBusy(listing, vm.instance))
            && (h.online && !h.busy <==> ListedIdle(listing, vm.instance, true))
            && (!h.deletable && !h.online && !h.busy <==> ListedIdle(listing, vm.instance, false))
  {
    hide LastListed;
    ByInstanceIsLast(listing, vm.instance);
    var byInstance := RunnersByInstance(listing);
    if vm.instance in byInstance { assert LastListed(listing, vm.instance, byInstance[vm.instance]); }
  }

  function CleanupSet(vms: seq<VM>, listing: seq<ListedRunner>, now: int): set<RunnerId> {
    RunnersToCleanup(RequestedHealth(vms, listing), NonRequested(vms, listing), vms, now)
  }

  function SoftDeleteSet(vms: seq<VM>, listing: seq<ListedRunner>, now: int, num: int): set<RunnerId> {
    RunnersToDelete(RequestedHealth(vms, listing), NonRequested(vms, listing), vms, now, num, true)
  }

  lemma {:induction false} VmsByInstanceIsExact(vms: seq<VM>, i: nat)
    requires DistinctInstances(vms) && i < |vms|
    ensures vms[i].instance in VmsByInstance(vms) && VmsByInstance(vms)[vms[i].instance] == vms[i]
  {
    var found := VmsByInstance(vms)[vms[i].instance];
    var j :| 0 <= j < |vms| && vms[j] == found;
  }

  predicate Marked(h: Health, vms: map<InstanceID, VM>, now: int) {
    || h.deletable
    || (h.vm.instance in vms && vms[h.vm.instance].state == ERROR)
    || (!h.online && !h.busy && h.vm.instance in vms
        && IsOlderThan(vms[h.vm.instance], RUNNER_MAXIMUM_CREATION_TIME, now))
  }

  lemma {:induction false} CleanupMembers(
    requested: seq<Health>, nonRequested: seq<ListedRunner>, vms: seq<VM>, now: int, n: GitHubId)
    ensures Stored(n) in RunnersToCleanup(requested, nonRequested, vms, now) <==>
            exists h :: h in requested && h.vm.runnerId == Some(n) && Marked(h, VmsByInstance(vms), now)
    ensures Listed(n) in RunnersToCleanup(requested, nonRequested, vms, now) <==>
            exists r :: r in nonRequested && r.id == n
  {
    var byInstance := VmsByInstance(vms);
    if h :| h in requested && h.vm.runnerId == Some(n) && Marked(h, byInstance, now) {
      assert Stored(h.vm.runnerId.value) == Stored(n);
      assert || Stored(n) in DeletableIds(requested)
             || Stored(n) in ErroredIds(requested, byInstance)
             || Stored(n) in TimedOutIds(requested, byInstance, now);
    }
  }

  predicate EntryPerVm(vms: seq<VM>, health: seq<Health>) {
    |health| == |vms| && forall i :: 0 <= i < |vms| ==> health[i].vm == vms[i]
  }

  lemma {:induction false} CleanupTakesMarked(
    vms: seq<VM>, health: seq<Health>, nonRequested: seq<ListedRunner>, now: int, i: nat)
    requires DistinctRunnerIds(vms) && EntryPerVm(vms, health)
    requires i < |vms| && vms[i].runnerId.Some?
    ensures Stored(vms[i].runnerId.value) in RunnersToCleanup(health, nonRequested, vms, now) <==>
            Marked(health[i], VmsByInstance(vms), now)
  {
    hide Marked, RunnersToCleanup;
    var n := vms[i].runnerId.value;
    CleanupMembers(health, nonRequested, vms, now, n);
    if h :| h in health && h.vm.runnerId == Some(n) && Marked(h, VmsByInstance(vms), now) {
      var j :| 0 <= j < |vms| && health[j] == h;
      assert h.vm == vms[j];
      assert i == j;
    }
    assert health[i] in health;
  }

  /** Cleanup takes the stored ID of a VM exactly when that VM is unwanted. */
  lemma {:induction false} CleanupTakesUnwanted(vms: seq<VM>, listing: seq<ListedRunner>, now: int, i: nat)
    requires DistinctInstances(vms) && DistinctRunnerIds(vms)
    requires i < |vms| && vms[i].runnerId.Some?
    ensures Stored(vms[i].runnerId.value) in CleanupSet(vms, listing, now) <==> Unwanted(vms[i], listing, now)
  {
    CleanupTakesMarked(vms, RequestedHealth(vms, listing), NonRequested(vms, listing), now, i);
    VmsByInstanceIsExact(vms, i);
    hide HealthOf, RunnersByInstance, CleanupSet;
    HealthOfVm(vms[i], listing);
  }

  /** A VM that is not in error and whose runner is offline and idle is taken once it is 1380 seconds old. */
  lemma {:induction false} OfflineIdleTimesOut(vms: seq<VM>, listing: seq<ListedRunner>, now: int, i: nat)
    requires DistinctInstances(vms) && DistinctRunnerIds(vms)
    requires i < |vms| && vms[i].runnerId.Some? && vms[i].state != ERROR && ListedIdle(listing, vms[i].instance, false)
    ensures Stored(vms[i].runnerId.value) in CleanupSet(vms, listing, now) <==> now - vms[i].createdAt > 1380
  {
    hide CleanupSet;
    CleanupTakesUnwanted(vms, listing, now, i);
  }

  /**
   * Beyond those, cleanup takes the listed ID of exactly the runners whose name no VM of the
   * snapshot bears, and nothing else.
   */
  lemma {:induction false} CleanupTakesDangling(vms: seq<VM>, listing: seq<ListedRunner>, now: int, n: GitHubId)
    ensures Listed(n) in CleanupSet(vms, listing, now) <==>
            exists r :: r in listing && r.id == n && r.instance !in Instances(vms)
    ensures Stored(n) in CleanupSet(vms, listing, now) ==> exists i :: 0 <= i < |vms| && vms[i].runnerId == Some(n)
  {
    hide Marked, RunnersToCleanup;
    var health := RequestedHealth(vms, listing);
    CleanupMembers(health, NonRequested(vms, listing), vms, now, n);
    if Stored(n) in CleanupSet(vms, listing, now) {
      var h :| h in health && h.vm.runnerId == Some(n);
      var i :| 0 <= i < |vms| && health[i] == h;
      assert vms[i].runnerId == Some(n);
    }
  }

  /**
   * A flush takes the runner of a VM exactly when it is online and idle, or when busy ones are to
   * be flushed as well; and it takes no other runner.
   */
  lemma {:induction false} FlushTakes(vms: seq<VM>, listing: seq<ListedRunner>, mode: FlushMode, i: nat)
    requires DistinctRunnerIds(vms) && i < |vms| && vms[i].runnerId.Some?
    ensures Stored(vms[i].runnerId.value) in RunnersToFlush(RequestedHealth(vms, listing), mode)
            <==> mode == FLUSH_BUSY || ListedIdle(listing, vms[i].instance, true)
    ensures forall id :: id in RunnersToFlush(RequestedHealth(vms, listing), mode) ==>
              exists k :: 0 <= k < |vms| && vms[k].runnerId.Some? && id == Stored(vms[k].runnerId.value)
  {
    hide HealthOf, RunnersByInstance, ListedIdle;
    var health := RequestedHealth(vms, listing);
    var n := vms[i].runnerId.value;
    HealthOfVm(vms[i], listing);
    assert health[i] in health && health[i].vm == vms[i];
    forall h | h in health ensures h.vm in vms && (h.vm.runnerId == Some(n) ==> h == health[i]) {
      var j :| 0 <= j < |health| && health[j] == h;
      HealthOfVm(vms[j], listing);
    }
    forall id | id in RunnersToFlush(health, mode)
      ensures exists k :: 0 <= k < |vms| && vms[k].runnerId.Some? && id == Stored(vms[k].runnerId.value)
    {
      var h :| h in health && h.vm.runnerId.Some? && id == Stored(h.vm.runnerId.value);
      var k :| 0 <= k < |vms| && vms[k] == h.vm;
    }
  }

  lemma {:induction false} CountVms(vms: seq<VM>)
    requires DistinctInstances(vms)
    ensures |(set vm <- vms)| == |vms|
  {
    if vms == [] {
    } else {
      var last, before := vms[|vms| - 1], vms[..|vms| - 1];
      assert vms == before + [last];
      CountVms(before);
      assert last !in before;
      assert (set vm <- vms) == (set vm <- before) + {last};
    }
  }

  /** VMs of a set with distinct runner IDs in `ids` are no more than the IDs. */
  lemma {:induction false} NoMoreVmsThanIds(vms: set<VM>, ids: set<RunnerId>)
    requires forall vm :: vm in vms ==> vm.runnerId.Some? && Stored(vm.runnerId.value) in ids
    requires forall a, b :: a in vms && b in vms && a.runnerId == b.runnerId ==> a == b
    ensures |vms| <= |ids|
  {
    if vms == {} {
    } else {
      var vm :| vm in vms;
      NoMoreVmsThanIds(vms - {vm}, ids - {Stored(vm.runnerId.value)});
    }
  }

  lemma {:induction false} SameRunnerSameVm(vms: seq<VM>, a: VM, b: VM)
    requires DistinctRunnerIds(vms) && a in vms && b in vms && a.runnerId.Some? && a.runnerId == b.runnerId
    ensures a == b
  {
    var i :| 0 <= i < |vms| && vms[i] == a;
    var j :| 0 <= j < |vms| && vms[j] == b;
  }

  function WithId(vms: seq<VM>, ids: set<RunnerId>): set<VM> {
    set vm <- vms | vm.runnerId.Some? && Stored(vm.runnerId.value) in ids
  }

  function WithoutId(vms: seq<VM>): set<VM> {
    set vm <- vms | vm.runnerId.None?
  }

  /** Has a runner ID that the given set does not hold. */
  function Spared(vms: seq<VM>, ids: set<RunnerId>): set<VM> {
    set vm <- vms | vm.runnerId.Some? && Stored(vm.runnerId.value) !in ids
  }

  lemma {:induction false} SnapshotSplits(vms: seq<VM>, ids: set<RunnerId>)
    requires DistinctInstances(vms) && DistinctRunnerIds(vms)
    ensures |vms| == |WithId(vms, ids)| + |WithoutId(vms)| + |Spared(vms, ids)|
    ensures |WithId(vms, ids)| <= |ids|
  {
    CountVms(vms);
    var withId, without, spared := WithId(vms, ids), WithoutId(vms), Spared(vms, ids);
    assert (set vm <- vms) == withId + without + spared;
    assert withId !! without !! spared;
    forall a, b | a in withId && b in withId && a.runnerId == b.runnerId ensures a == b {
      SameRunnerSameVm(vms, a, b);
    }
    NoMoreVmsThanIds(withId, ids);
  }

  /** Widening a deletion set by `extra` costs at most |extra| spared VMs. */
  lemma {:induction false} EachIdCostsOneVm(vms: seq<VM>, ids: set<RunnerId>, extra: set<RunnerId>)
    requires DistinctRunnerIds(vms)
    ensures |Spared(vms, ids + extra)| >= |Spared(vms, ids)| - |extra|
  {
    var before, after := Spared(vms, ids), Spared(vms, ids + extra);
    var lost := before - after;
    assert before == after + lost;
    forall a, b | a in lost && b in lost && a.runnerId == b.runnerId ensures a == b {
      SameRunnerSameVm(vms, a, b);
    }
    NoMoreVmsThanIds(lost, extra);
  }

  lemma {:induction false} BeyondCleanupIsSmall(requested: seq<Health>, cleanup: set<RunnerId>, num: int)
    ensures |BeyondCleanup(requested, cleanup, num, true)| <= Max(num - |cleanup|, 0)
  {
    ScaleDownTakesAtMost(NotMarked(requested, cleanup), Max(num - |cleanup|, 0), true);
  }

  /**
   * Asking for `num` at most |vms| - desired spares at least min(healthy, desired - VMs without
   * ID) of the healthy VMs, however many dangling, deletable, errored or timed-out runners the
   * cleanup set holds.
   */
  lemma {:induction false} ScaleDownFloor(
    vms: seq<VM>, listing: seq<ListedRunner>, now: int, num: int, desired: int)
    requires DistinctInstances(vms) && DistinctRunnerIds(vms)
    requires num <= |vms| - desired
    ensures |Spared(vms, SoftDeleteSet(vms, listing, now, num))|
            >= Min(|Spared(vms, CleanupSet(vms, listing, now))|, desired - |WithoutId(vms)|)
  {
    var cleanup := CleanupSet(vms, listing, now);
    var extra := BeyondCleanup(RequestedHealth(vms, listing), cleanup, num, true);
    BeyondCleanupIsSmall(RequestedHealth(vms, listing), cleanup, num);
    SnapshotSplits(vms, cleanup);
    EachIdCostsOneVm(vms, cleanup, extra);
  }

  // ---------------------------------------------------------------- exactly how many it takes

  /** VMs that cleanup does not take and whose runner is not listed as busy. */
  ghost function Available(vms: seq<VM>, listing: seq<ListedRunner>, cleanup: set<RunnerId>): set<VM> {
    set vm <- vms
      | vm.runnerId.Some? && Stored(vm.runnerId.value) !in cleanup && !ListedBusy(listing, vm.instance)
  }

  function StoredOf(vms: set<VM>): set<RunnerId> {
    set vm <- vms | vm.runnerId.Some? :: Stored(vm.runnerId.value)
  }

  lemma {:induction false} CountStoredOf(vms: set<VM>)
    requires forall vm :: vm in vms ==> vm.runnerId.Some?
    requires forall a, b :: a in vms && b in vms && a.runnerId == b.runnerId ==> a == b
    ensures |StoredOf(vms)| == |vms|
  {
    if vms == {} {
    } else {
      var vm :| vm in vms;
      CountStoredOf(vms - {vm});
      assert StoredOf(vms) == StoredOf(vms - {vm}) + {Stored(vm.runnerId.value)};
    }
  }

  lemma {:induction false} HealthIsDistinct(vms: seq<VM>, listing: seq<ListedRunner>, marked: set<RunnerId>)
    requires DistinctRunnerIds(vms)
    ensures DistinctIds(NotMarked(RequestedHealth(vms, listing), marked))
  {
    hide HealthOf, RunnersByInstance;
    var health := RequestedHealth(vms, listing);
    forall i | 0 <= i < |health| ensures health[i].vm == vms[i] {
      HealthOfVm(vms[i], listing);
    }
    NotMarkedKeepsDistinctIds(health, marked);
  }

  /** The runners a soft deletion may take beyond cleanup are those of the available VMs. */
  lemma {:induction false} CandidatesAreAvailable(vms: seq<VM>, listing: seq<ListedRunner>, cleanup: set<RunnerId>)
    ensures IdsOf(NotBusy(NotMarked(RequestedHealth(vms, listing), cleanup))) == StoredOf(Available(vms, listing, cleanup))
  {
    hide HealthOf, RunnersByInstance, ListedBusy;
    var health := RequestedHealth(vms, listing);
    forall i | 0 <= i < |vms|
      ensures health[i] in health && health[i].vm == vms[i] && (health[i].busy <==> ListedBusy(listing, vms[i].instance))
    {
      HealthOfVm(vms[i], listing);
    }
    var candidates, available := NotBusy(NotMarked(health, cleanup)), Available(vms, listing, cleanup);
    forall id | id in IdsOf(candidates) ensures id in StoredOf(available) {
      var h :| h in candidates && h.vm.runnerId.Some? && id == Stored(h.vm.runnerId.value);
      var i :| 0 <= i < |health| && health[i] == h;
      assert vms[i] in available;
    }
    forall id | id in StoredOf(available) ensures id in IdsOf(candidates) {
      var vm :| vm in available && vm.runnerId.Some? && id == Stored(vm.runnerId.value);
      var i :| 0 <= i < |vms| && vms[i] == vm;
      assert health[i] in candidates;
    }
  }

  lemma {:induction false} CleanupIsMarked(vms: seq<VM>, listing: seq<ListedRunner>, now: int, num: int)
    ensures var cleanup := CleanupSet(vms, listing, now);
            SoftDeleteSet(vms, listing, now, num) == cleanup + RunnersToScaleDown(
              NotMarked(RequestedHealth(vms, listing), cleanup), Max(num - |cleanup|, 0), true)
  {}

  lemma {:induction false} ChosenIsCandidate(runners: seq<Health>, id: RunnerId)
    requires IsRunnerOf(runners, id, true)
    ensures id in IdsOf(NotBusy(runners))
  {}

  lemma {:induction false} StoredOfAvailable(vms: seq<VM>, listing: seq<ListedRunner>, cleanup: set<RunnerId>)
    ensures StoredOf(Available(vms, listing, cleanup)) !! cleanup
  {}

  lemma {:induction false} CountAvailable(vms: seq<VM>, listing: seq<ListedRunner>, cleanup: set<RunnerId>)
    requires DistinctRunnerIds(vms)
    ensures |StoredOf(Available(vms, listing, cleanup))| == |Available(vms, listing, cleanup)|
  {
    hide ListedBusy;
    var available := Available(vms, listing, cleanup);
    forall a, b | a in available && b in available && a.runnerId == b.runnerId ensures a == b {
      SameRunnerSameVm(vms, a, b);
    }
    CountStoredOf(available);
  }

  lemma {:induction false} ExtraIsAvailable(
    vms: seq<VM>, listing: seq<ListedRunner>, cleanup: set<RunnerId>, num: nat)
    requires DistinctRunnerIds(vms)
    ensures var extra := RunnersToScaleDown(NotMarked(RequestedHealth(vms, listing), cleanup), num, true);
            var available := Available(vms, listing, cleanup);
            extra <= StoredOf(available) && |extra| == Min(num, |available|)
  {
    hide RunnersToScaleDown, NotMarked, RequestedHealth, NotBusy, Available, StoredOf, IdsOf;
    var runners := NotMarked(RequestedHealth(vms, listing), cleanup);
    HealthIsDistinct(vms, listing, cleanup);
    CandidatesAreAvailable(vms, listing, cleanup);
    ScaleDownSelection(runners, num, true);
    NotBusyKeepsDistinctIds(runners);
    DistinctIdsCount(NotBusy(runners));
    CountAvailable(vms, listing, cleanup);
    forall id | id in RunnersToScaleDown(runners, num, true) ensures id in IdsOf(NotBusy(runners)) {
      ChosenIsCandidate(runners, id);
    }
  }

  /**
   * A soft deletion takes the whole cleanup set and, of the available VMs, exactly as many as are
   * then still missing from `num`, or all of them if they are fewer.
   */
  lemma {:induction false} SoftSelectionIsExact(vms: seq<VM>, listing: seq<ListedRunner>, now: int, num: int)
    requires DistinctInstances(vms) && DistinctRunnerIds(vms)
    ensures var cleanup, chosen := CleanupSet(vms, listing, now), SoftDeleteSet(vms, listing, now, num);
            var available := Available(vms, listing, cleanup);
            && cleanup <= chosen && chosen - cleanup <= StoredOf(available)
            && |chosen - cleanup| == Min(Max(num - |cleanup|, 0), |available|)
  {
    hide CleanupSet, SoftDeleteSet, RunnersToScaleDown, NotMarked, RequestedHealth, Available, StoredOf;
    var cleanup, chosen := CleanupSet(vms, listing, now), SoftDeleteSet(vms, listing, now, num);
    var available := Available(vms, listing, cleanup);
    var runners := NotMarked(RequestedHealth(vms, listing), cleanup);
    var extra := RunnersToScaleDown(runners, Max(num - |cleanup|, 0), true);
    ExtraIsAvailable(vms, listing, cleanup, Max(num - |cleanup|, 0));
    CleanupIsMarked(vms, listing, now, num);
    StoredOfAvailable(vms, listing, cleanup);
    assert chosen - cleanup == extra;
  }

  /** The entries of the first n VMs are the first n entries. */
  lemma {:induction false} HealthOfFirst(vms: seq<VM>, listing: seq<ListedRunner>, n: nat)
    requires n <= |vms|
    ensures RequestedHealth(vms, listing) == RequestedHealth(vms[..n], listing) + RequestedHealth(vms[n..], listing)
  {
  }

  lemma {:induction false} CandidatesSplit(vms: seq<VM>, listing: seq<ListedRunner>, marked: set<RunnerId>, n: nat)
    requires n <= |vms|
    ensures NotBusy(NotMarked(RequestedHealth(vms, listing), marked)) ==
            NotBusy(NotMarked(RequestedHealth(vms[..n], listing), marked))
            + NotBusy(NotMarked(RequestedHealth(vms[n..], listing), marked))
  {
    hide NotBusy, NotMarked, RequestedHealth;
    HealthOfFirst(vms, listing, n);
    var a, b := RequestedHealth(vms[..n], listing), RequestedHealth(vms[n..], listing);
    NotMarkedSplits(a, b, marked);
    NotBusySplits(NotMarked(a, marked), NotMarked(b, marked));
  }

  /** An available VM has an entry among the candidates. */
  lemma {:induction false} CandidateOf(
    vms: seq<VM>, listing: seq<ListedRunner>, marked: set<RunnerId>, i: nat) returns (h: Health)
    requires i < |vms| && vms[i] in Available(vms, listing, marked)
    ensures h in NotBusy(NotMarked(RequestedHealth(vms, listing), marked)) && h.vm == vms[i]
  {
    h := RequestedHealth(vms, listing)[i];
    HealthOfVm(vms[i], listing);
  }

  /** Cleanup takes every deletable runner. */
  lemma {:induction false} NoneDeletable(vms: seq<VM>, listing: seq<ListedRunner>, now: int)
    ensures forall h :: h in NotMarked(RequestedHealth(vms, listing), CleanupSet(vms, listing, now)) ==> !h.deletable
  {
  }

  lemma {:induction false} BeyondNotCleanup(vms: seq<VM>, listing: seq<ListedRunner>, cleanup: set<RunnerId>, j: nat)
    requires j < |vms| && vms[j] in Available(vms, listing, cleanup)
    ensures vms[j].runnerId.Some? && Stored(vms[j].runnerId.value) !in cleanup
  {}

  lemma {:induction false} AvailableOfPart(
    vms: seq<VM>, listing: seq<ListedRunner>, cleanup: set<RunnerId>, i: nat, from: nat, to: nat)
    requires from <= i < to <= |vms| && vms[i] in Available(vms, listing, cleanup)
    ensures vms[from..to][i - from] == vms[i] && vms[i] in Available(vms[from..to], listing, cleanup)
  {
    assert vms[from..to][i - from] in vms[from..to];
  }

  lemma {:induction false} EarlierCandidateIsTaken(
    vms: seq<VM>, listing: seq<ListedRunner>, cleanup: set<RunnerId>, n: nat, i: nat, j: nat)
    requires i < j < |vms| && n <= |NotBusy(NotMarked(RequestedHealth(vms, listing), cleanup))|
    requires DistinctIds(NotBusy(NotMarked(RequestedHealth(vms, listing), cleanup)))
    requires vms[i] in Available(vms, listing, cleanup) && vms[j] in Available(vms, listing, cleanup)
    requires vms[i].runnerId.Some? && vms[j].runnerId.Some?
    ensures var taken := IdsOf(NotBusy(NotMarked(RequestedHealth(vms, listing), cleanup))[..n]);
            Stored(vms[j].runnerId.value) in taken ==> Stored(vms[i].runnerId.value) in taken
  {
    hide NotBusy, NotMarked, RequestedHealth, IdsOf, DistinctIds, Available;
    CandidatesSplit(vms, listing, cleanup, j);
    AvailableOfPart(vms, listing, cleanup, i, 0, j);
    AvailableOfPart(vms, listing, cleanup, j, j, |vms|);
    assert vms[0..j] == vms[..j] && vms[j..|vms|] == vms[j..];
    var h := CandidateOf(vms[..j], listing, cleanup, i);
    var k := CandidateOf(vms[j..], listing, cleanup, 0);
    var a := NotBusy(NotMarked(RequestedHealth(vms[..j], listing), cleanup));
    var b := NotBusy(NotMarked(RequestedHealth(vms[j..], listing), cleanup));
    if Stored(k.vm.runnerId.value) in IdsOf((a + b)[..n]) {
      EarlierIsTaken(a, b, n, h, k);
    }
  }

  /** The spare VMs that a soft deletion takes are the first ones of the server list. */
  lemma {:induction false} FirstAvailableAreTaken(
    vms: seq<VM>, listing: seq<ListedRunner>, now: int, num: int, i: nat, j: nat)
    requires DistinctRunnerIds(vms) && i < j < |vms|
    requires var available := Available(vms, listing, CleanupSet(vms, listing, now));
             vms[i] in available && vms[j] in available
    ensures Stored(vms[j].runnerId.value) in SoftDeleteSet(vms, listing, now, num) ==>
              Stored(vms[i].runnerId.value) in SoftDeleteSet(vms, listing, now, num)
  {
    hide CleanupSet, SoftDeleteSet, NotBusy, NotMarked, RequestedHealth, RunnersToScaleDown, IdsOf, Available, DistinctIds;
    hide DistinctRunnerIds;
    var cleanup := CleanupSet(vms, listing, now);
    var runners, n := NotMarked(RequestedHealth(vms, listing), cleanup), Max(num - |cleanup|, 0);
    CleanupIsMarked(vms, listing, now, num);
    NoneDeletable(vms, listing, now);
    SoftTakesFirst(runners, n);
    HealthIsDistinct(vms, listing, cleanup);
    NotBusyKeepsDistinctIds(runners);
    BeyondNotCleanup(vms, listing, cleanup, i);
    BeyondNotCleanup(vms, listing, cleanup, j);
    EarlierCandidateIsTaken(vms, listing, cleanup, Min(n, |NotBusy(runners)|), i, j);
  }
}
