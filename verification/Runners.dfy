/**
 * Runners as the manager sees them, and the selection of what to delete
 * (github_provider.py, github_client.py and the selectors of runner_manager.py).
 *
 * VM metadata keeps a runner ID as text, the GitHub listing yields it as an integer. The two
 * never compare equal, so they are kept apart here as Stored and Listed.
 */
module Runners {
  import opened Wrappers
  import opened Identifiers

  type GitHubId = n: int | 0 < n witness 1

  datatype RunnerId = Stored(n: GitHubId) | Listed(n: GitHubId)

  datatype VMState = CREATED | ACTIVE | DELETED | ERROR | STOPPED | UNKNOWN | UNEXPECTED

  /** A cloud VM; legacy VMs carry no runner ID. */
  datatype VM = VM(instance: InstanceID, runnerId: Option<GitHubId>, state: VMState, createdAt: int)

  datatype ListedRunner = ListedRunner(id: GitHubId, instance: InstanceID, online: bool, busy: bool)

  datatype Health = Health(vm: VM, online: bool, busy: bool, deletable: bool, inPlatform: bool)

  datatype FlushMode = FLUSH_IDLE | FLUSH_BUSY

  /** Server creation timeout, the five waits between health checks, and a buffer, in seconds. */
  const RUNNER_MAXIMUM_CREATION_TIME := 5 * 60 + (60 + 60 + 120 + 240 + 480) + 120

  predicate IsOlderThan(vm: VM, seconds: int, now: int) {
    now - vm.createdAt > seconds
  }

  // ---------------------------------------------------------------- listing with a prefix

  /** A runner as GitHub reports it, whoever it belongs to. */
  datatype RemoteRunner = RemoteRunner(id: GitHubId, name: string, online: bool, busy: bool)

  predicate ListedAs(remote: RemoteRunner, prefix: string, r: ListedRunner) {
    r.id == remote.id && r.online == remote.online && r.busy == remote.busy
    && BuildFromName(prefix, remote.name) == Success(r.instance)
  }

  function Managed(remotes: seq<RemoteRunner>, prefix: string): seq<ListedRunner> {
    if remotes == [] then []
    else
      var last := remotes[|remotes| - 1];
      var before := Managed(remotes[..|remotes| - 1], prefix);
      match BuildFromName(prefix, last.name)
      case Success(id) => before + [ListedRunner(last.id, id, last.online, last.busy)]
      case Failure(_) => before
  }

  method ListRunners(remotes: seq<RemoteRunner>, prefix: string) returns (managed: seq<ListedRunner>)
    ensures managed == Managed(remotes, prefix)
  {
    managed := [];
    for i := 0 to |remotes|
      invariant managed == Managed(remotes[..i], prefix)
    {
      assert remotes[..i + 1][..i] == remotes[..i];
      ParseThenPrint(prefix, remotes[i].name);
      if NameHasPrefix(prefix, remotes[i].name) {
        var id := BuildFromName(prefix, remotes[i].name).value;
        managed := managed + [ListedRunner(remotes[i].id, id, remotes[i].online, remotes[i].busy)];
      }
    }
    assert remotes[..|remotes|] == remotes;
  }

  /** The listing keeps every runner of the prefix under its own name, and no other runner. */
  lemma {:induction false} ListingIsExact(remotes: seq<RemoteRunner>, prefix: string)
    ensures forall x :: x in remotes && NameHasPrefix(prefix, x.name) ==>
                          exists r :: r in Managed(remotes, prefix) && ListedAs(x, prefix, r)
    ensures forall r :: r in Managed(remotes, prefix) ==>
                          r.instance.prefix == prefix
                          && RemoteRunner(r.id, r.instance.Name(), r.online, r.busy) in remotes
  {
    if remotes == [] {
    } else {
      var last, before := remotes[|remotes| - 1], remotes[..|remotes| - 1];
      ListingIsExact(before, prefix);
      ParseThenPrint(prefix, last.name);
      assert remotes == before + [last];
      forall x | x in remotes && NameHasPrefix(prefix, x.name)
        ensures exists r :: r in Managed(remotes, prefix) && ListedAs(x, prefix, r)
      {
        if x in before {
          var r :| r in Managed(before, prefix) && ListedAs(x, prefix, r);
          assert r in Managed(remotes, prefix);
        } else {
          var r := ListedRunner(x.id, BuildFromName(prefix, x.name).value, x.online, x.busy);
          assert r in Managed(remotes, prefix) && ListedAs(x, prefix, r);
        }
      }
    }
  }

  // ---------------------------------------------------------------- health of the requested VMs

  /** The dictionary from instance to listed runner; a later entry replaces an earlier one. */
  function RunnersByInstance(listing: seq<ListedRunner>): (m: map<InstanceID, ListedRunner>)
    ensures forall id :: id in m ==> m[id] in listing && m[id].instance == id
    ensures forall r :: r in listing ==> r.instance in m
  {
    if listing == [] then map[]
    else
      var last := listing[|listing| - 1];
      RunnersByInstance(listing[..|listing| - 1])[last.instance := last]
  }

  function HealthOf(vm: VM, byInstance: map<InstanceID, ListedRunner>): Health {
    if vm.instance in byInstance then
      Health(vm, byInstance[vm.instance].online, byInstance[vm.instance].busy, false, true)
    else
      Health(vm, false, false, true, false)
  }

  function RequestedHealth(vms: seq<VM>, listing: seq<ListedRunner>): (r: seq<Health>)
    ensures |r| == |vms|
    ensures forall i :: 0 <= i < |vms| ==> r[i] == HealthOf(vms[i], RunnersByInstance(listing))
  {
    seq(|vms|, i requires 0 <= i < |vms| => HealthOf(vms[i], RunnersByInstance(listing)))
  }

  function Instances(vms: seq<VM>): set<InstanceID> {
    set vm <- vms :: vm.instance
  }

  function NonRequested(vms: seq<VM>, listing: seq<ListedRunner>): (r: seq<ListedRunner>)
    ensures forall x :: x in r <==> x in listing && x.instance !in Instances(vms)
  {
    if listing == [] then []
    else
      var before := NonRequested(vms, listing[..|listing| - 1]);
      var last := listing[|listing| - 1];
      if last.instance in Instances(vms) then before else before + [last]
  }

  method GetRunnersHealth(vms: seq<VM>, listing: seq<ListedRunner>)
    returns (requested: seq<Health>, nonRequested: seq<ListedRunner>)
    ensures requested == RequestedHealth(vms, listing)
    ensures nonRequested == NonRequested(vms, listing)
  {
    var byInstance := RunnersByInstance(listing);
    requested := [];
    for i := 0 to |vms|
      invariant |requested| == i
      invariant forall k :: 0 <= k < i ==> requested[k] == HealthOf(vms[k], byInstance)
    {
      if vms[i].instance in byInstance {
        var runner := byInstance[vms[i].instance];
        requested := requested + [Health(vms[i], runner.online, runner.busy, false, true)];
      } else {
        requested := requested + [Health(vms[i], false, false, true, false)];
      }
    }
    nonRequested := NonRequested(vms, listing);
  }

  /**
   * One entry per VM, in order; an entry is deletable exactly when no listed runner bears the
   * VM's instance ID and otherwise reports such a runner; the non-requested list is the rest.
   */
  lemma {:induction false} HealthIsExact(vms: seq<VM>, listing: seq<ListedRunner>, i: nat)
    requires i < |vms|
    ensures |RequestedHealth(vms, listing)| == |vms|
    ensures var h := RequestedHealth(vms, listing)[i];
            && h.vm == vms[i]
            && (h.deletable <==> forall r :: r in listing ==> r.instance != vms[i].instance)
            && (h.deletable ==> !h.busy && !h.online)
            && h.inPlatform == !h.deletable
            && (!h.deletable ==>
                  exists r :: r in listing && r.instance == vms[i].instance
                              && r.online == h.online && r.busy == h.busy)
    ensures forall r :: r in listing ==>
                          ((exists v :: v in vms && v.instance == r.instance) <==> r !in NonRequested(vms, listing))
  {
    var byInstance := RunnersByInstance(listing);
    if vms[i].instance in byInstance {
      assert byInstance[vms[i].instance] in listing;
    }
  }

  // ---------------------------------------------------------------- what to clean up

  function VmsByInstance(vms: seq<VM>): (m: map<InstanceID, VM>)
    ensures forall id :: id in m ==> m[id] in vms && m[id].instance == id
    ensures forall vm :: vm in vms ==> vm.instance in m
  {
    if vms == [] then map[]
    else
      var last := vms[|vms| - 1];
      VmsByInstance(vms[..|vms| - 1])[last.instance := last]
  }

  function DanglingIds(nonRequested: seq<ListedRunner>): set<RunnerId> {
    set r <- nonRequested :: Listed(r.id)
  }

  function DeletableIds(requested: seq<Health>): set<RunnerId> {
    set h <- requested | h.deletable && h.vm.runnerId.Some? :: Stored(h.vm.runnerId.value)
  }

  function ErroredIds(requested: seq<Health>, vms: map<InstanceID, VM>): set<RunnerId> {
    set h <- requested
      | h.vm.runnerId.Some? && h.vm.instance in vms && vms[h.vm.instance].state == ERROR
      :: Stored(h.vm.runnerId.value)
  }

  function TimedOutIds(requested: seq<Health>, vms: map<InstanceID, VM>, now: int): set<RunnerId> {
    set h <- requested
      | h.vm.runnerId.Some? && !h.online && !h.busy && h.vm.instance in vms
        && IsOlderThan(vms[h.vm.instance], RUNNER_MAXIMUM_CREATION_TIME, now)
      :: Stored(h.vm.runnerId.value)
  }

  function RunnersToCleanup(
    requested: seq<Health>, nonRequested: seq<ListedRunner>, vms: seq<VM>, now: int): set<RunnerId>
  {
    var byInstance := VmsByInstance(vms);
    DanglingIds(nonRequested) + DeletableIds(requested)
    + ErroredIds(requested, byInstance) + TimedOutIds(requested, byInstance, now)
  }

  function RunnersToFlush(requested: seq<Health>, mode: FlushMode): set<RunnerId> {
    var onlineIdle := set h <- requested
                        | h.vm.runnerId.Some? && h.online && !h.busy :: Stored(h.vm.runnerId.value);
    var busy := set h <- requested
                  | h.vm.runnerId.Some? && mode == FLUSH_BUSY && Stored(h.vm.runnerId.value) !in onlineIdle
                  :: Stored(h.vm.runnerId.value);
    onlineIdle + busy
  }

  function VmsToCleanup(vms: seq<VM>, ids: set<RunnerId>): set<InstanceID> {
    (set vm <- vms | vm.runnerId.None? :: vm.instance)
    + (set vm <- vms | vm.runnerId.Some? && Stored(vm.runnerId.value) in ids :: vm.instance)
  }

  // ---------------------------------------------------------------- scale down

  /** deletable before idle before busy. */
  function Priority(h: Health): int {
    if h.deletable then 1 else if !h.busy then 2 else 3
  }

  predicate SortedByPriority(hs: seq<Health>) {
    forall i, j :: 0 <= i < j < |hs| ==> Priority(hs[i]) <= Priority(hs[j])
  }

  function Insert(h: Health, hs: seq<Health>): (r: seq<Health>)
    ensures multiset(r) == multiset(hs) + multiset{h}
    ensures |r| == |hs| + 1
  {
    if hs == [] || Priority(h) <= Priority(hs[0]) then [h] + hs
    else
      assert hs == [hs[0]] + hs[1..];
      [hs[0]] + Insert(h, hs[1..])
  }

  lemma {:induction false} InsertKeepsOrder(h: Health, hs: seq<Health>)
    requires SortedByPriority(hs)
    ensures SortedByPriority(Insert(h, hs))
    ensures Priority(Insert(h, hs)[0]) == if hs == [] then Priority(h) else Min(Priority(h), Priority(hs[0]))
  {
    if hs == [] {
    } else if Priority(h) > Priority(hs[0]) {
      InsertKeepsOrder(h, hs[1..]);
    }
  }

  /** The stable sort of the source: an element goes before later ones of the same priority. */
  function Sorted(hs: seq<Health>): (r: seq<Health>)
    ensures multiset(r) == multiset(hs)
    ensures |r| == |hs|
  {
    if hs == [] then []
    else
      assert hs == [hs[0]] + hs[1..];
      Insert(hs[0], Sorted(hs[1..]))
  }

  lemma {:induction false} SortedIsOrdered(hs: seq<Health>)
    ensures SortedByPriority(Sorted(hs))
  {
    if hs == [] {
    } else {
      SortedIsOrdered(hs[1..]);
      InsertKeepsOrder(hs[0], Sorted(hs[1..]));
    }
  }

  function OfPriority(hs: seq<Health>, p: int): seq<Health> {
    if hs == [] then []
    else (if Priority(hs[0]) == p then [hs[0]] else []) + OfPriority(hs[1..], p)
  }

  lemma {:induction false} InsertIsFirst(h: Health, hs: seq<Health>, p: int)
    ensures OfPriority(Insert(h, hs), p) == (if Priority(h) == p then [h] else []) + OfPriority(hs, p)
  {
    if hs == [] || Priority(h) <= Priority(hs[0]) {
      assert ([h] + hs)[1..] == hs;
    } else {
      InsertIsFirst(h, hs[1..], p);
      assert ([hs[0]] + Insert(h, hs[1..]))[1..] == Insert(h, hs[1..]);
    }
  }

  /** The sort is stable: runners of one priority keep their order. */
  lemma {:induction false} SortedIsStable(hs: seq<Health>, p: int)
    ensures OfPriority(Sorted(hs), p) == OfPriority(hs, p)
  {
    if hs == [] {
    } else {
      SortedIsStable(hs[1..], p);
      InsertIsFirst(hs[0], Sorted(hs[1..]), p);
    }
  }

  lemma {:induction false} AllOfPriority(hs: seq<Health>, p: int)
    ensures (forall h :: h in hs ==> Priority(h) == p) ==> OfPriority(hs, p) == hs
  {
    if hs == [] {
    } else {
      AllOfPriority(hs[1..], p);
    }
  }

  function NotBusy(hs: seq<Health>): (r: seq<Health>)
    ensures |r| <= |hs|
    ensures forall h :: h in r <==> h in hs && !h.busy
  {
    if hs == [] then []
    else (if hs[0].busy then [] else [hs[0]]) + NotBusy(hs[1..])
  }

  function IdsOf(hs: seq<Health>): set<RunnerId> {
    set h <- hs | h.vm.runnerId.Some? :: Stored(h.vm.runnerId.value)
  }

  function RunnersToScaleDown(runners: seq<Health>, num: nat, soft: bool): set<RunnerId> {
    var candidates := if soft then NotBusy(runners) else runners;
    IdsOf(Sorted(candidates)[..Min(num, |candidates|)])
  }

  function NotMarked(requested: seq<Health>, marked: set<RunnerId>): (r: seq<Health>)
    ensures |r| <= |requested|
    ensures forall h :: h in r <==>
                          h in requested && h.vm.runnerId.Some? && Stored(h.vm.runnerId.value) !in marked
  {
    if requested == [] then []
    else
      var h := requested[0];
      (if h.vm.runnerId.Some? && Stored(h.vm.runnerId.value) !in marked then [h] else [])
      + NotMarked(requested[1..], marked)
  }

  /** The runners taken beyond those marked for cleanup, which count towards `num`. */
  function BeyondCleanup(requested: seq<Health>, cleanup: set<RunnerId>, num: int, soft: bool): set<RunnerId> {
    RunnersToScaleDown(NotMarked(requested, cleanup), Max(num - |cleanup|, 0), soft)
  }

  /** Everything `_delete_runners_core` asks GitHub to delete. */
  function RunnersToDelete(
    requested: seq<Health>, nonRequested: seq<ListedRunner>, vms: seq<VM>, now: int, num: int, soft: bool)
    : set<RunnerId>
  {
    var cleanup := RunnersToCleanup(requested, nonRequested, vms, now);
    cleanup + BeyondCleanup(requested, cleanup, num, soft)
  }

  // ---------------------------------------------------------------- selection theorems

  /** Every entry has a runner ID and no two entries share one. */
  predicate DistinctIds(hs: seq<Health>) {
    && (forall i :: 0 <= i < |hs| ==> hs[i].vm.runnerId.Some?)
    && (forall i, j :: 0 <= i < j < |hs| ==> hs[i].vm.runnerId != hs[j].vm.runnerId)
  }

  lemma {:induction false} DistinctIdsCount(hs: seq<Health>)
    requires DistinctIds(hs)
    ensures |IdsOf(hs)| == |hs|
  {
    if hs == [] {
    } else {
      var last, before := hs[|hs| - 1], hs[..|hs| - 1];
      assert hs == before + [last];
      DistinctIdsCount(before);
      assert IdsOf(hs) == IdsOf(before) + {Stored(last.vm.runnerId.value)};
    }
  }

  lemma {:induction false} IdsAtMost(hs: seq<Health>)
    ensures |IdsOf(hs)| <= |hs|
  {
    if hs == [] {
    } else {
      var last, before := hs[|hs| - 1], hs[..|hs| - 1];
      assert hs == before + [last];
      IdsAtMost(before);
      var own := if last.vm.runnerId.Some? then {Stored(last.vm.runnerId.value)} else {};
      assert IdsOf(hs) == IdsOf(before) + own;
      assert |own| <= 1;
    }
  }

  lemma {:induction false} SortedHasTheSameElements(hs: seq<Health>)
    ensures forall h :: h in Sorted(hs) <==> h in hs
    ensures IdsOf(Sorted(hs)) == IdsOf(hs)
  {
    forall h ensures h in Sorted(hs) <==> h in hs {
      assert h in multiset(Sorted(hs)) <==> h in multiset(hs);
    }
  }

  /** If all entries have different IDs, any first n of them have n different IDs. */
  lemma {:induction false} PrefixCount(hs: seq<Health>, n: nat)
    requires |IdsOf(hs)| == |hs| && n <= |hs|
    ensures |IdsOf(hs[..n])| == n
  {
    IdsAtMost(hs[..n]);
    IdsAtMost(hs[n..]);
    assert hs == hs[..n] + hs[n..];
    assert IdsOf(hs) == IdsOf(hs[..n]) + IdsOf(hs[n..]);
  }

  /** Scale-down never takes more than it was asked for. */
  lemma {:induction false} ScaleDownTakesAtMost(runners: seq<Health>, num: nat, soft: bool)
    ensures |RunnersToScaleDown(runners, num, soft)| <= num
  {
    var candidates := if soft then NotBusy(runners) else runners;
    IdsAtMost(Sorted(candidates)[..Min(num, |candidates|)]);
  }

  lemma {:induction false} NotBusyKeepsDistinctIds(hs: seq<Health>)
    requires DistinctIds(hs)
    ensures DistinctIds(NotBusy(hs))
  {
    if hs == [] {
    } else {
      NotBusyKeepsDistinctIds(hs[1..]);
    }
  }

  lemma {:induction false} NotMarkedKeepsDistinctIds(hs: seq<Health>, marked: set<RunnerId>)
    requires forall i, j :: 0 <= i < j < |hs| && hs[i].vm.runnerId.Some? ==> hs[i].vm.runnerId != hs[j].vm.runnerId
    ensures DistinctIds(NotMarked(hs, marked))
  {
    if hs == [] {
    } else {
      NotMarkedKeepsDistinctIds(hs[1..], marked);
    }
  }

  /** In the source's words: deletable before idle, idle before busy. */
  predicate GoesBefore(h: Health, k: Health) {
    (h.deletable && !k.deletable) || (!h.deletable && !k.deletable && !h.busy && k.busy)
  }

  /** The ID belongs to one of the runners, and in soft mode to one that is not busy. */
  ghost predicate IsRunnerOf(runners: seq<Health>, id: RunnerId, soft: bool) {
    exists h :: h in runners && h.vm.runnerId.Some? && id == Stored(h.vm.runnerId.value) && (soft ==> !h.busy)
  }

  lemma {:induction false} SameIdSameRunner(runners: seq<Health>, a: Health, b: Health)
    requires DistinctIds(runners) && a in runners && b in runners && a.vm.runnerId == b.vm.runnerId
    ensures a == b
  {
    var i :| 0 <= i < |runners| && runners[i] == a;
    var j :| 0 <= j < |runners| && runners[j] == b;
  }

  lemma {:induction false} ChosenInOrder(runners: seq<Health>, sorted: seq<Health>, n: nat, h: Health, k: Health)
    requires DistinctIds(runners) && (forall x :: x in sorted ==> x in runners)
    requires SortedByPriority(sorted) && n <= |sorted| && h in sorted && k in runners
    requires Priority(h) < Priority(k)
    requires Stored(k.vm.runnerId.value) in IdsOf(sorted[..n])
    ensures h in sorted[..n]
  {
    var k' :| k' in sorted[..n] && k'.vm.runnerId.Some? && k'.vm.runnerId.value == k.vm.runnerId.value;
    assert k' in sorted;
    SameIdSameRunner(runners, k, k');
    var j :| 0 <= j < n && sorted[j] == k;
    var i :| 0 <= i < |sorted| && sorted[i] == h;
    assert i < j;
    assert sorted[..n][i] == h;
  }

  /**
   * Soft scale-down picks exactly as many distinct runners as asked for or available, none busy;
   * the hard one picks a busy runner only after every runner that is not.
   */
  lemma {:induction false} ScaleDownSelection(runners: seq<Health>, num: nat, soft: bool)
    requires DistinctIds(runners)
    ensures var chosen := RunnersToScaleDown(runners, num, soft);
            && |chosen| == Min(num, |if soft then NotBusy(runners) else runners|)
            && (forall id :: id in chosen ==> IsRunnerOf(runners, id, soft))
    ensures forall h, k :: h in runners && k in runners && GoesBefore(h, k) && (soft ==> !h.busy)
                           && Stored(k.vm.runnerId.value) in RunnersToScaleDown(runners, num, soft)
                           ==> Stored(h.vm.runnerId.value) in RunnersToScaleDown(runners, num, soft)
  {
    var candidates := if soft then NotBusy(runners) else runners;
    NotBusyKeepsDistinctIds(runners);
    var n := Min(num, |candidates|);
    SortedHasTheSameElements(candidates);
    DistinctIdsCount(candidates);
    PrefixCount(Sorted(candidates), n);
    SortedIsOrdered(candidates);
    var chosen := IdsOf(Sorted(candidates)[..n]);
    forall id | id in chosen ensures IsRunnerOf(runners, id, soft) {
      var h :| h in Sorted(candidates)[..n] && h.vm.runnerId.Some? && id == Stored(h.vm.runnerId.value);
      assert h in Sorted(candidates);
    }
    forall h, k | h in runners && k in runners && GoesBefore(h, k)
                  && (soft ==> !h.busy) && Stored(k.vm.runnerId.value) in chosen
      ensures Stored(h.vm.runnerId.value) in chosen
    {
      ChosenInOrder(runners, Sorted(candidates), n, h, k);
    }
  }

  // ---------------------------------------------------------------- the order of the selection

  lemma {:induction false} NotMarkedStep(hs: seq<Health>, marked: set<RunnerId>)
    ensures NotMarked([], marked) == []
    ensures hs != [] ==>
              var h := hs[0];
              NotMarked(hs, marked) ==
              (if h.vm.runnerId.Some? && Stored(h.vm.runnerId.value) !in marked then [h] else [])
              + NotMarked(hs[1..], marked)
  {}

  lemma {:induction false} NotBusyStep(hs: seq<Health>)
    ensures NotBusy([]) == []
    ensures hs != [] ==> NotBusy(hs) == (if hs[0].busy then [] else [hs[0]]) + NotBusy(hs[1..])
  {}

  lemma {:induction false} Associate<T>(a: seq<T>, b: seq<T>, c: seq<T>)
    ensures (a + b) + c == a + (b + c)
  {}

  lemma {:induction false} NotMarkedSplits(a: seq<Health>, b: seq<Health>, marked: set<RunnerId>)
    ensures NotMarked(a + b, marked) == NotMarked(a, marked) + NotMarked(b, marked)
  {
    hide NotMarked;
    NotMarkedStep(a, marked);
    if a == [] {
      assert a + b == b;
    } else {
      var h := a[0];
      NotMarkedSplits(a[1..], b, marked);
      NotMarkedStep(a + b, marked);
      assert (a + b)[0] == h && (a + b)[1..] == a[1..] + b;
      Associate(if h.vm.runnerId.Some? && Stored(h.vm.runnerId.value) !in marked then [h] else [],
                NotMarked(a[1..], marked), NotMarked(b, marked));
    }
  }

  lemma {:induction false} NotBusySplits(a: seq<Health>, b: seq<Health>)
    ensures NotBusy(a + b) == NotBusy(a) + NotBusy(b)
  {
    hide NotBusy;
    NotBusyStep(a);
    if a == [] {
      assert a + b == b;
    } else {
      NotBusySplits(a[1..], b);
      NotBusyStep(a + b);
      assert (a + b)[0] == a[0] && (a + b)[1..] == a[1..] + b;
      Associate(if a[0].busy then [] else [a[0]], NotBusy(a[1..]), NotBusy(b));
    }
  }

  /** If no runner is deletable, a soft scale-down takes the first idle ones in the order given. */
  lemma {:induction false} SoftTakesFirst(runners: seq<Health>, num: nat)
    requires forall h :: h in runners ==> !h.deletable
    ensures RunnersToScaleDown(runners, num, true) == IdsOf(NotBusy(runners)[..Min(num, |NotBusy(runners)|)])
  {
    var candidates := NotBusy(runners);
    SortedHasTheSameElements(candidates);
    SortedIsStable(candidates, 2);
    AllOfPriority(candidates, 2);
    AllOfPriority(Sorted(candidates), 2);
  }

  /** Of two of them the later is taken only if the earlier is. */
  lemma {:induction false} EarlierIsTaken(a: seq<Health>, b: seq<Health>, n: nat, h: Health, k: Health)
    requires DistinctIds(a + b) && n <= |a + b| && h in a && k in b
    requires h.vm.runnerId.Some? && k.vm.runnerId.Some? && Stored(k.vm.runnerId.value) in IdsOf((a + b)[..n])
    ensures Stored(h.vm.runnerId.value) in IdsOf((a + b)[..n])
  {
    var k' :| k' in (a + b)[..n] && k'.vm.runnerId.Some? && k'.vm.runnerId.value == k.vm.runnerId.value;
    assert k in a + b && k' in a + b;
    SameIdSameRunner(a + b, k, k');
    var i :| 0 <= i < n && (a + b)[i] == k;
    var j :| 0 <= j < |b| && b[j] == k;
    assert (a + b)[|a| + j] == k;
    assert i == |a| + j;
    var x :| 0 <= x < |a| && a[x] == h;
    assert (a + b)[..n][x] == h;
  }
}
