/**
 * What the listings of a section show of the two stores, and which runners the selections then
 * pick: cleanup exactly what is not wanted, scale-down only idle runners.
 */
module Snapshots {
  import opened Wrappers
  import opened Identifiers
  import opened PressureTarget
  import opened Runners
  import opened ScaleDown
  import opened Machine
  import opened Safety
  import opened Bounds

  function BusyIds(w: World): set<GitHubId> {
    set id | id in w.runners && w.runners[id].busy
  }

  /** Every busy runner sits on a VM that is not in error. */
  ghost predicate BusyPlaced(w: World) {
    forall id :: id in w.runners && w.runners[id].busy ==>
                   w.runners[id].instance in w.vms && w.vms[w.runners[id].instance].state != ERROR
  }

  /** The VM's runner is registered and cleanup has no reason to take it. */
  ghost predicate Wanted(w: World, v: InstanceID)
    requires v in w.vms
  {
    && v in w.issued && w.issued[v] in w.runners
    && w.vms[v].state != ERROR
    && var r := w.runners[w.issued[v]];
       r.online || r.busy || w.now - w.vms[v].createdAt <= 1380
  }

  ghost predicate NoDangling(w: World) {
    forall id :: id in w.runners ==> w.runners[id].instance in w.vms
  }

  /** Nothing for cleanup to do. */
  ghost predicate Clean(w: World) {
    NoDangling(w) && forall v :: v in w.vms ==> Wanted(w, v)
  }

  /** What a reconcile may start from. */
  ghost predicate Orderly(w: World) {
    Linked(w) && AllHaveIds(w) && BusyPlaced(w)
  }

  // ---------------------------------------------------------------- what the listing shows

  lemma {:induction false} HealthOfListed(w: World, listing: seq<ListedRunner>, v: InstanceID)
    requires Linked(w) && AllHaveIds(w) && Lists(listing, w.runners) && v in w.vms
    ensures var h := HealthOf(w.vms[v], RunnersByInstance(listing));
            && (h.deletable <==> w.issued[v] !in w.runners)
            && (w.issued[v] in w.runners ==>
                  h.online == w.runners[w.issued[v]].online && h.busy == w.runners[w.issued[v]].busy)
  {
    var byInstance, id := RunnersByInstance(listing), w.issued[v];
    if id in w.runners {
      assert w.runners[id].instance == v;
      var r := ListedRunner(id, v, w.runners[id].online, w.runners[id].busy);
      assert r in listing && r.instance in byInstance;
    }
    if v in byInstance {
      var found := byInstance[v];
      assert found in listing && found.id in w.runners;
    }
  }

  lemma {:induction false} UnwantedIffNotWanted(w: World, listing: seq<ListedRunner>, v: InstanceID)
    requires Linked(w) && AllHaveIds(w) && Lists(listing, w.runners) && v in w.vms
    ensures Unwanted(w.vms[v], listing, w.now) <==> !Wanted(w, v)
  {
    HealthOfListed(w, listing, v);
    HealthOfVm(w.vms[v], listing);
    hide ListedIdle, ListedBusy, RunnersByInstance, HealthOf, Lists;
  }

  lemma {:induction false} CountInstances(vms: seq<VM>)
    requires DistinctInstances(vms)
    ensures |Instances(vms)| == |vms|
  {
    if vms == [] {
    } else {
      var last, before := vms[|vms| - 1], vms[..|vms| - 1];
      assert vms == before + [last];
      CountInstances(before);
      assert Instances(vms) == Instances(before) + {last.instance};
    }
  }

  lemma {:induction false} SnapshotIsDistinct(w: World, vms: seq<VM>)
    requires Linked(w) && AllHaveIds(w) && Enumerates(vms, w.vms)
    ensures DistinctInstances(vms) && DistinctRunnerIds(vms)
    ensures |vms| == |w.vms| && Instances(vms) == w.vms.Keys
    ensures forall v :: v in w.vms ==> exists i :: 0 <= i < |vms| && vms[i] == w.vms[v]
  {
    forall v | v in w.vms ensures v in Instances(vms) {
      assert w.vms[v] in vms && w.vms[v].instance == v;
    }
    assert Instances(vms) == w.vms.Keys;
    CountInstances(vms);
  }

  /** The stored IDs of exactly the VMs that are not wanted, and the listed IDs without VM. */
  ghost predicate PicksUnwanted(w: World, chosen: set<RunnerId>) {
    && (forall v :: v in w.vms ==> v in w.issued && (Stored(w.issued[v]) in chosen <==> !Wanted(w, v)))
    && (forall id :: id in w.runners ==> (Listed(id) in chosen <==> w.runners[id].instance !in w.vms))
    && (forall id :: id in chosen ==>
          if id.Stored? then exists v :: v in w.vms && v in w.issued && w.issued[v] == id.n else id.n in w.runners)
  }

  lemma {:induction false} CleanupOfVm(w: World, vms: seq<VM>, listing: seq<ListedRunner>, v: InstanceID)
    requires Linked(w) && AllHaveIds(w) && Enumerates(vms, w.vms) && Lists(listing, w.runners) && v in w.vms
    ensures v in w.issued && (Stored(w.issued[v]) in CleanupSet(vms, listing, w.now) <==> !Wanted(w, v))
  {
    hide CleanupSet, Unwanted, Wanted, Lists;
    SnapshotIsDistinct(w, vms);
    var i :| 0 <= i < |vms| && vms[i] == w.vms[v];
    CleanupTakesUnwanted(vms, listing, w.now, i);
    UnwantedIffNotWanted(w, listing, v);
  }

  lemma {:induction false} CleanupOfRunner(w: World, vms: seq<VM>, listing: seq<ListedRunner>, id: GitHubId)
    requires Linked(w) && AllHaveIds(w) && Enumerates(vms, w.vms) && Lists(listing, w.runners) && id in w.runners
    ensures Listed(id) in CleanupSet(vms, listing, w.now) <==> w.runners[id].instance !in w.vms
  {
    hide CleanupSet;
    SnapshotIsDistinct(w, vms);
    CleanupTakesDangling(vms, listing, w.now, id);
    assert ListedRunner(id, w.runners[id].instance, w.runners[id].online, w.runners[id].busy) in listing;
  }

  lemma {:induction false} CleanupIsKnown(w: World, vms: seq<VM>, listing: seq<ListedRunner>, id: RunnerId)
    requires Linked(w) && AllHaveIds(w) && Enumerates(vms, w.vms) && Lists(listing, w.runners)
    requires id in CleanupSet(vms, listing, w.now)
    ensures if id.Stored? then exists v :: v in w.vms && v in w.issued && w.issued[v] == id.n else id.n in w.runners
  {
    hide CleanupSet;
    CleanupTakesDangling(vms, listing, w.now, id.n);
    if id.Stored? {
      var i :| 0 <= i < |vms| && vms[i].runnerId == Some(id.n);
      assert vms[i].instance in w.vms && w.issued[vms[i].instance] == id.n;
    }
  }

  lemma {:induction false} CleanupOfSnapshot(w: World, vms: seq<VM>, listing: seq<ListedRunner>)
    requires Linked(w) && AllHaveIds(w) && Enumerates(vms, w.vms) && Lists(listing, w.runners)
    ensures PicksUnwanted(w, CleanupSet(vms, listing, w.now))
  {
    hide CleanupSet, Wanted, Enumerates, Lists;
    var chosen := CleanupSet(vms, listing, w.now);
    forall v | v in w.vms ensures v in w.issued && (Stored(w.issued[v]) in chosen <==> !Wanted(w, v)) {
      CleanupOfVm(w, vms, listing, v);
    }
    forall id | id in w.runners ensures Listed(id) in chosen <==> w.runners[id].instance !in w.vms {
      CleanupOfRunner(w, vms, listing, id);
    }
    forall id | id in chosen
      ensures if id.Stored? then exists v :: v in w.vms && v in w.issued && w.issued[v] == id.n else id.n in w.runners
    {
      CleanupIsKnown(w, vms, listing, id);
    }
  }

  /** In an orderly world cleanup never picks the runner of a job. */
  lemma {:induction false} CleanupSparesBusy(w: World, chosen: set<RunnerId>)
    requires Orderly(w) && PicksUnwanted(w, chosen)
    ensures forall id :: id in chosen ==> id.n !in BusyIds(w)
  {
    forall n | n in BusyIds(w) ensures Stored(n) !in chosen && Listed(n) !in chosen {
      var v := w.runners[n].instance;
      assert v in w.vms && w.issued[v] == n && Wanted(w, v);
    }
    forall id | id in chosen ensures id.n !in BusyIds(w) {
      assert id == Stored(id.n) || id == Listed(id.n);
    }
  }

  lemma {:induction false} NothingToPickWhenClean(w: World, chosen: set<RunnerId>)
    requires Clean(w) && PicksUnwanted(w, chosen)
    ensures chosen == {}
  {
    hide Wanted;
    forall id: RunnerId ensures id !in chosen {
      assert id == Stored(id.n) || id == Listed(id.n);
    }
  }

  // ---------------------------------------------------------------- scale-down of a clean world

  lemma {:induction false} NotMarkedByNothing(hs: seq<Health>)
    requires forall i :: 0 <= i < |hs| ==> hs[i].vm.runnerId.Some?
    ensures NotMarked(hs, {}) == hs
  {
    if hs == [] {
    } else {
      NotMarkedByNothing(hs[1..]);
    }
  }

  function StoredIds(ids: set<GitHubId>): set<RunnerId> {
    set n <- ids :: Stored(n)
  }

  lemma {:induction false} CountStoredIds(ids: set<GitHubId>)
    ensures |StoredIds(ids)| == |ids|
  {
    if ids == {} {
    } else {
      var n :| n in ids;
      CountStoredIds(ids - {n});
      assert StoredIds(ids) == StoredIds(ids - {n}) + {Stored(n)};
    }
  }

  /** A health entry of a clean world: a registered runner, busy exactly if it runs a job. */
  ghost predicate EntryOfClean(w: World, h: Health) {
    && h.vm.instance in w.vms && h.vm.instance in w.issued
    && h.vm.runnerId == Some(w.issued[h.vm.instance])
    && (h.busy <==> w.issued[h.vm.instance] in BusyIds(w))
  }

  lemma {:induction false} HealthOfClean(w: World, vms: seq<VM>, listing: seq<ListedRunner>, i: nat)
    requires Linked(w) && AllHaveIds(w) && Clean(w) && Enumerates(vms, w.vms) && Lists(listing, w.runners)
    requires i < |vms|
    ensures EntryOfClean(w, HealthOf(vms[i], RunnersByInstance(listing)))
    ensures HealthOf(vms[i], RunnersByInstance(listing)).vm == vms[i] && vms[i].runnerId.Some?
  {
    assert vms[i].instance in w.vms && vms[i] == w.vms[vms[i].instance];
    HealthOfListed(w, listing, vms[i].instance);
    assert Wanted(w, vms[i].instance);
  }

  lemma {:induction false} BusyHaveEntries(w: World, vms: seq<VM>, health: seq<Health>)
    requires Linked(w) && AllHaveIds(w) && NoDangling(w) && Enumerates(vms, w.vms)
    requires |health| == |vms| && forall i :: 0 <= i < |vms| ==> health[i].vm == vms[i]
    ensures StoredIds(BusyIds(w)) <= IdsOf(health)
  {
    forall n | n in BusyIds(w) ensures Stored(n) in IdsOf(health) {
      var v := w.runners[n].instance;
      assert w.vms[v] in vms && w.issued[v] == n;
      var i :| 0 <= i < |vms| && vms[i] == w.vms[v];
      assert health[i] in health && health[i].vm.runnerId == Some(n);
    }
  }

  lemma {:induction false} HealthsOfClean(w: World, vms: seq<VM>, listing: seq<ListedRunner>, health: seq<Health>)
    requires Linked(w) && AllHaveIds(w) && Clean(w) && Enumerates(vms, w.vms) && Lists(listing, w.runners)
    requires health == RequestedHealth(vms, listing)
    ensures DistinctIds(health) && |health| == |w.vms|
    ensures forall h :: h in health ==> EntryOfClean(w, h)
    ensures StoredIds(BusyIds(w)) <= IdsOf(health)
  {
    hide EntryOfClean, HealthOf, RunnersByInstance, Wanted, Lists, RequestedHealth;
    SnapshotIsDistinct(w, vms);
    forall i | 0 <= i < |health|
      ensures EntryOfClean(w, health[i]) && health[i].vm == vms[i] && vms[i].runnerId.Some?
    {
      HealthOfClean(w, vms, listing, i);
    }
    BusyHaveEntries(w, vms, health);
    hide Linked, Clean, Enumerates, AllHaveIds;
  }

  lemma {:induction false} CountNotBusy(w: World, health: seq<Health>)
    requires DistinctIds(health)
    requires forall h :: h in health ==> EntryOfClean(w, h)
    requires StoredIds(BusyIds(w)) <= IdsOf(health)
    ensures |NotBusy(health)| == |health| - |BusyIds(w)|
  {
    NotBusyKeepsDistinctIds(health);
    DistinctIdsCount(health);
    DistinctIdsCount(NotBusy(health));
    CountStoredIds(BusyIds(w));
    assert IdsOf(NotBusy(health)) == IdsOf(health) - StoredIds(BusyIds(w));
  }

  /** The stored IDs of the VMs whose runners are not busy. */
  function IdleIds(w: World): set<RunnerId> {
    set v | v in w.vms && v in w.issued && w.issued[v] !in BusyIds(w) :: Stored(w.issued[v])
  }

  ghost predicate PicksIdle(w: World, chosen: set<RunnerId>) {
    chosen <= IdleIds(w)
  }

  lemma {:induction false} ScaleDownPicksIdle(w: World, health: seq<Health>, num: nat)
    requires DistinctIds(health)
    requires forall h :: h in health ==> EntryOfClean(w, h)
    requires StoredIds(BusyIds(w)) <= IdsOf(health)
    ensures |RunnersToScaleDown(health, num, true)| == Min(num, |health| - |BusyIds(w)|)
    ensures PicksIdle(w, RunnersToScaleDown(health, num, true))
  {
    CountNotBusy(w, health);
    ScaleDownSelection(health, num, true);
    var chosen := RunnersToScaleDown(health, num, true);
    forall id | id in chosen ensures id in IdleIds(w) {
      assert IsRunnerOf(health, id, true);
      var h :| h in health && h.vm.runnerId.Some? && id == Stored(h.vm.runnerId.value) && !h.busy;
      assert EntryOfClean(w, h);
    }
  }

  lemma {:induction false} SoftDeleteIsScaleDown(vms: seq<VM>, listing: seq<ListedRunner>, now: int, num: nat)
    requires CleanupSet(vms, listing, now) == {}
    requires forall i :: 0 <= i < |vms| ==> vms[i].runnerId.Some?
    ensures SoftDeleteSet(vms, listing, now, num) == RunnersToScaleDown(RequestedHealth(vms, listing), num, true)
  {
    hide CleanupSet, SoftDeleteSet, RunnersToScaleDown, NotMarked, RunnersByInstance, HealthOf;
    var health := RequestedHealth(vms, listing);
    forall i | 0 <= i < |health| ensures health[i].vm == vms[i] {
      HealthOfVm(vms[i], listing);
    }
    NotMarkedByNothing(health);
    CleanupIsMarked(vms, listing, now, num);
  }

  /** In a clean world a soft deletion picks min(num, idle) runners of VMs, none busy. */
  lemma {:induction false} SoftDeleteOfClean(w: World, vms: seq<VM>, listing: seq<ListedRunner>, num: nat)
    requires Orderly(w) && Clean(w) && Enumerates(vms, w.vms) && Lists(listing, w.runners)
    ensures var chosen := SoftDeleteSet(vms, listing, w.now, num);
            |chosen| == Min(num, |w.vms| - |BusyIds(w)|) && PicksIdle(w, chosen)
  {
    hide CleanupSet, SoftDeleteSet, RunnersToScaleDown, RequestedHealth, PicksIdle, PicksUnwanted;
    CleanupOfSnapshot(w, vms, listing);
    NothingToPickWhenClean(w, CleanupSet(vms, listing, w.now));
    SoftDeleteIsScaleDown(vms, listing, w.now, num);
    HealthsOfClean(w, vms, listing, RequestedHealth(vms, listing));
    ScaleDownPicksIdle(w, RequestedHealth(vms, listing), num);
  }
}
