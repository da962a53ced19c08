/**
 * A fault-free timer reconcile in a quiet environment converges in one section, in whatever order
 * its parallel workers finish.
 */
module Convergence {
  import opened Wrappers
  import opened Identifiers
  import opened PressureTarget
  import opened Runners
  import opened ScaleDown
  import opened Machine
  import opened Safety
  import opened Bounds
  import opened Snapshots

  /** The VM's runner is gone, so nothing is lost with it. */
  predicate Unregistered(w: World, v: InstanceID) {
    v in w.issued && w.issued[v] !in w.runners
  }

  /** Runner deletion of a cleanup: what is not wanted is what was chosen. */
  ghost predicate CleaningRunners(w: World, p: Phase)
    requires p.SweepRunners?
  {
    && Enumerates(p.vms, w.vms)
    && p.chosen == p.todo + p.deleted
    && (forall id :: id in p.todo ==> id.n !in BusyIds(w))
    && (forall id :: id in p.deleted ==> id.n !in w.runners)
    && (forall v :: v in w.vms ==> v in w.issued && (Stored(w.issued[v]) in p.chosen <==> !Wanted(w, v)))
    && (forall id :: id in w.runners && w.runners[id].instance !in w.vms ==> Listed(id) in p.todo)
    && (forall id :: id in w.runners && Listed(id) in p.chosen ==> w.runners[id].instance !in w.vms)
  }

  /** VM deletion of a cleanup: exactly the VMs not wanted are left to delete. */
  ghost predicate CleaningVms(w: World, p: Phase)
    requires p.SweepVms?
  {
    && NoDangling(w)
    && (forall v :: v in w.vms ==> (v in p.left <==> !Wanted(w, v)))
    && (forall v :: v in p.left ==> Unregistered(w, v))
  }

  /** Runner deletion of a scale-down from a clean world. */
  ghost predicate ShrinkingRunners(w: World, p: Phase)
    requires p.SweepRunners?
  {
    && Enumerates(p.vms, w.vms)
    && p.chosen == p.todo + p.deleted
    && PicksIdle(w, p.chosen)
    && (forall id :: id in p.deleted ==> id.n !in w.runners)
    && NoDangling(w)
    && (forall v :: v in w.vms ==> v in w.issued && (Wanted(w, v) || Stored(w.issued[v]) in p.deleted))
  }

  /** VM deletion of a scale-down. */
  ghost predicate ShrinkingVms(w: World, p: Phase, take: int, total: int)
    requires p.SweepVms?
  {
    && p.left <= w.vms.Keys && p.left !! p.gone
    && |p.gone| + |p.left| == take && |w.vms| == total - |p.gone|
    && NoDangling(w)
    && (forall v :: v in w.vms ==> v in p.left || Wanted(w, v))
    && (forall v :: v in p.left ==> Unregistered(w, v))
  }

  /** A creation in which nothing has failed: who is registered and who is launched. */
  ghost predicate GrowingLinks(w: World, p: Phase)
    requires p.Creating?
  {
    && (forall v :: v in w.vms ==> Wanted(w, v))
    && (forall id :: id in w.runners ==> w.runners[id].instance in w.vms || w.runners[id].instance in p.pending)
    && (forall v :: v in p.pending ==>
          v !in w.vms && v in w.issued && w.issued[v] in w.runners && w.runners[w.issued[v]].instance == v)
  }

  /** Every worker accounted for. */
  ghost predicate GrowingCounts(w: World, p: Phase)
    requires p.Creating?
  {
    && p.undo == {} && p.pending !! p.created && p.created <= w.vms.Keys
    && |w.vms| == p.base + |p.created|
    && p.unstarted >= 0 && |p.created| + |p.pending| + p.unstarted == p.num
  }

  ghost predicate Growing(w: World, p: Phase)
    requires p.Creating?
  {
    GrowingLinks(w, p) && GrowingCounts(w, p)
  }

  /** The result: the desired number of VMs, or the busy ones if they are more, and nothing odd. */
  ghost predicate Converged(s: State, desired: int, busy: set<GitHubId>) {
    && Clean(s.world)
    && |s.world.vms| == Max(desired, |busy|) && s.ctl.count == |s.world.vms|
  }

  /** The progress of a quiet timer section towards `desired`, its busy runners being `busy`. */
  ghost predicate Converging(s: State, desired: int, busy: set<GitHubId>) {
    && Orderly(s.world) && BusyIds(s.world) == busy
    && match s.phase
       case SweepStart(Cleanup(d)) => d == desired
       case SweepListed(Cleanup(d), vms) => d == desired && Enumerates(vms, s.world.vms)
       case SweepRunners(Cleanup(d), _, _, _, _) => d == desired && CleaningRunners(s.world, s.phase)
       case SweepVms(Cleanup(d), _, _, _) => d == desired && CleaningVms(s.world, s.phase)
       case TimerCount(d) => d == desired && Clean(s.world)
       case Tallied(n, goal) => goal == Some(desired) && n == |s.world.vms| && Clean(s.world)
       case SweepStart(Soft(num, total)) =>
         Clean(s.world) && num == total - desired > 0 && total == |s.world.vms|
       case SweepListed(Soft(num, total), vms) =>
         Clean(s.world) && num == total - desired > 0 && total == |s.world.vms| && Enumerates(vms, s.world.vms)
       case SweepRunners(Soft(num, total), _, _, _, _) =>
         && num == total - desired > 0 && total == |s.world.vms|
         && |s.phase.chosen| == Min(num, total - |busy|)
         && ShrinkingRunners(s.world, s.phase)
       case SweepVms(Soft(num, total), _, _, _) =>
         && num == total - desired > 0
         && ShrinkingVms(s.world, s.phase, Min(num, total - |busy|), total)
       case Creating(_, base, num, _, _, _, _) => base + num == desired && Growing(s.world, s.phase)
       case Free => Converged(s, desired, busy)
       case _ => false
  }

  lemma {:induction false} CreatingConverges(s: State, desired: int, busy: set<GitHubId>)
    requires Orderly(s.world) && BusyIds(s.world) == busy
    requires s.phase.Creating? && s.phase.base + s.phase.num == desired
    requires GrowingLinks(s.world, s.phase) && GrowingCounts(s.world, s.phase)
    ensures Converging(s, desired, busy)
  {
    hide Orderly, BusyIds, GrowingLinks, GrowingCounts;
  }

  lemma {:induction false} ShrinkingConverges(s: State, desired: int, busy: set<GitHubId>)
    requires Orderly(s.world) && BusyIds(s.world) == busy
    requires s.phase.SweepRunners? && s.phase.sweep.Soft?
    requires var num, total := s.phase.sweep.num, s.phase.sweep.total;
             && num == total - desired > 0 && total == |s.world.vms|
             && |s.phase.chosen| == Min(num, total - |busy|)
             && ShrinkingRunners(s.world, s.phase)
    ensures Converging(s, desired, busy)
  {
    hide Orderly, BusyIds, ShrinkingRunners;
  }

  lemma {:induction false} CountHosts(w: World, ids: set<GitHubId>)
    requires Linked(w) && ids <= w.runners.Keys
    ensures |set id <- ids :: w.runners[id].instance| == |ids|
  {
    if ids == {} {
    } else {
      var n :| n in ids;
      CountHosts(w, ids - {n});
      var rest := set id <- ids - {n} :: w.runners[id].instance;
      assert w.runners[n].instance !in rest;
      assert (set id <- ids :: w.runners[id].instance) == rest + {w.runners[n].instance};
    }
  }

  lemma {:induction false} BusyFitOnVms(w: World)
    requires Orderly(w)
    ensures |BusyIds(w)| <= |w.vms|
  {
    var hosts := set id <- BusyIds(w) :: w.runners[id].instance;
    CountHosts(w, BusyIds(w));
    SubsetIsSmaller(hosts, w.vms.Keys);
    assert |w.vms.Keys| == |w.vms|;
  }

  /** What a section may choose in an orderly world. */
  ghost predicate GoodChoice(sweep: Sweep, w: World, chosen: set<RunnerId>) {
    match sweep
    case Cleanup(_) => PicksUnwanted(w, chosen)
    case Soft(num, total) => PicksIdle(w, chosen) && |chosen| == Min(num, |w.vms| - |BusyIds(w)|)
    case _ => false
  }

  lemma {:induction false} ChoiceIsGood(sweep: Sweep, w: World, vms: seq<VM>, listing: seq<ListedRunner>)
    requires Orderly(w) && Enumerates(vms, w.vms) && Lists(listing, w.runners)
    requires sweep.Cleanup? || (sweep.Soft? && sweep.num >= 0 && Clean(w))
    ensures GoodChoice(sweep, w, Choose(sweep, vms, listing, w.now))
  {
    match sweep
    case Cleanup(_) => CleanupOfSnapshot(w, vms, listing);
    case Soft(num, _) => SoftDeleteOfClean(w, vms, listing, num);
    case _ =>
  }

  lemma {:induction false} GoodChoiceConverges(s: State, chosen: set<RunnerId>, desired: int, busy: set<GitHubId>)
    requires Converging(s, desired, busy) && s.phase.SweepListed? && GoodChoice(s.phase.sweep, s.world, chosen)
    ensures Converging(s.(phase := SweepRunners(s.phase.sweep, s.phase.vms, chosen, chosen, {})), desired, busy)
  {
    if s.phase.sweep.Cleanup? {
      CleanupSparesBusy(s.world, chosen);
    }
  }

  lemma {:induction false} ListRunnersConverges(s: State, listing: seq<ListedRunner>, desired: int, busy: set<GitHubId>)
    requires Converging(s, desired, busy) && s.phase.SweepListed? && Lists(listing, s.world.runners)
    ensures Converging(s.(phase := SweepRunners(s.phase.sweep, s.phase.vms,
                                                Choose(s.phase.sweep, s.phase.vms, listing, s.world.now),
                                                Choose(s.phase.sweep, s.phase.vms, listing, s.world.now), {})),
                       desired, busy)
  {
    ChoiceIsGood(s.phase.sweep, s.world, s.phase.vms, listing);
    GoodChoiceConverges(s, Choose(s.phase.sweep, s.phase.vms, listing, s.world.now), desired, busy);
  }

  lemma {:induction false} DeregisteringIdle(w: World, id: GitHubId)
    requires Orderly(w) && id !in BusyIds(w)
    ensures !Refused(w, id)
    ensures Orderly(Deregister(w, id)) && BusyIds(Deregister(w, id)) == BusyIds(w)
    ensures forall v :: v in w.vms && w.issued[v] != id ==> (Wanted(Deregister(w, id), v) <==> Wanted(w, v))
    ensures forall v :: v in w.vms && w.issued[v] == id ==> !Wanted(Deregister(w, id), v)
    ensures IdleIds(Deregister(w, id)) == IdleIds(w)
  {
    assert BusyIds(Deregister(w, id)) == BusyIds(w);
  }

  lemma {:induction false} MoveOne<T>(a: set<T>, b: set<T>, x: T)
    requires x in a
    ensures (a - {x}) + (b + {x}) == a + b
  {
  }

  lemma {:induction false} CleaningStep(w: World, p: Phase, id: RunnerId)
    requires p.SweepRunners? && Orderly(w) && CleaningRunners(w, p) && id in p.todo
    ensures CleaningRunners(Deregister(w, id.n), p.(todo := p.todo - {id}, deleted := p.deleted + {id}))
  {
    DeregisteringIdle(w, id.n);
    if id.Listed? && id.n in w.runners {
      assert forall v :: v in w.vms ==> w.issued[v] != id.n;
    }
  }

  lemma {:induction false} ShrinkingStep(w: World, p: Phase, id: RunnerId)
    requires p.SweepRunners? && Orderly(w) && ShrinkingRunners(w, p) && id in p.todo
    ensures ShrinkingRunners(Deregister(w, id.n), p.(todo := p.todo - {id}, deleted := p.deleted + {id}))
  {
    assert id in IdleIds(w);
    assert id.n !in BusyIds(w) && id == Stored(id.n);
    DeregisteringIdle(w, id.n);
    MoveOne(p.todo, p.deleted, id);
  }

  lemma {:induction false} TodoIsIdle(s: State, id: RunnerId, desired: int, busy: set<GitHubId>)
    requires Converging(s, desired, busy) && s.phase.SweepRunners? && id in s.phase.todo
    ensures id.n !in BusyIds(s.world)
  {
  }

  lemma {:induction false} DeleteRunnerInCleanup(s: State, id: RunnerId, desired: int, busy: set<GitHubId>)
    requires Converging(s, desired, busy) && s.phase.SweepRunners? && s.phase.sweep.Cleanup? && id in s.phase.todo
    ensures Converging(DeleteOneRunner(s, id), desired, busy)
  {
    TodoIsIdle(s, id, desired, busy);
    DeregisteringIdle(s.world, id.n);
    CleaningStep(s.world, s.phase, id);
    hide CleaningRunners, Orderly, BusyIds;
  }

  lemma {:induction false} DeleteRunnerInScaleDown(s: State, id: RunnerId, desired: int, busy: set<GitHubId>)
    requires Converging(s, desired, busy) && s.phase.SweepRunners? && s.phase.sweep.Soft? && id in s.phase.todo
    ensures Converging(DeleteOneRunner(s, id), desired, busy)
  {
    hide ShrinkingRunners, Orderly, BusyIds;
    TodoIsIdle(s, id, desired, busy);
    DeregisteringIdle(s.world, id.n);
    ShrinkingStep(s.world, s.phase, id);
    ShrinkingConverges(DeleteOneRunner(s, id), desired, busy);
  }

  lemma {:induction false} DeleteRunnerConverges(s: State, id: RunnerId, desired: int, busy: set<GitHubId>)
    requires Converging(s, desired, busy)
    ensures Converging(DeleteOneRunner(s, id), desired, busy)
  {
    if s.phase.SweepRunners? && id in s.phase.todo {
      if s.phase.sweep.Cleanup? {
        DeleteRunnerInCleanup(s, id, desired, busy);
      } else {
        DeleteRunnerInScaleDown(s, id, desired, busy);
      }
    }
  }

  lemma {:induction false} TargetsOfSnapshot(w: World, vms: seq<VM>, ids: set<RunnerId>)
    requires Linked(w) && AllHaveIds(w) && Enumerates(vms, w.vms)
    ensures forall v :: v in VmsToCleanup(vms, ids) <==> v in w.vms && Stored(w.issued[v]) in ids
  {
    SnapshotIsDistinct(w, vms);
    forall v ensures v in VmsToCleanup(vms, ids) <==> v in w.vms && Stored(w.issued[v]) in ids {
      if v in w.vms {
        var i :| 0 <= i < |vms| && vms[i] == w.vms[v];
      }
    }
  }

  /** One VM per chosen runner. */
  lemma {:induction false} CountTargets(w: World, targets: set<InstanceID>, ids: set<RunnerId>)
    requires Linked(w) && forall id :: id in ids ==> id.Stored?
    requires forall v :: v in targets ==> v in w.issued && Stored(w.issued[v]) in ids
    requires forall id :: id in ids ==> exists v :: v in targets && v in w.issued && w.issued[v] == id.n
    ensures |targets| == |ids|
  {
    if ids == {} {
      assert targets == {};
    } else {
      var id :| id in ids;
      var v :| v in targets && v in w.issued && w.issued[v] == id.n;
      forall k | k in ids - {id} ensures exists u :: u in targets - {v} && u in w.issued && w.issued[u] == k.n {
        var u :| u in targets && u in w.issued && w.issued[u] == k.n;
        assert k == Stored(k.n);
      }
      CountTargets(w, targets - {v}, ids - {id});
    }
  }

  lemma {:induction false} FinishCleaning(w: World, p: Phase)
    requires p.SweepRunners? && Orderly(w) && CleaningRunners(w, p) && p.todo == {}
    ensures var targets := VmsToCleanup(p.vms, p.deleted);
            CleaningVms(w, SweepVms(p.sweep, targets, targets, {}))
  {
    assert p.chosen == p.deleted;
    TargetsOfSnapshot(w, p.vms, p.deleted);
  }

  lemma {:induction false} IdleIdsHaveVms(w: World, chosen: set<RunnerId>)
    requires PicksIdle(w, chosen)
    ensures forall id :: id in chosen ==>
                           id.Stored? && id == Stored(id.n) && exists v :: v in w.vms && v in w.issued && w.issued[v] == id.n
  {
  }

  lemma {:induction false} FinishShrinking(w: World, p: Phase)
    requires p.SweepRunners? && Orderly(w) && ShrinkingRunners(w, p) && p.todo == {}
    ensures var targets := VmsToCleanup(p.vms, p.deleted);
            && targets <= w.vms.Keys && |targets| == |p.chosen| && NoDangling(w)
            && (forall v :: v in w.vms ==> v in targets || Wanted(w, v))
            && (forall v :: v in targets ==> Unregistered(w, v))
  {
    var targets := VmsToCleanup(p.vms, p.deleted);
    assert p.chosen == p.deleted;
    TargetsOfSnapshot(w, p.vms, p.deleted);
    IdleIdsHaveVms(w, p.chosen);
    CountTargets(w, targets, p.chosen);
  }

  lemma {:induction false} FinishRunnersConverges(s: State, desired: int, busy: set<GitHubId>)
    requires Converging(s, desired, busy)
    ensures Converging(FinishRunners(s), desired, busy)
  {
    hide Orderly, BusyIds, Wanted, NoDangling, Unregistered, Enumerates, VmsToCleanup;
    hide CleaningRunners, CleaningVms, ShrinkingRunners;
    if s.phase.SweepRunners? && s.phase.todo == {} {
      match s.phase.sweep
      case Cleanup(_) => FinishCleaning(s.world, s.phase);
      case Soft(num, total) => FinishShrinking(s.world, s.phase);
      case _ =>
    }
  }

  function WithoutVm(w: World, v: InstanceID): World { w.(vms := w.vms - {v}) }

  lemma {:induction false} RemovingUnregistered(w: World, v: InstanceID)
    requires Orderly(w) && NoDangling(w) && Unregistered(w, v)
    ensures Orderly(WithoutVm(w, v)) && NoDangling(WithoutVm(w, v)) && BusyIds(WithoutVm(w, v)) == BusyIds(w)
    ensures forall u :: u in w.vms && u != v ==> (Wanted(WithoutVm(w, v), u) <==> Wanted(w, u))
  {
  }

  lemma {:induction false} CleaningVmsStep(w: World, p: Phase, v: InstanceID)
    requires p.SweepVms? && Orderly(w) && CleaningVms(w, p) && v in p.left
    ensures CleaningVms(WithoutVm(w, v), p.(left := p.left - {v}, gone := p.gone + {v}))
    ensures v !in w.vms ==> CleaningVms(w, p.(left := p.left - {v}))
  {
    RemovingUnregistered(w, v);
  }

  lemma {:induction false} ShrinkingVmsStep(w: World, p: Phase, v: InstanceID, take: int, total: int)
    requires p.SweepVms? && Orderly(w) && ShrinkingVms(w, p, take, total) && v in p.left
    ensures ShrinkingVms(WithoutVm(w, v), p.(left := p.left - {v}, gone := p.gone + {v}), take, total)
  {
    RemovingUnregistered(w, v);
    RemovingShrinks(w.vms, v);
  }

  lemma {:induction false} DeleteServerConverges(s: State, v: InstanceID, desired: int, busy: set<GitHubId>)
    requires Converging(s, desired, busy)
    ensures Converging(DeleteOneServer(s, v, true), desired, busy)
  {
    if s.phase.SweepVms? && v in s.phase.left {
      RemovingUnregistered(s.world, v);
      match s.phase.sweep
      case Cleanup(_) => CleaningVmsStep(s.world, s.phase, v);
      case Soft(num, total) => ShrinkingVmsStep(s.world, s.phase, v, Min(num, total - |busy|), total);
      case _ =>
    }
  }

  lemma {:induction false} FinishVmsConverges(s: State, desired: int, busy: set<GitHubId>)
    requires Converging(s, desired, busy)
    ensures Converging(FinishVms(s), desired, busy)
  {
    hide Orderly, BusyIds, Wanted, Unregistered;
  }

  lemma {:induction false} DecideConverges(s: State, desired: int, busy: set<GitHubId>)
    requires Converging(s, desired, busy)
    ensures Converging(DecideScale(s), desired, busy)
  {
    hide Wanted, Orderly;
    BusyFitOnVms(s.world);
  }

  lemma {:induction false} RegisteringFresh(w: World, v: InstanceID, id: GitHubId)
    requires Orderly(w) && Fresh(w, v, id)
    ensures var w' := w.(runners := w.runners[id := Registration(v, false, false)], issued := w.issued[v := id]);
            && Orderly(w') && BusyIds(w') == BusyIds(w)
            && (forall u :: u in w.vms && Wanted(w, u) ==> Wanted(w', u))
  {
    var w' := w.(runners := w.runners[id := Registration(v, false, false)], issued := w.issued[v := id]);
    assert forall u :: u in w.issued ==> w.issued[u] in w.issued.Values;
    assert BusyIds(w') == BusyIds(w);
  }

  lemma {:induction false} GrowingRegister(w: World, p: Phase, v: InstanceID, id: GitHubId)
    requires p.Creating? && Orderly(w) && GrowingLinks(w, p) && Fresh(w, v, id)
    ensures var w' := w.(runners := w.runners[id := Registration(v, false, false)], issued := w.issued[v := id]);
            GrowingLinks(w', p.(unstarted := p.unstarted - 1, pending := p.pending + {v}))
  {
    hide Wanted, Linked, AllHaveIds, BusyPlaced, BusyIds;
    RegisteringFresh(w, v, id);
    assert forall u :: u in w.issued ==> w.issued[u] in w.issued.Values;
  }

  lemma {:induction false} GrowingRegisterCounts(w: World, p: Phase, v: InstanceID, w': World)
    requires p.Creating? && GrowingCounts(w, p) && v !in w.vms && v !in p.pending && p.unstarted > 0
    requires w'.vms == w.vms
    ensures GrowingCounts(w', p.(unstarted := p.unstarted - 1, pending := p.pending + {v}))
  {
  }

  lemma {:induction false} RegisterConverges(s: State, v: InstanceID, id: GitHubId, desired: int, busy: set<GitHubId>)
    requires Converging(s, desired, busy)
    ensures Converging(RegisterOne(s, v, id), desired, busy)
  {
    if s.phase.Creating? && s.phase.unstarted > 0 && Fresh(s.world, v, id) {
      hide Orderly, GrowingCounts, Wanted;
      assert v !in s.phase.pending;
      hide GrowingLinks;
      RegisteringFresh(s.world, v, id);
      GrowingRegister(s.world, s.phase, v, id);
      GrowingRegisterCounts(s.world, s.phase, v, RegisterOne(s, v, id).world);
      CreatingConverges(RegisterOne(s, v, id), desired, busy);
    }
  }

  lemma {:induction false} LaunchingRegistered(w: World, v: InstanceID)
    requires Orderly(w) && v !in w.vms && v in w.issued && w.issued[v] in w.runners
    ensures var w' := w.(vms := w.vms[v := VM(v, Some(w.issued[v]), CREATED, w.now)]);
            && Orderly(w') && BusyIds(w') == BusyIds(w) && |w'.vms| == |w.vms| + 1
            && Wanted(w', v) && (forall u :: u in w.vms && Wanted(w, u) ==> Wanted(w', u))
  {
    var w' := w.(vms := w.vms[v := VM(v, Some(w.issued[v]), CREATED, w.now)]);
    assert w'.vms.Keys == w.vms.Keys + {v};
  }

  lemma {:induction false} GrowingLaunch(w: World, p: Phase, v: InstanceID)
    requires p.Creating? && Orderly(w) && GrowingLinks(w, p) && v in p.pending
    ensures var w' := w.(vms := w.vms[v := VM(v, Some(w.issued[v]), CREATED, w.now)]);
            GrowingLinks(w', p.(pending := p.pending - {v}, created := p.created + {v}))
  {
    LaunchingRegistered(w, v);
    hide Wanted, Orderly;
  }

  lemma {:induction false} GrowingLaunchCounts(w: World, p: Phase, v: InstanceID, w': World)
    requires p.Creating? && GrowingCounts(w, p) && v !in w.vms && v in p.pending
    requires w'.vms.Keys == w.vms.Keys + {v} && |w'.vms| == |w.vms| + 1
    ensures GrowingCounts(w', p.(pending := p.pending - {v}, created := p.created + {v}))
  {
    assert p.pending == (p.pending - {v}) + {v};
  }

  lemma {:induction false} LaunchConverges(s: State, v: InstanceID, desired: int, busy: set<GitHubId>)
    requires Converging(s, desired, busy)
    ensures Converging(LaunchOne(s, v, Up), desired, busy)
  {
    hide Linked, AllHaveIds, BusyPlaced, GrowingCounts, Wanted, BusyIds;
    if s.phase.Creating? && v in s.phase.pending {
      assert v !in s.world.vms && v in s.world.issued && s.world.issued[v] in s.world.runners;
      hide Orderly, GrowingLinks;
      LaunchingRegistered(s.world, v);
      GrowingLaunch(s.world, s.phase, v);
      assert LaunchOne(s, v, Up).world.vms.Keys == s.world.vms.Keys + {v};
      GrowingLaunchCounts(s.world, s.phase, v, LaunchOne(s, v, Up).world);
      CreatingConverges(LaunchOne(s, v, Up), desired, busy);
    }
  }

  lemma {:induction false} FinishCreateConverges(s: State, desired: int, busy: set<GitHubId>)
    requires Converging(s, desired, busy)
    ensures Converging(FinishCreate(s), desired, busy)
  {
    hide Wanted, Linked, BusyPlaced, AllHaveIds;
    BusyFitOnVms(s.world);
  }

  lemma {:induction false} ListServersConverges(s: State, vms: seq<VM>, desired: int, busy: set<GitHubId>)
    requires Converging(s, desired, busy) && s.phase.SweepStart? && Enumerates(vms, s.world.vms)
    ensures Converging(s.(phase := SweepListed(s.phase.sweep, vms)), desired, busy)
  {
    hide Orderly, Clean, BusyIds, Enumerates;
  }

  lemma {:induction false} TallyConverges(s: State, desired: int, busy: set<GitHubId>)
    requires Converging(s, desired, busy)
    ensures Converging(Tally(s), desired, busy)
  {
    hide Orderly, Clean, BusyIds;
  }

  lemma {:induction false} QuietStepConverges(limits: Limits, s: State, e: Event, desired: int, busy: set<GitHubId>)
    requires Converging(s, desired, busy) && Quiet(e)
    ensures Converging(Next(limits, s, e), desired, busy)
  {
    hide Choose, Lists, Enumerates, Converging, Tally, DeleteOneRunner, FinishRunners, DeleteOneServer, FinishVms;
    hide DecideScale, RegisterOne, LaunchOne, FinishCreate;
    match e
    case ListServers(vms) =>
      if s.phase.SweepStart? && Enumerates(vms, s.world.vms) { ListServersConverges(s, vms, desired, busy); }
    case CountServers => TallyConverges(s, desired, busy);
    case ListRunners(listing, _) =>
      if s.phase.SweepListed? && Lists(listing, s.world.runners) { ListRunnersConverges(s, listing, desired, busy); }
    case DeleteRunner(id) => DeleteRunnerConverges(s, id, desired, busy);
    case RunnersDone => FinishRunnersConverges(s, desired, busy);
    case DeleteServer(v, _) => DeleteServerConverges(s, v, desired, busy);
    case VmsDone => FinishVmsConverges(s, desired, busy);
    case Decide => DecideConverges(s, desired, busy);
    case Register(v, id) => RegisterConverges(s, v, id, desired, busy);
    case Launch(v, _) => LaunchConverges(s, v, desired, busy);
    case CreateDone => FinishCreateConverges(s, desired, busy);
    case _ =>
  }

  lemma {:induction false} QuietRunsConverge(limits: Limits, s: State, events: seq<Event>, desired: int, busy: set<GitHubId>)
    requires Converging(s, desired, busy) && AllQuiet(events)
    ensures Converging(Run(limits, s, events), desired, busy)
  {
    if events == [] {
    } else {
      var before := events[..|events| - 1];
      QuietRunsConverge(limits, s, before, desired, busy);
      QuietStepConverges(limits, Run(limits, s, before), events[|events| - 1], desired, busy);
    }
  }

  /** A timer section that is about to take the lock in an orderly world. */
  ghost predicate ReadyToReconcile(s: State) {
    s.phase == Free && s.ctl.timerWaiting.Some? && Orderly(s.world)
  }

  /**
   * Convergence. Whatever the order of its deletions and creations, a timer section without
   * faults or outside incidents ends with max(desired, busy runners) VMs, the in-memory count
   * equal to that, and nothing left for cleanup.
   */
  lemma {:induction false} TimerReconcileConverges(limits: Limits, s: State, events: seq<Event>)
    requires ReadyToReconcile(s) && AllQuiet(events)
    requires Run(limits, s, [TimerLock] + events).phase == Free
    ensures Converged(Run(limits, s, [TimerLock] + events),
                      DesiredTotal(limits, s.ctl.timerWaiting.value), BusyIds(s.world))
  {
    var locked := Next(limits, s, TimerLock);
    RunOneMore(limits, s, [], TimerLock);
    assert [] + [TimerLock] == [TimerLock];
    RunsCompose(limits, s, [TimerLock], events);
    QuietRunsConverge(limits, locked, events, DesiredTotal(limits, s.ctl.timerWaiting.value), BusyIds(s.world));
  }
}
