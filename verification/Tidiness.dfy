/**
 * What a fault-free cleanup leaves behind: of the idle runners exactly those without a VM that bore
 * the name of a legacy VM, one without a runner ID, which cleanup removes unconditionally.
 */
module Tidiness {
  import opened Wrappers
  import opened Identifiers
  import opened PressureTarget
  import opened Runners
  import opened ScaleDown
  import opened Machine
  import opened Safety

  predicate Idle(w: World, id: GitHubId) {
    id in w.runners && !w.runners[id].busy
  }

  /** The runner is idle and no VM bears its name. */
  predicate IdleDangling(w: World, id: GitHubId) {
    Idle(w, id) && w.runners[id].instance !in w.vms
  }

  /** Idle runners that bear the name of a legacy VM. */
  function Bereaved(w: World): set<GitHubId> {
    set id | id in w.runners && Idle(w, id)
             && w.runners[id].instance in w.vms && w.vms[w.runners[id].instance].runnerId.None?
  }

  /** Runner deletion: every idle runner without a VM is still to be deleted, and no bereaved one is. */
  ghost predicate TidyingRunners(w: World, p: Phase, bereaved: set<GitHubId>)
    requires p.SweepRunners?
  {
    && Enumerates(p.vms, w.vms) && Bereaved(w) == bereaved
    && (forall id :: id in p.deleted ==> id.n !in w.runners)
    && (forall id :: IdleDangling(w, id) ==> Listed(id) in p.todo)
    && (forall id :: id in p.todo ==> id.n !in bereaved)
  }

  /** VM deletion: the idle runners that have lost their VM or are about to are the bereaved ones. */
  ghost predicate TidyingVms(w: World, left: set<InstanceID>, bereaved: set<GitHubId>) {
    forall id :: id in bereaved <==> Idle(w, id) && (w.runners[id].instance in left || w.runners[id].instance !in w.vms)
  }

  ghost predicate Tidying(s: State, bereaved: set<GitHubId>) {
    match s.phase
    case SweepStart(Cleanup(_)) => Bereaved(s.world) == bereaved
    case SweepListed(Cleanup(_), vms) => Enumerates(vms, s.world.vms) && Bereaved(s.world) == bereaved
    case SweepRunners(Cleanup(_), _, _, _, _) => TidyingRunners(s.world, s.phase, bereaved)
    case SweepVms(Cleanup(_), _, left, _) => TidyingVms(s.world, left, bereaved)
    case TimerCount(_) => TidyingVms(s.world, {}, bereaved)
    case _ => true
  }

  lemma {:induction false} SnapshotCoversVms(vms: seq<VM>, m: map<InstanceID, VM>)
    requires Enumerates(vms, m) && forall v :: v in m ==> m[v].instance == v
    ensures Instances(vms) == m.Keys
  {
    forall v | v in m ensures v in Instances(vms) {
      assert m[v] in vms && m[v].instance == v;
    }
  }

  lemma {:induction false} ListRunnersTidies(w: World, p: Phase, listing: seq<ListedRunner>, now: int)
    requires p.SweepListed? && p.sweep.Cleanup? && Linked(w)
    requires Enumerates(p.vms, w.vms) && Lists(listing, w.runners)
    ensures var chosen := CleanupSet(p.vms, listing, now);
            TidyingRunners(w, SweepRunners(p.sweep, p.vms, chosen, chosen, {}), Bereaved(w))
  {
    hide CleanupSet;
    var chosen := CleanupSet(p.vms, listing, now);
    SnapshotCoversVms(p.vms, w.vms);
    forall id | IdleDangling(w, id) ensures Listed(id) in chosen {
      CleanupTakesDangling(p.vms, listing, now, id);
      assert ListedRunner(id, w.runners[id].instance, w.runners[id].online, w.runners[id].busy) in listing;
    }
    forall id | id in chosen ensures id.n !in Bereaved(w) {
      CleanupTakesDangling(p.vms, listing, now, id.n);
      if id.Stored? {
        var i :| 0 <= i < |p.vms| && p.vms[i].runnerId == Some(id.n);
        assert p.vms[i].instance in w.vms && w.issued[p.vms[i].instance] == id.n;
      }
    }
  }

  lemma {:induction false} DeleteRunnerTidies(w: World, p: Phase, id: RunnerId, bereaved: set<GitHubId>)
    requires p.SweepRunners? && TidyingRunners(w, p, bereaved) && id in p.todo
    ensures Refused(w, id.n) ==> TidyingRunners(w, p.(todo := p.todo - {id}), bereaved)
    ensures !Refused(w, id.n) ==>
              TidyingRunners(Deregister(w, id.n), p.(todo := p.todo - {id}, deleted := p.deleted + {id}), bereaved)
  {
  }

  lemma {:induction false} FinishRunnersTidies(w: World, p: Phase, bereaved: set<GitHubId>)
    requires p.SweepRunners? && Linked(w) && TidyingRunners(w, p, bereaved) && p.todo == {}
    ensures TidyingVms(w, VmsToCleanup(p.vms, p.deleted), bereaved)
  {
    var targets := VmsToCleanup(p.vms, p.deleted);
    forall id | Idle(w, id)
      ensures id in bereaved <==> w.runners[id].instance in targets || w.runners[id].instance !in w.vms
    {
      var v := w.runners[id].instance;
      assert !IdleDangling(w, id);
      assert w.vms[v] in p.vms && w.vms[v].instance == v;
      if v in targets && id !in bereaved {
        var i :| 0 <= i < |p.vms| && p.vms[i].instance == v
                 && (p.vms[i].runnerId.None? || Stored(p.vms[i].runnerId.value) in p.deleted);
        assert false;
      }
    }
  }

  lemma {:induction false} DeleteServerTidies(w: World, left: set<InstanceID>, v: InstanceID, bereaved: set<GitHubId>)
    requires TidyingVms(w, left, bereaved) && v in left
    ensures TidyingVms(w.(vms := w.vms - {v}), left - {v}, bereaved)
    ensures v !in w.vms ==> TidyingVms(w, left - {v}, bereaved)
  {
  }

  lemma {:induction false} QuietStepTidies(limits: Limits, s: State, e: Event, bereaved: set<GitHubId>)
    requires Linked(s.world) && Tidying(s, bereaved) && Quiet(e)
    requires s.phase.SweepStart? || s.phase.SweepListed? || s.phase.SweepRunners? || s.phase.SweepVms?
    requires s.phase.sweep.Cleanup?
    ensures Tidying(Next(limits, s, e), bereaved)
    ensures var p := Next(limits, s, e).phase;
            p.TimerCount? || ((p.SweepStart? || p.SweepListed? || p.SweepRunners? || p.SweepVms?) && p.sweep.Cleanup?)
  {
    hide CleanupSet, Lists, Enumerates, TidyingRunners, TidyingVms, VmsToCleanup, Linked, Bereaved;
    match e
    case ListRunners(listing, _) =>
      if s.phase.SweepListed? && Lists(listing, s.world.runners) {
        ListRunnersTidies(s.world, s.phase, listing, s.world.now);
      }
    case DeleteRunner(id) =>
      if s.phase.SweepRunners? && id in s.phase.todo { DeleteRunnerTidies(s.world, s.phase, id, bereaved); }
    case RunnersDone =>
      if s.phase.SweepRunners? && s.phase.todo == {} { FinishRunnersTidies(s.world, s.phase, bereaved); }
    case DeleteServer(v, _) =>
      if s.phase.SweepVms? && v in s.phase.left { DeleteServerTidies(s.world, s.phase.left, v, bereaved); }
    case _ =>
  }

  lemma {:induction false} CleanupTidies(limits: Limits, s: State, events: seq<Event>)
    requires Linked(s.world) && AllQuiet(events) && s.phase.SweepStart? && s.phase.sweep.Cleanup?
    requires forall i :: 0 <= i < |events| ==> !Run(limits, s, events[..i]).phase.TimerCount?
    ensures var t := Run(limits, s, events);
            && Tidying(t, Bereaved(s.world))
            && (t.phase.TimerCount? || ((t.phase.SweepStart? || t.phase.SweepListed? || t.phase.SweepRunners?
                                         || t.phase.SweepVms?) && t.phase.sweep.Cleanup?))
  {
    hide Next;
    if events == [] {
    } else {
      var before := events[..|events| - 1];
      forall i | 0 <= i < |before| ensures !Run(limits, s, before[..i]).phase.TimerCount? {
        assert before[..i] == events[..i];
      }
      CleanupTidies(limits, s, before);
      RunsAreSafe(limits, s, before);
      QuietStepTidies(limits, Run(limits, s, before), events[|events| - 1], Bereaved(s.world));
    }
  }

  /**
   * The cleanup of a quiet section, from any linked start: when it is over, the idle runners
   * without a VM are exactly those that bore the name of a legacy VM at its start. So there are
   * none exactly if no idle runner did.
   */
  lemma {:induction false} CleanupLeavesDanglingIff(limits: Limits, s: State, events: seq<Event>)
    requires Linked(s.world) && AllQuiet(events) && s.phase.SweepStart? && s.phase.sweep.Cleanup?
    requires forall i :: 0 <= i < |events| ==> !Run(limits, s, events[..i]).phase.TimerCount?
    ensures Run(limits, s, events).phase.TimerCount? ==>
              var t := Run(limits, s, events);
              && (forall id :: IdleDangling(t.world, id) <==> id in Bereaved(s.world))
              && ((forall id :: !IdleDangling(t.world, id)) <==> Bereaved(s.world) == {})
  {
    hide Next;
    CleanupTidies(limits, s, events);
    var t := Run(limits, s, events);
    if t.phase.TimerCount? {
      forall id ensures IdleDangling(t.world, id) <==> id in Bereaved(s.world) {
      }
      if Bereaved(s.world) != {} {
        var id :| id in Bereaved(s.world);
        assert IdleDangling(t.world, id);
      }
    }
  }

  // ---------------------------------------------------------------- what becomes of legacy VMs

  /** A cleanup starts with one VM, a legacy one without runner ID, whose name a runner bears. */
  function LegacyStart(v: InstanceID, busy: bool): State {
    State(World(map[v := VM(v, None, ACTIVE, 0)], map[1 := Registration(v, true, busy)], map[v := 1], 0),
          SweepStart(Cleanup(0)), IDLE_CONTROL.(synced := true))
  }

  function LegacyRun(v: InstanceID, busy: bool): seq<Event> {
    [ListServers([VM(v, None, ACTIVE, 0)]), ListRunners([ListedRunner(1, v, true, busy)], 0), RunnersDone,
     DeleteServer(v, true), VmsDone]
  }

  lemma {:induction false} NothingToCleanUp(v: InstanceID, busy: bool, now: int)
    ensures CleanupSet([VM(v, None, ACTIVE, 0)], [ListedRunner(1, v, true, busy)], now) == {}
  {
    hide CleanupSet;
    var vms, listing := [VM(v, None, ACTIVE, 0)], [ListedRunner(1, v, true, busy)];
    assert vms[0].instance in Instances(vms);
    forall id ensures id !in CleanupSet(vms, listing, now) {
      CleanupTakesDangling(vms, listing, now, id.n);
      assert id == Stored(id.n) || id == Listed(id.n);
    }
  }

  lemma {:induction false} StartOfRun(limits: Limits, s: State, events: seq<Event>)
    ensures At(limits, s, events, 0) == s
  {}

  lemma {:induction false} LegacyRunLists(limits: Limits, v: InstanceID, busy: bool)
    ensures var s, events := LegacyStart(v, busy), LegacyRun(v, busy);
            && At(limits, s, events, 0) == s && At(limits, s, events, 1).phase.SweepListed?
            && At(limits, s, events, 2)
               == s.(phase := SweepRunners(Cleanup(0), [VM(v, None, ACTIVE, 0)], {}, {}, {}))
  {
    hide Run, CleanupSet;
    var s, events := LegacyStart(v, busy), LegacyRun(v, busy);
    NothingToCleanUp(v, busy, 0);
    StartOfRun(limits, s, events);
    StepsOfRun(limits, s, events, 0);
    StepsOfRun(limits, s, events, 1);
  }

  lemma {:induction false} LegacyRunDeletes(limits: Limits, v: InstanceID, busy: bool)
    ensures var s, events := LegacyStart(v, busy), LegacyRun(v, busy);
            && At(limits, s, events, 3) == s.(phase := SweepVms(Cleanup(0), {v}, {v}, {}))
            && At(limits, s, events, 4)
               == s.(world := s.world.(vms := map[]), phase := SweepVms(Cleanup(0), {v}, {}, {v}))
            && Run(limits, s, events).phase == TimerCount(0)
  {
    hide Run, At, CleanupSet, Enumerates, Lists, Choose;
    var s, events, vm := LegacyStart(v, busy), LegacyRun(v, busy), VM(v, None, ACTIVE, 0);
    LegacyRunLists(limits, v, busy);
    assert VmsToCleanup([vm], {}) == {v} by { assert [vm][0].instance == v; }
    StepsOfRun(limits, s, events, 2);
    StepsOfRun(limits, s, events, 3);
    assert {v} - {v} == {} && {} + {v} == {v} && map[v := vm] - {v} == map[];
    StepsOfRun(limits, s, events, 4);
  }

  /** At the end of this cleanup the idle runner has lost its VM and is still registered. */
  lemma {:induction false} LegacyVmLeavesItsRunner(limits: Limits, v: InstanceID)
    ensures var s, events := LegacyStart(v, false), LegacyRun(v, false);
            var t := Run(limits, s, events);
            && Linked(s.world) && AllQuiet(events) && !IdleDangling(s.world, 1)
            && t.phase == TimerCount(0) && IdleDangling(t.world, 1)
  {
    hide Run, CleanupSet, Enumerates, Lists;
    var s, events := LegacyStart(v, false), LegacyRun(v, false);
    LegacyRunLists(limits, v, false);
    LegacyRunDeletes(limits, v, false);
    forall i | 0 <= i < |events| ensures !Run(limits, s, events[..i]).phase.TimerCount? {
      assert Run(limits, s, events[..i]) == At(limits, s, events, i);
    }
    CleanupLeavesDanglingIff(limits, s, events);
    assert 1 in Bereaved(s.world);
  }

  /** If the runner is busy, its job is lost: the VM on which it is executing is destroyed. */
  lemma {:induction false} LegacyVmLosesItsJob(limits: Limits, v: InstanceID)
    ensures var s, events := LegacyStart(v, true), LegacyRun(v, true);
            && Safe(s) && AllQuiet(events)
            && Destroys(limits, s, events, 3, v) && Executing(At(limits, s, events, 3).world, v)
  {
    hide Run, Next, At, CleanupSet, Enumerates, Lists;
    var s, events := LegacyStart(v, true), LegacyRun(v, true);
    LegacyRunDeletes(limits, v, true);
    assert s.world.runners[1].instance == v;
  }
}
