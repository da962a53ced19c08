/**
 * What a deletion section without faults makes of the two stores, exactly: which VMs and which
 * registrations are there before and after, whatever the order of its workers.
 */
module Sweeps {
  import opened Wrappers
  import opened Identifiers
  import opened PressureTarget
  import opened Runners
  import opened ScaleDown
  import opened Machine
  import opened Safety
  import opened ScaleDownRuns
  import opened Selections
  import opened Tidiness

  function AllVms(w: World): set<VM> {
    set v | v in w.vms :: w.vms[v]
  }

  /** The VM carries a runner ID and cleanup has a reason to take it. */
  ghost predicate Doubtful(w: World, v: InstanceID) {
    v in w.vms && w.vms[v].runnerId.Some? && HasReason(w.runners, w.vms[v], w.now)
  }

  /** Targets beyond legacy VMs and those that cleanup has a reason to take. */
  ghost function Beyond(w: World, targets: set<InstanceID>): set<VM> {
    set v | v in targets && v in w.vms && w.vms[v].runnerId.Some? && !Doubtful(w, v) :: w.vms[v]
  }

  ghost predicate GoodTarget(sweep: Sweep, w: World, v: InstanceID, taken: bool)
    requires v in w.vms
  {
    && (taken ==> !HasJob(w.runners, v))
    && (Doubtful(w, v) && !HasJob(w.runners, v) ==> taken)
    && (sweep.Cleanup? ==> taken ==> Doubtful(w, v))
    && (sweep.FlushIdle? ==> taken ==> Doubtful(w, v) || IsIdle(w.runners, v, true))
    && (sweep.FlushIdle? ==> IsIdle(w.runners, v, true) ==> taken)
  }

  /**
   * The VMs a section destroys. A legacy VM goes in any case, and a flush of busy runners takes
   * every VM. Otherwise no VM that runs a job goes, and every other one that is doubtful does;
   * cleanup takes nothing more, a flush of idle runners also those whose runner is online, and a
   * scale-down by num as many spare ones as are then still missing from num.
   */
  ghost predicate GoodTargets(sweep: Sweep, w: World, targets: set<InstanceID>) {
    && targets <= w.vms.Keys
    && (forall v :: v in w.vms && w.vms[v].runnerId.None? ==> v in targets)
    && (sweep.FlushBusy? ==> targets == w.vms.Keys)
    && (!sweep.FlushBusy? ==> forall v :: v in w.vms && w.vms[v].runnerId.Some? ==>
                                GoodTarget(sweep, w, v, v in targets))
    && (sweep.Soft? ==>
          |Beyond(w, targets)|
          == StillMissing(sweep.num, |WithReason(AllVms(w), w.runners, w.now)|, |Dangling(w.vms.Keys, w.runners)|,
                          |Spare(AllVms(w), w.runners, w.now)|))
  }

  /** Busy runners stay, and idle ones whose VM stays or is a legacy one. */
  ghost predicate RunnerStays(w: World, targets: set<InstanceID>, id: GitHubId)
    requires id in w.runners
  {
    var r := w.runners[id];
    r.busy || (r.instance in w.vms && (w.vms[r.instance].runnerId.None? || r.instance !in targets))
  }

  ghost predicate RunnersSwept(w: World, targets: set<InstanceID>, runners: map<GitHubId, Registration>) {
    && (forall id :: id in runners ==> id in w.runners && runners[id] == w.runners[id])
    && (forall id :: id in w.runners ==> (id in runners <==> RunnerStays(w, targets, id)))
  }

  /** The stores before and after a section. */
  ghost predicate Swept(sweep: Sweep, w: World, w': World) {
    && w'.issued == w.issued && w'.now == w.now
    && (forall v :: v in w'.vms ==> v in w.vms && w'.vms[v] == w.vms[v])
    && GoodTargets(sweep, w, w.vms.Keys - w'.vms.Keys)
    && RunnersSwept(w, w.vms.Keys - w'.vms.Keys, w'.runners)
  }

  // ---------------------------------------------------------------- the section, call by call

  predicate InSweepOf(p: Phase, sweep: Sweep) {
    (p.SweepStart? || p.SweepListed? || p.SweepRunners? || p.SweepVms?) && p.sweep == sweep
  }

  ghost predicate SweepingRunners(w: World, p: Phase, w': World)
    requires p.SweepRunners?
  {
    && w' == w.(runners := w'.runners)
    && Enumerates(p.vms, w.vms) && Selected(p.sweep, p.vms, w.runners, w.now, p.chosen)
    && p.deleted <= p.chosen && p.todo <= p.chosen
    && (forall id :: id in p.chosen ==> id in p.todo || id in p.deleted || Refused(w, id.n))
    && (forall id :: id in p.deleted ==> !Refused(w, id.n))
    && (forall n :: n in w'.runners ==> n in w.runners && w'.runners[n] == w.runners[n])
    && (forall n :: n in w.runners ==> (n in w'.runners <==> Stored(n) !in p.deleted && Listed(n) !in p.deleted))
  }

  ghost predicate SweepingVms(w: World, p: Phase, w': World)
    requires p.SweepVms?
  {
    && w'.issued == w.issued && w'.now == w.now
    && GoodTargets(p.sweep, w, p.targets) && p.left <= p.targets && p.gone == p.targets - p.left
    && w'.vms == w.vms - p.gone
    && RunnersSwept(w, p.targets, w'.runners)
  }

  /** How far a section that began over w has got. */
  ghost predicate Sweeping(s: State, sweep: Sweep, w: World) {
    if !InSweepOf(s.phase, sweep) then sweep.Soft? ==> s.phase == Free
    else match s.phase
      case SweepStart(_) => s.world == w
      case SweepListed(_, vms) => s.world == w && Enumerates(vms, w.vms)
      case SweepRunners(_, _, _, _, _) => SweepingRunners(w, s.phase, s.world)
      case SweepVms(_, _, _, _) => SweepingVms(w, s.phase, s.world)
      case _ => true
  }

  lemma {:induction false} ListingSweeps(w: World, sweep: Sweep, vms: seq<VM>, listing: seq<ListedRunner>)
    requires Linked(w) && Enumerates(vms, w.vms) && Lists(listing, w.runners)
    ensures var chosen := Choose(sweep, vms, listing, w.now);
            SweepingRunners(w, SweepRunners(sweep, vms, chosen, chosen, {}), w)
  {
    hide Choose, Selected, Lists;
    SnapshotOfLinked(w, vms);
    NamesOfLinked(w);
    ChoiceIsSelected(sweep, vms, listing, w.runners, w.now);
  }

  lemma {:induction false} RefusalSweeps(w: World, p: Phase, w': World, id: RunnerId)
    requires p.SweepRunners? && SweepingRunners(w, p, w') && id in p.todo && Refused(w', id.n)
    ensures SweepingRunners(w, p.(todo := p.todo - {id}), w')
  {
    hide Enumerates, Selected;
  }

  lemma {:induction false} StillRefused(w: World, p: Phase, w': World, n: GitHubId)
    requires p.SweepRunners? && SweepingRunners(w, p, w')
    ensures Refused(w, n) ==> Refused(w', n)
  {
    hide Enumerates, Selected;
  }

  lemma {:induction false} DeletionSweeps(w: World, p: Phase, w': World, id: RunnerId)
    requires p.SweepRunners? && SweepingRunners(w, p, w') && id in p.todo && !Refused(w', id.n)
    ensures SweepingRunners(w, p.(todo := p.todo - {id}, deleted := p.deleted + {id}), Deregister(w', id.n))
  {
    hide Enumerates, Selected;
    StillRefused(w, p, w', id.n);
    assert id == Stored(id.n) || id == Listed(id.n);
  }

  /** A VM's runner is refused exactly if it runs a job. */
  lemma {:induction false} RefusedIffJob(w: World, v: InstanceID)
    requires Linked(w) && v in w.vms && w.vms[v].runnerId.Some?
    ensures Refused(w, w.vms[v].runnerId.value) <==> HasJob(w.runners, v)
  {
    var n := w.vms[v].runnerId.value;
    if Refused(w, n) {
      assert w.issued[w.runners[n].instance] == n && w.issued[v] == n;
    }
  }

  lemma {:induction false} TargetOfSnapshot(w: World, vms: seq<VM>, ids: set<RunnerId>, v: InstanceID)
    requires Linked(w) && Enumerates(vms, w.vms) && v in w.vms
    ensures v in VmsToCleanup(vms, ids) <==>
            w.vms[v].runnerId.None? || Stored(w.vms[v].runnerId.value) in ids
  {
    assert w.vms[v] in vms && w.vms[v].instance == v;
  }

  lemma {:induction false} TargetsAreListed(w: World, vms: seq<VM>, ids: set<RunnerId>)
    requires Linked(w) && Enumerates(vms, w.vms)
    ensures VmsToCleanup(vms, ids) <= w.vms.Keys
  {
  }

  lemma {:induction false} SnapshotIsAll(w: World, vms: seq<VM>)
    requires Linked(w) && Enumerates(vms, w.vms)
    ensures VmsOf(vms) == AllVms(w) && Instances(vms) == w.vms.Keys
  {
    SnapshotCoversVms(vms, w.vms);
    forall v | v in w.vms ensures w.vms[v] in vms {
    }
  }

  function TargetsOf(p: Phase): set<InstanceID>
    requires p.SweepRunners?
  {
    VmsToCleanup(p.vms, if p.sweep.FlushBusy? then p.chosen else p.deleted)
  }

  /** Of the VMs with a runner ID, all go in a busy flush, else those whose runner was not refused. */
  lemma {:induction false} TargetIff(w: World, p: Phase, w': World, v: InstanceID)
    requires Linked(w) && p.SweepRunners? && SweepingRunners(w, p, w') && p.todo == {}
    requires v in w.vms && w.vms[v].runnerId.Some?
    ensures var id := Stored(w.vms[v].runnerId.value);
            && (id in p.deleted <==> id in p.chosen && !HasJob(w.runners, v))
            && (v in TargetsOf(p) <==> id in p.chosen && (p.sweep.FlushBusy? || !HasJob(w.runners, v)))
            && w.vms[v] in p.vms
  {
    hide Selected, Enumerates, VmsToCleanup, HasJob, Linked, Refused;
    RefusedIffJob(w, v);
    TargetOfSnapshot(w, p.vms, if p.sweep.FlushBusy? then p.chosen else p.deleted, v);
    SnapshotIsAll(w, p.vms);
    assert w.vms[v] in AllVms(w);
  }

  predicate Instance(w: World, v: InstanceID)
    requires v in w.vms
  {
    w.vms[v].instance == v
  }

  lemma {:induction false} NamedAfterKey(w: World, v: InstanceID)
    requires Linked(w) && v in w.vms
    ensures Instance(w, v)
  {}

  /** The one runner of a name is idle or runs a job. */
  lemma {:induction false} BusyIsNotIdle(w: World, v: InstanceID)
    requires Linked(w)
    ensures IsIdle(w.runners, v, true) ==> !HasJob(w.runners, v)
  {
    NamesOfLinked(w);
    hide Linked;
  }

  lemma {:induction false} TargetIsGood(w: World, p: Phase, w': World, v: InstanceID)
    requires Linked(w) && p.SweepRunners? && SweepingRunners(w, p, w') && p.todo == {}
    requires v in w.vms && w.vms[v].runnerId.Some?
    ensures p.sweep.FlushBusy? ==> v in TargetsOf(p)
    ensures !p.sweep.FlushBusy? ==> GoodTarget(p.sweep, w, v, v in TargetsOf(p))
  {
    hide Enumerates, VmsToCleanup, HasJob, HasReason, IsIdle, Linked, Refused, TargetsOf, Lists;
    TargetIff(w, p, w', v);
    BusyIsNotIdle(w, v);
    var vm := w.vms[v];
    assert Instance(w, v) by { NamedAfterKey(w, v); }
  }

  /** In a scale-down a VM that is not doubtful is a target exactly if its runner was chosen. */
  lemma {:induction false} BeyondIff(w: World, p: Phase, w': World, v: InstanceID)
    requires Linked(w) && p.SweepRunners? && SweepingRunners(w, p, w') && p.todo == {} && p.sweep.Soft?
    requires v in w.vms && w.vms[v].runnerId.Some? && !Doubtful(w, v)
    ensures v in TargetsOf(p) <==> w.vms[v] in Extra(AllVms(w), w.runners, w.now, p.chosen)
  {
    hide Enumerates, VmsToCleanup, HasReason, Linked, Refused, TargetsOf, HasJob, WithReason;
    SnapshotIsAll(w, p.vms);
    TargetIff(w, p, w', v);
    NamedAfterKey(w, v);
    var vm := w.vms[v];
    assert vm in AllVms(w);
    if vm in Extra(AllVms(w), w.runners, w.now, p.chosen) { assert vm in Spare(AllVms(w), w.runners, w.now); }
  }

  lemma {:induction false} BeyondIsExtra(w: World, p: Phase, w': World)
    requires Linked(w) && p.SweepRunners? && SweepingRunners(w, p, w') && p.todo == {} && p.sweep.Soft?
    ensures Beyond(w, TargetsOf(p)) == Extra(AllVms(w), w.runners, w.now, p.chosen)
  {
    hide HasReason, Linked, TargetsOf, SweepingRunners;
    forall v | v in w.vms && w.vms[v].runnerId.Some? && !Doubtful(w, v)
      ensures v in TargetsOf(p) <==> w.vms[v] in Extra(AllVms(w), w.runners, w.now, p.chosen)
    {
      BeyondIff(w, p, w', v);
    }
  }

  lemma {:induction false} ExtraOfSelected(
    sweep: Sweep, vms: seq<VM>, runners: map<GitHubId, Registration>, clock: int, chosen: set<RunnerId>)
    requires sweep.Soft? && Selected(sweep, vms, runners, clock, chosen)
    ensures |Extra(VmsOf(vms), runners, clock, chosen)|
            == StillMissing(sweep.num, |WithReason(VmsOf(vms), runners, clock)|, |Dangling(Instances(vms), runners)|,
                            |Spare(VmsOf(vms), runners, clock)|)
  {}

  lemma {:induction false} TargetsAreGood(w: World, p: Phase, w': World)
    requires Linked(w) && p.SweepRunners? && SweepingRunners(w, p, w') && p.todo == {}
    ensures GoodTargets(p.sweep, w, TargetsOf(p))
  {
    hide Enumerates, VmsToCleanup, GoodTarget, Linked, Selected, Extra, Beyond;
    var targets, ids := TargetsOf(p), if p.sweep.FlushBusy? then p.chosen else p.deleted;
    TargetsAreListed(w, p.vms, ids);
    SnapshotIsAll(w, p.vms);
    forall v | v in w.vms
      ensures w.vms[v].runnerId.None? || p.sweep.FlushBusy? ==> v in targets
      ensures w.vms[v].runnerId.Some? && !p.sweep.FlushBusy? ==> GoodTarget(p.sweep, w, v, v in targets)
    {
      TargetOfSnapshot(w, p.vms, ids, v);
      if w.vms[v].runnerId.Some? { TargetIsGood(w, p, w', v); }
    }
    if p.sweep.Soft? {
      BeyondIsExtra(w, p, w');
      ExtraOfSelected(p.sweep, p.vms, w.runners, w.now, p.chosen);
    }
  }

  lemma {:induction false} IdOfName(w: World, vm: VM, n: GitHubId)
    requires Linked(w) && vm in AllVms(w) && vm.runnerId == Some(n) && n in w.runners
    ensures w.runners[n].instance in w.vms && w.vms[w.runners[n].instance] == vm
  {
    var v :| v in w.vms && w.vms[v] == vm;
    assert w.issued[v] == n && w.issued[w.runners[n].instance] == n;
  }

  /** A registration goes exactly if GitHub was asked to delete it and did not refuse. */
  lemma {:induction false} RunnerIsSwept(w: World, p: Phase, w': World, n: GitHubId)
    requires Linked(w) && p.SweepRunners? && SweepingRunners(w, p, w') && p.todo == {} && n in w.runners
    ensures n in w'.runners <==> RunnerStays(w, TargetsOf(p), n)
  {
    hide Enumerates, VmsToCleanup, HasReason, TargetsOf;
    var v := w.runners[n].instance;
    SnapshotIsAll(w, p.vms);
    assert Listed(n) in p.chosen <==> v !in w.vms;
    if Stored(n) in p.chosen {
      var vm :| vm in p.vms && vm.runnerId == Some(n);
      assert vm in AllVms(w);
      IdOfName(w, vm, n);
    }
    if v in w.vms && w.vms[v].runnerId.Some? {
      assert w.vms[v].runnerId.value == w.issued[v] == n;
      TargetIff(w, p, w', v);
      RefusedIffJob(w, v);
      if p.sweep.FlushBusy? { TargetIsGood(w, p, w', v); }
    }
  }

  lemma {:induction false} RunnersAreSwept(w: World, p: Phase, w': World)
    requires Linked(w) && p.SweepRunners? && SweepingRunners(w, p, w') && p.todo == {}
    ensures RunnersSwept(w, TargetsOf(p), w'.runners)
  {
    forall n | n in w.runners ensures n in w'.runners <==> RunnerStays(w, TargetsOf(p), n) {
      RunnerIsSwept(w, p, w', n);
    }
    hide Linked, Enumerates, Selected, TargetsOf, RunnerStays;
  }

  lemma {:induction false} OnlyRunnersChange(w: World, p: Phase, w': World)
    requires p.SweepRunners? && SweepingRunners(w, p, w')
    ensures w' == w.(runners := w'.runners)
  {}

  lemma {:induction false} FinishRunnersSweeps(s: State, sweep: Sweep, w: World)
    requires Linked(w) && Sweeping(s, sweep, w)
    ensures Sweeping(FinishRunners(s), sweep, w)
  {
    hide Linked, SweepingRunners, GoodTargets, RunnersSwept, VmsToCleanup, Enumerates;
    if s.phase.SweepRunners? && s.phase.sweep == sweep && s.phase.todo == {} {
      TargetsAreGood(w, s.phase, s.world);
      RunnersAreSwept(w, s.phase, s.world);
      OnlyRunnersChange(w, s.phase, s.world);
      assert w.vms - {} == w.vms;
    }
  }

  lemma {:induction false} DeleteRunnerSweeps(s: State, id: RunnerId, sweep: Sweep, w: World)
    requires Sweeping(s, sweep, w)
    ensures Sweeping(DeleteOneRunner(s, id), sweep, w)
  {
    hide SweepingRunners, Refused, Deregister;
    if s.phase.SweepRunners? && s.phase.sweep == sweep && id in s.phase.todo {
      if Refused(s.world, id.n) { RefusalSweeps(w, s.phase, s.world, id); }
      else { DeletionSweeps(w, s.phase, s.world, id); }
    }
  }

  lemma {:induction false} TargetsExist(sweep: Sweep, w: World, targets: set<InstanceID>)
    requires GoodTargets(sweep, w, targets)
    ensures targets <= w.vms.Keys
  {}

  lemma {:induction false} DeleteServerSweeps(s: State, v: InstanceID, sweep: Sweep, w: World)
    requires Sweeping(s, sweep, w)
    ensures Sweeping(DeleteOneServer(s, v, true), sweep, w)
  {
    hide GoodTargets, RunnersSwept;
    if s.phase.SweepVms? && s.phase.sweep == sweep && v in s.phase.left {
      TargetsExist(s.phase.sweep, w, s.phase.targets);
      assert v in w.vms && v !in s.phase.gone;
      assert (w.vms - s.phase.gone) - {v} == w.vms - (s.phase.gone + {v});
    }
  }

  lemma {:induction false} QuietStepSweeps(limits: Limits, s: State, e: Event, sweep: Sweep, w: World)
    requires Linked(w) && Sweeping(s, sweep, w) && Quiet(e)
    ensures Sweeping(Next(limits, s, e), sweep, w)
  {
    hide Linked, SweepingRunners, SweepingVms, Enumerates, Lists, Choose, FinishRunners, DeleteOneRunner, DeleteOneServer;
    match e
    case ListRunners(listing, _) =>
      if s.phase.SweepListed? && s.phase.sweep == sweep && Lists(listing, s.world.runners) {
        ListingSweeps(w, sweep, s.phase.vms, listing);
      }
    case DeleteRunner(id) => DeleteRunnerSweeps(s, id, sweep, w);
    case RunnersDone => FinishRunnersSweeps(s, sweep, w);
    case DeleteServer(v, _) => DeleteServerSweeps(s, v, sweep, w);
    case _ =>
  }

  lemma {:induction false} QuietRunsSweep(limits: Limits, s: State, events: seq<Event>, sweep: Sweep, w: World)
    requires Linked(w) && Sweeping(s, sweep, w) && AllQuiet(events)
    ensures Sweeping(Run(limits, s, events), sweep, w)
  {
    hide Linked, Sweeping, Next;
    if events == [] {
    } else {
      var before := events[..|events| - 1];
      QuietRunsSweep(limits, s, before, sweep, w);
      QuietStepSweeps(limits, Run(limits, s, before), events[|events| - 1], sweep, w);
    }
  }

  /**
   * The outcome of a section in which nothing fails, from any linked stores: its targets are gone,
   * and only they, and the registrations are those that the targets leave.
   */
  lemma {:induction false} QuietSectionSweeps(limits: Limits, s: State, events: seq<Event>)
    requires Linked(s.world) && s.phase.SweepStart? && AllQuiet(events)
    requires var p := Run(limits, s, events).phase; p.SweepVms? && p.sweep == s.phase.sweep && p.left == {}
    ensures var t := Run(limits, s, events);
            Swept(s.phase.sweep, s.world, t.world) && t.phase.gone == s.world.vms.Keys - t.world.vms.Keys
  {
    hide Linked, GoodTargets, RunnersSwept, Next, Run;
    QuietRunsSweep(limits, s, events, s.phase.sweep, s.world);
    var t := Run(limits, s, events);
    TargetsExist(t.phase.sweep, s.world, t.phase.targets);
    assert s.world.vms.Keys - t.world.vms.Keys == t.phase.targets;
  }

  // ---------------------------------------------------------------- what each section leaves

  /** Cleanup leaves the VMs with a runner ID that run a job or that it has no reason to take. */
  lemma {:induction false} CleanupLeaves(desired: int, w: World, w': World)
    requires Swept(Cleanup(desired), w, w')
    ensures forall v :: v in w'.vms <==>
              v in w.vms && w.vms[v].runnerId.Some? && (HasJob(w.runners, v) || !HasReason(w.runners, w.vms[v], w.now))
  {
    hide HasJob, HasReason, RunnersSwept;
    forall v | v in w.vms ensures v in w'.vms <==> v !in w.vms.Keys - w'.vms.Keys {
    }
  }

  /**
   * The VM carries a runner ID, and runs a job or is at most 1380 seconds old and not in error, its
   * runner being registered but offline.
   */
  ghost predicate SurvivesIdleFlush(w: World, v: InstanceID) {
    && v in w.vms && w.vms[v].runnerId.Some?
    && (|| HasJob(w.runners, v)
        || (IsIdle(w.runners, v, false) && w.vms[v].state != ERROR && w.now - w.vms[v].createdAt <= 1380))
  }

  /** A name with a registration runs a job, or is idle and online, or idle and offline, and only one of these. */
  lemma {:induction false} OneOfThree(w: World, v: InstanceID)
    requires Linked(w)
    ensures (exists id :: id in w.runners && w.runners[id].instance == v) <==>
            HasJob(w.runners, v) || IsIdle(w.runners, v, true) || IsIdle(w.runners, v, false)
    ensures !(IsIdle(w.runners, v, true) && IsIdle(w.runners, v, false))
    ensures HasJob(w.runners, v) ==> !IsIdle(w.runners, v, true) && !IsIdle(w.runners, v, false)
  {
    NamesOfLinked(w);
    hide Linked;
  }

  /** A flush of idle runners leaves exactly those. */
  lemma {:induction false} IdleFlushLeaves(w: World, w': World)
    requires Linked(w) && Swept(FlushIdle, w, w')
    ensures forall v :: v in w'.vms <==> SurvivesIdleFlush(w, v)
  {
    hide RunnersSwept;
    forall v | v in w.vms && w.vms[v].runnerId.Some? ensures v in w'.vms <==> SurvivesIdleFlush(w, v) {
      assert v in w'.vms <==> v !in w.vms.Keys - w'.vms.Keys;
      assert GoodTarget(FlushIdle, w, v, v in w.vms.Keys - w'.vms.Keys);
      NamedAfterKey(w, v);
      OneOfThree(w, v);
      hide HasJob, IsIdle, GoodTargets, Linked;
    }
    assert forall v :: v in w.vms && w.vms[v].runnerId.None? ==> v in w.vms.Keys - w'.vms.Keys;
    hide HasJob, IsIdle, GoodTargets, Linked;
  }

  /** A flush of busy runners leaves no VM. */
  lemma {:induction false} BusyFlushLeavesNone(w: World, w': World)
    requires Swept(FlushBusy, w, w')
    ensures w'.vms == map[]
  {
    hide RunnersSwept;
    assert w.vms.Keys - w'.vms.Keys == w.vms.Keys;
    assert w'.vms.Keys <= w.vms.Keys;
    assert w'.vms.Keys == {};
  }

  function Legacy(w: World): set<InstanceID> {
    set v | v in w.vms && w.vms[v].runnerId.None?
  }

  ghost function DoubtfulWithoutJob(w: World): set<InstanceID> {
    set v | v in w.vms && Doubtful(w, v) && !HasJob(w.runners, v)
  }

  lemma {:induction false} CountNames(w: World, names: set<InstanceID>)
    requires Linked(w) && names <= w.vms.Keys
    ensures |set v | v in names && v in w.vms :: w.vms[v]| == |names|
  {
    if names == {} {
    } else {
      var v :| v in names;
      CountNames(w, names - {v});
      var rest, all := (set u | u in names - {v} && u in w.vms :: w.vms[u]), (set u | u in names && u in w.vms :: w.vms[u]);
      assert all == rest + {w.vms[v]};
      forall u | u in names - {v} ensures w.vms[u] != w.vms[v] {
        NamedAfterKey(w, u);
        NamedAfterKey(w, v);
      }
    }
  }

  lemma {:induction false} DoubtfulHasId(w: World)
    ensures forall v :: v in w.vms && Doubtful(w, v) ==> w.vms[v].runnerId.Some?
  {}

  /** The targets of a scale-down that are neither legacy VMs nor doubtful. */
  ghost function BeyondNames(w: World, targets: set<InstanceID>): set<InstanceID> {
    set v | v in targets && v in w.vms && w.vms[v].runnerId.Some? && !Doubtful(w, v)
  }

  lemma {:induction false} TargetsSplit(sweep: Sweep, w: World, targets: set<InstanceID>)
    requires sweep.Soft? && GoodTargets(sweep, w, targets)
    ensures targets == Legacy(w) + DoubtfulWithoutJob(w) + BeyondNames(w, targets)
    ensures Legacy(w) !! DoubtfulWithoutJob(w) && (Legacy(w) + DoubtfulWithoutJob(w)) !! BeyondNames(w, targets)
  {
    hide HasJob, Doubtful, WithReason, Spare, Dangling, Beyond;
    DoubtfulHasId(w);
    forall v | v in targets && w.vms[v].runnerId.Some? ensures GoodTarget(sweep, w, v, true) {
    }
  }

  lemma {:induction false} ThreeParts<T>(all: set<T>, a: set<T>, b: set<T>, c: set<T>)
    requires all == a + b + c && a !! b && (a + b) !! c
    ensures |all| == |a| + |b| + |c|
  {
    assert |a + b| == |a| + |b|;
  }

  lemma {:induction false} CountRemoved<K, V>(m: map<K, V>, m': map<K, V>)
    requires m'.Keys <= m.Keys
    ensures |m| - |m'| == |m.Keys - m'.Keys|
  {
    assert m.Keys == m'.Keys + (m.Keys - m'.Keys);
    assert |m.Keys| == |m| && |m'.Keys| == |m'|;
  }

  lemma {:induction false} CountBeyond(w: World, targets: set<InstanceID>)
    requires Linked(w)
    ensures |BeyondNames(w, targets)| == |Beyond(w, targets)|
  {
    hide Linked, Doubtful;
    CountNames(w, BeyondNames(w, targets));
    assert (set v | v in BeyondNames(w, targets) && v in w.vms :: w.vms[v]) == Beyond(w, targets);
  }

  /**
   * A scale-down by num destroys the legacy VMs, the doubtful ones that run no job, and as many
   * spare ones as are then still missing.
   */
  lemma {:induction false} ScaleDownDestroys(num: int, total: int, w: World, w': World)
    requires Linked(w) && Swept(Soft(num, total), w, w')
    ensures |w.vms| - |w'.vms| ==
            |Legacy(w)| + |DoubtfulWithoutJob(w)|
            + StillMissing(num, |WithReason(AllVms(w), w.runners, w.now)|, |Dangling(w.vms.Keys, w.runners)|,
                           |Spare(AllVms(w), w.runners, w.now)|)
  {
    hide RunnersSwept, GoodTarget, Linked, WithReason, Spare, Dangling, Legacy, DoubtfulWithoutJob, BeyondNames, Beyond;
    var targets := w.vms.Keys - w'.vms.Keys;
    CountRemoved(w.vms, w'.vms);
    TargetsSplit(Soft(num, total), w, targets);
    ThreeParts(targets, Legacy(w), DoubtfulWithoutJob(w), BeyondNames(w, targets));
    CountBeyond(w, targets);
  }
}
