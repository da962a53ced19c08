/**
 * The floor of a scale-down over whole runs: the VMs that a soft section's selection spares are not
 * destroyed by it, whatever happens between its calls.
 */
module ScaleDownRuns {
  import opened Wrappers
  import opened Identifiers
  import opened PressureTarget
  import opened Runners
  import opened ScaleDown
  import opened Machine
  import opened Safety

  // ---------------------------------------------------------------- snapshots name VMs once

  ghost predicate DistinctSnapshot(p: Phase) {
    p.SweepListed? || p.SweepRunners? ==> DistinctInstances(p.vms) && DistinctRunnerIds(p.vms)
  }

  lemma {:induction false} SnapshotOfLinked(w: World, vms: seq<VM>)
    requires Linked(w) && Enumerates(vms, w.vms)
    ensures DistinctInstances(vms) && DistinctRunnerIds(vms)
  {
  }

  lemma {:induction false} StepKeepsDistinct(limits: Limits, s: State, e: Event)
    requires Linked(s.world) && DistinctSnapshot(s.phase)
    ensures DistinctSnapshot(Next(limits, s, e).phase)
  {
    hide Choose, Lists, Enumerates, Linked, Fresh, DistinctInstances, DistinctRunnerIds;
    if e.ListServers? && s.phase.SweepStart? && Enumerates(e.vms, s.world.vms) {
      SnapshotOfLinked(s.world, e.vms);
    }
  }

  lemma {:induction false} RunsKeepDistinct(limits: Limits, s: State, events: seq<Event>)
    requires Safe(s) && DistinctSnapshot(s.phase)
    ensures DistinctSnapshot(Run(limits, s, events).phase)
  {
    hide Next, DistinctSnapshot;
    if events == [] {
    } else {
      var before := events[..|events| - 1];
      RunsKeepDistinct(limits, s, before);
      RunsAreSafe(limits, s, before);
      StepKeepsDistinct(limits, Run(limits, s, before), events[|events| - 1]);
    }
  }

  // ---------------------------------------------------------------- what a section can destroy

  /** A soft section after its selection. */
  predicate Deleting(p: Phase) {
    (p.SweepRunners? || p.SweepVms?) && p.sweep.Soft?
  }

  /** Its deletions stay within the selection it made. */
  predicate Within(vms: seq<VM>, chosen: set<RunnerId>, p: Phase) {
    && (p.SweepRunners? ==> p.vms == vms && p.deleted <= chosen && p.todo <= chosen)
    && (p.SweepVms? ==> p.left <= VmsToCleanup(vms, chosen))
  }

  lemma {:induction false} TargetsGrow(vms: seq<VM>, a: set<RunnerId>, b: set<RunnerId>)
    requires a <= b
    ensures VmsToCleanup(vms, a) <= VmsToCleanup(vms, b)
  {
  }

  lemma {:induction false} StepStaysWithin(limits: Limits, s: State, e: Event, vms: seq<VM>, chosen: set<RunnerId>)
    requires Deleting(s.phase) && Within(vms, chosen, s.phase) && Deleting(Next(limits, s, e).phase)
    ensures Within(vms, chosen, Next(limits, s, e).phase)
  {
    hide Choose, Lists, Enumerates, Fresh, VmsToCleanup;
    if e.RunnersDone? && s.phase.SweepRunners? {
      TargetsGrow(vms, s.phase.deleted, chosen);
    }
  }

  lemma {:induction false} SectionStaysWithin(
    limits: Limits, s: State, events: seq<Event>, j: nat, i: nat, vms: seq<VM>, chosen: set<RunnerId>)
    requires j <= i <= |events| && Within(vms, chosen, At(limits, s, events, j).phase)
    requires forall k :: j <= k <= i ==> Deleting(At(limits, s, events, k).phase)
    ensures Within(vms, chosen, At(limits, s, events, i).phase)
  {
    hide Next, Within, Deleting;
    if j == i {
    } else {
      SectionStaysWithin(limits, s, events, j, i - 1, vms, chosen);
      StepsOfRun(limits, s, events, i - 1);
      assert Deleting(At(limits, s, events, i - 1).phase) && Deleting(At(limits, s, events, i).phase);
      StepStaysWithin(limits, At(limits, s, events, i - 1), events[i - 1], vms, chosen);
    }
  }

  /** A spared VM is not among the targets. */
  lemma {:induction false} SparedIsNoTarget(vms: seq<VM>, chosen: set<RunnerId>, vm: VM)
    requires DistinctInstances(vms) && vm in Spared(vms, chosen)
    ensures vm.instance !in VmsToCleanup(vms, chosen)
  {
  }

  /** Step j of the run is the selection of a soft section. */
  ghost predicate SelectsAt(limits: Limits, s: State, events: seq<Event>, j: nat)
    requires j < |events|
  {
    var t := At(limits, s, events, j);
    && t.phase.SweepListed? && t.phase.sweep.Soft?
    && events[j].ListRunners? && Lists(events[j].listing, t.world.runners)
  }

  lemma {:induction false} SelectionStep(limits: Limits, s: State, events: seq<Event>, j: nat)
    requires j < |events| && SelectsAt(limits, s, events, j)
    ensures var t, listing := At(limits, s, events, j), events[j].listing;
            var chosen := SoftDeleteSet(t.phase.vms, listing, t.world.now + events[j].lag, t.phase.sweep.num);
            At(limits, s, events, j + 1).phase == SweepRunners(t.phase.sweep, t.phase.vms, chosen, chosen, {})
  {
    hide Lists, SoftDeleteSet;
    StepsOfRun(limits, s, events, j);
  }

  lemma {:induction false} SparedSurvives(
    limits: Limits, s: State, events: seq<Event>, i: nat, vms: seq<VM>, chosen: set<RunnerId>, vm: VM)
    requires i < |events| && DistinctInstances(vms) && vm in Spared(vms, chosen)
    requires Within(vms, chosen, At(limits, s, events, i).phase)
    ensures !Destroys(limits, s, events, i, vm.instance)
  {
    hide Next, Spared;
    SparedIsNoTarget(vms, chosen, vm);
    StepsOfRun(limits, s, events, i);
    if Destroys(limits, s, events, i, vm.instance) {
      OnlyDeleteServerRemoves(limits, At(limits, s, events, i), events[i], vm.instance);
    }
  }

  /**
   * The floor, over every run. Once a soft section has selected, the VMs it spares number at least
   * min(healthy, desired - VMs without ID), less what vanished between count and snapshot; and at
   * no later step of the section does the manager destroy one of them.
   */
  lemma {:induction false} SoftSectionFloor(limits: Limits, s: State, events: seq<Event>, j: nat, desired: int)
    requires Initial(s) && Linked(s.world) && j < |events| && SelectsAt(limits, s, events, j)
    requires var sweep := At(limits, s, events, j).phase.sweep; sweep.num == sweep.total - desired
    ensures var t, listing := At(limits, s, events, j), events[j].listing;
            var vms, clock := t.phase.vms, t.world.now + events[j].lag;
            var spared := Spared(vms, SoftDeleteSet(vms, listing, clock, t.phase.sweep.num));
            && |spared| >= Min(|Spared(vms, CleanupSet(vms, listing, clock))|,
                               desired - |WithoutId(vms)| - (t.phase.sweep.total - |vms|))
            && forall i, vm :: j < i < |events| && vm in spared
                               && (forall k :: j < k <= i ==> Deleting(At(limits, s, events, k).phase))
                               ==> !Destroys(limits, s, events, i, vm.instance)
  {
    hide Next, SoftDeleteSet, CleanupSet, Spared, Lists, Deleting, Destroys;
    var t, listing := At(limits, s, events, j), events[j].listing;
    var vms, clock := t.phase.vms, t.world.now + events[j].lag;
    var chosen := SoftDeleteSet(vms, listing, clock, t.phase.sweep.num);
    RunsKeepDistinct(limits, s, events[..j]);
    ScaleDownFloor(vms, listing, clock, t.phase.sweep.num, |vms| - t.phase.sweep.num);
    SelectionStep(limits, s, events, j);
    forall i, vm | j < i < |events| && vm in Spared(vms, chosen)
                   && (forall k :: j < k <= i ==> Deleting(At(limits, s, events, k).phase))
      ensures !Destroys(limits, s, events, i, vm.instance)
    {
      SectionStaysWithin(limits, s, events, j + 1, i, vms, chosen);
      SparedSurvives(limits, s, events, i, vms, chosen, vm);
    }
  }
}
