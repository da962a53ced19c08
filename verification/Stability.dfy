/** After a reconcile has converged, a second one has nothing to do. */
module Stability {
  import opened Wrappers
  import opened Identifiers
  import opened PressureTarget
  import opened Runners
  import opened ScaleDown
  import opened Machine
  import opened Safety
  import opened Bounds
  import opened Snapshots
  import opened Convergence

  /** A section over a converged world w that has found nothing to do so far. */
  ghost predicate Settled(s: State, w: World, desired: int) {
    && s.world == w
    && match s.phase
       case SweepStart(Cleanup(d)) => d == desired
       case SweepListed(Cleanup(d), vms) => d == desired && Enumerates(vms, w.vms)
       case SweepRunners(Cleanup(d), vms, chosen, todo, deleted) =>
         d == desired && Enumerates(vms, w.vms) && chosen == todo == deleted == {}
       case SweepVms(Cleanup(d), _, left, _) => d == desired && left == {}
       case TimerCount(d) => d == desired
       case Tallied(n, goal) => goal == Some(desired) && n == |w.vms|
       case SweepStart(Soft(num, total)) => num == |w.vms| - desired && num > 0 && total == |w.vms| == s.ctl.count
       case SweepListed(Soft(num, total), vms) =>
         num == |w.vms| - desired && num > 0 && total == |w.vms| == s.ctl.count && Enumerates(vms, w.vms)
       case SweepRunners(Soft(num, total), vms, chosen, todo, deleted) =>
         total == |w.vms| == s.ctl.count && Enumerates(vms, w.vms) && chosen == todo == deleted == {}
       case SweepVms(Soft(num, total), _, left, gone) => total == |w.vms| == s.ctl.count && left == gone == {}
       case Free => s.ctl.count == |w.vms|
       case _ => false
  }

  lemma {:induction false} GoodChoiceIsEmpty(sweep: Sweep, w: World, chosen: set<RunnerId>, desired: int)
    requires Orderly(w) && Clean(w) && GoodChoice(sweep, w, chosen)
    requires |w.vms| == Max(desired, |BusyIds(w)|)
    requires sweep.Cleanup? || (sweep.Soft? && sweep.num == |w.vms| - desired && sweep.num > 0)
    ensures chosen == {}
  {
    if sweep.Cleanup? {
      NothingToPickWhenClean(w, chosen);
    } else {
      assert |chosen| == 0;
    }
  }

  lemma {:induction false} ListRunnersSettles(s: State, chosen: set<RunnerId>, w: World, desired: int)
    requires s.phase.SweepListed? && Settled(s, w, desired) && chosen == {}
    ensures Settled(s.(phase := SweepRunners(s.phase.sweep, s.phase.vms, chosen, chosen, {})), w, desired)
  {
  }

  lemma {:induction false} FinishRunnersSettles(s: State, w: World, desired: int)
    requires Orderly(w) && Settled(s, w, desired)
    ensures Settled(FinishRunners(s), w, desired)
  {
    if s.phase.SweepRunners? {
      TargetsOfSnapshot(w, s.phase.vms, {});
      assert VmsToCleanup(s.phase.vms, {}) == {};
    }
  }

  lemma {:induction false} OtherStepsSettle(s: State, id: RunnerId, v: InstanceID, issue: GitHubId, w: World, desired: int)
    requires Orderly(w) && |w.vms| == Max(desired, |BusyIds(w)|) && Settled(s, w, desired)
    ensures Settled(DeleteOneRunner(s, id), w, desired)
    ensures Settled(DeleteOneServer(s, v, true), w, desired)
    ensures Settled(FinishVms(s), w, desired)
    ensures Settled(Tally(s), w, desired)
    ensures Settled(DecideScale(s), w, desired)
    ensures RegisterOne(s, v, issue) == LaunchOne(s, v, Up) == FinishCreate(s) == s
  {
  }

  lemma {:induction false} ListRunnersStepSettles(
    limits: Limits, s: State, listing: seq<ListedRunner>, w: World, desired: int)
    requires Orderly(w) && Clean(w) && |w.vms| == Max(desired, |BusyIds(w)|)
    requires Settled(s, w, desired)
    ensures Settled(Next(limits, s, ListRunners(listing, 0)), w, desired)
  {
    hide Choose, Orderly, Clean, GoodChoice, Lists;
    if s.phase.SweepListed? && Lists(listing, w.runners) {
      var chosen := Choose(s.phase.sweep, s.phase.vms, listing, w.now);
      ChoiceIsGood(s.phase.sweep, w, s.phase.vms, listing);
      GoodChoiceIsEmpty(s.phase.sweep, w, chosen, desired);
      ListRunnersSettles(s, chosen, w, desired);
    }
  }

  lemma {:induction false} OtherQuietStepSettles(limits: Limits, s: State, e: Event, w: World, desired: int)
    requires Orderly(w) && |w.vms| == Max(desired, |BusyIds(w)|)
    requires Settled(s, w, desired) && Quiet(e) && !e.ListRunners? && !e.RunnersDone?
    ensures Settled(Next(limits, s, e), w, desired)
  {
    hide Choose, Orderly, Lists, BusyIds;
    match e
    case DeleteRunner(id) => OtherStepsSettle(s, id, InstanceID("", "", ""), 1, w, desired);
    case DeleteServer(v, _) => OtherStepsSettle(s, Listed(1), v, 1, w, desired);
    case Register(v, id) => OtherStepsSettle(s, Listed(1), v, id, w, desired);
    case Launch(v, _) => OtherStepsSettle(s, Listed(1), v, 1, w, desired);
    case VmsDone => OtherStepsSettle(s, Listed(1), InstanceID("", "", ""), 1, w, desired);
    case CountServers => OtherStepsSettle(s, Listed(1), InstanceID("", "", ""), 1, w, desired);
    case Decide => OtherStepsSettle(s, Listed(1), InstanceID("", "", ""), 1, w, desired);
    case CreateDone => OtherStepsSettle(s, Listed(1), InstanceID("", "", ""), 1, w, desired);
    case _ =>
  }

  lemma {:induction false} QuietStepSettles(limits: Limits, s: State, e: Event, w: World, desired: int)
    requires Orderly(w) && Clean(w) && |w.vms| == Max(desired, |BusyIds(w)|)
    requires Settled(s, w, desired) && Quiet(e)
    ensures Settled(Next(limits, s, e), w, desired)
  {
    if e.ListRunners? {
      ListRunnersStepSettles(limits, s, e.listing, w, desired);
    } else if e.RunnersDone? {
      FinishRunnersSettles(s, w, desired);
    } else {
      OtherQuietStepSettles(limits, s, e, w, desired);
    }
  }

  lemma {:induction false} QuietRunsSettle(limits: Limits, s: State, events: seq<Event>, w: World, desired: int)
    requires Orderly(w) && Clean(w) && |w.vms| == Max(desired, |BusyIds(w)|)
    requires Settled(s, w, desired) && AllQuiet(events)
    ensures Settled(Run(limits, s, events), w, desired)
  {
    if events == [] {
    } else {
      var before := events[..|events| - 1];
      QuietRunsSettle(limits, s, before, w, desired);
      QuietStepSettles(limits, Run(limits, s, before), events[|events| - 1], w, desired);
    }
  }

  /**
   * Stability. At the same clock and desired total, reconciling a converged world again creates
   * and deletes nothing at any point of the section, and ends with the same count.
   */
  lemma {:induction false} SecondReconcileChangesNothing(limits: Limits, s: State, events: seq<Event>)
    requires ReadyToReconcile(s) && AllQuiet(events)
    requires Converged(s, DesiredTotal(limits, s.ctl.timerWaiting.value), BusyIds(s.world))
    ensures var t := Run(limits, s, [TimerLock] + events);
            t.world == s.world && !t.phase.Creating? && (t.phase == Free ==> t.ctl.count == s.ctl.count)
  {
    var locked := Next(limits, s, TimerLock);
    RunOneMore(limits, s, [], TimerLock);
    assert [] + [TimerLock] == [TimerLock];
    RunsCompose(limits, s, [TimerLock], events);
    QuietRunsSettle(limits, locked, events, s.world, DesiredTotal(limits, s.ctl.timerWaiting.value));
  }
}
