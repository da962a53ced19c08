/**
 * The pressure reconciler (manager/pressure_reconciler.py) and the HTTP flush handler
 * (http_server.py): three actors on one lock.
 *
 * The fields are those of the code. Valid() ties them to the control state of the run that the
 * fleet has logged, so the machine's theorems hold of every execution of these methods.
 */
module PressureReconcilers {
  import opened Wrappers
  import opened Identifiers
  import opened PressureTarget
  import opened Runners
  import opened Machine
  import opened Safety
  import opened Bounds
  import opened Accounting
  import opened Snapshots
  import opened Convergence
  import opened Stability
  import opened Fleets
  import opened RunnerManagers
  import opened Selections
  import opened Sweeps

  // One case of Next each, for methods that hide the rest of it.

  lemma {:induction false} CreateSteps(limits: Limits, s: State)
    ensures Next(limits, s, CreateLock) == LockForCreate(limits, s)
    ensures Next(limits, s, CreateDone) == FinishCreate(s)
  {}

  lemma {:induction false} SyncSteps(limits: Limits, s: State)
    ensures Next(limits, s, Decide) == DecideScale(s)
    ensures s.phase == Free && !s.ctl.synced ==> Next(limits, s, StartSync) == s.(phase := InitialCount)
  {}

  lemma {:induction false} TimerLockStep(limits: Limits, s: State)
    requires s.phase == Free && s.ctl.timerWaiting.Some?
    ensures Next(limits, s, TimerLock) ==
            s.(phase := SweepStart(Sweep.Cleanup(DesiredTotal(limits, s.ctl.timerWaiting.value))))
  {}

  lemma {:induction false} TimerSteps(limits: Limits, s: State)
    ensures Next(limits, s, Decide) == DecideScale(s)
    ensures Next(limits, s, VmsDone) == FinishVms(s)
  {}

  lemma {:induction false} FlushSteps(limits: Limits, s: State, busy: bool)
    ensures s.phase == Free ==>
              Next(limits, s, FlushLock(busy)) == s.(phase := SweepStart(if busy then FlushBusy else FlushIdle))
    ensures Next(limits, s, VmsDone) == FinishVms(s)
    ensures Next(limits, s, Raise) == Escape(s)
  {}

  lemma {:induction false} FewerAreFree(
    prefix: string, tokens: seq<string>, n: nat, issued: set<InstanceID>, vms: set<InstanceID>, vms': set<InstanceID>)
    requires n <= |tokens| && vms' <= vms
    ensures AllFree(prefix, tokens, issued, vms) ==> AllFree(prefix, tokens[..n], issued, vms')
    ensures AllFree(prefix, tokens, issued, vms) ==> AllFree(prefix, tokens, issued, vms')
  {}

  /** The log of a section in which nothing failed ends in convergence, or changed nothing. */
  lemma {:induction false} CalmSectionConverges(
    limits: Limits, start: State, before: seq<Event>, events: seq<Event>, pressure: int)
    requires ReadyToReconcile(Run(limits, start, before))
    requires Run(limits, start, before).ctl.timerWaiting == Some(pressure)
    requires Grew(true, before + [TimerLock], events) && Run(limits, start, events).phase == Free
    ensures var s, t, desired := Run(limits, start, before), Run(limits, start, events), DesiredTotal(limits, pressure);
            && Converged(t, desired, BusyIds(s.world))
            && (Converged(s, desired, BusyIds(s.world)) ==> t.world == s.world)
  {
    hide Next, Converged;
    var rest := events[|before| + 1..];
    assert AllQuiet(rest);
    assert events == before + ([TimerLock] + rest);
    RunsCompose(limits, start, before, [TimerLock] + rest);
    var s := Run(limits, start, before);
    TimerReconcileConverges(limits, s, rest);
    if Converged(s, DesiredTotal(limits, pressure), BusyIds(s.world)) {
      SecondReconcileChangesNothing(limits, s, rest);
    }
  }

  lemma {:induction false} ConvergedInNumbers(limits: Limits, s: State, pressure: int, busy: set<GitHubId>)
    requires Converged(s, DesiredTotal(limits, pressure), busy)
    ensures forall total :: ClampsTo(limits.minPressure, limits.maxPressure, pressure, total) ==>
              s.ctl.count == |s.world.vms| == Max(total, |busy|)
  {
    forall total | ClampsTo(limits.minPressure, limits.maxPressure, pressure, total)
      ensures total == DesiredTotal(limits, pressure)
    {
      TargetInNumbers(limits, pressure, total);
    }
    hide DesiredTotal, ClampsTo;
  }

  /** Servers that failed launches have left in this fleet since the last recount. */
  ghost function StrayServers(f: Fleet): nat reads f { Strays(f.limits, f.start, f.events) }

  /** VMs lost in this fleet since the servers were last listed for a recount. */
  ghost function LostServers(f: Fleet): nat reads f { Lost(f.limits, f.start, f.events) }

  /**
   * While the lock is free, the count the create loop trusts accounts for the live VMs exactly, with
   * the servers that failed launches have left and the VMs lost since the last recount.
   */
  lemma {:induction false} CountIsTrusted(r: PressureReconciler)
    requires r.Valid() && r.Alive() && r.manager.fleet.ctl.synced
    ensures |r.manager.fleet.vms| + LostServers(r.manager.fleet) == r.runnerCount + StrayServers(r.manager.fleet)
    ensures 0 <= r.runnerCount
  {
    hide Run, Linked, Strays, Lost;
    RunsKeepCounts(r.limits, r.manager.fleet.start, r.manager.fleet.events);
    CountIsExact(r.limits, r.manager.fleet.start, r.manager.fleet.events, 0);
  }

  class PressureReconciler {
    const manager: RunnerManager
    const limits: Limits
    var lastPressure: Option<int>
    var runnerCount: int
    var createPaused: bool

    ghost predicate Mirrors(ctl: Control) reads this {
      lastPressure == ctl.lastPressure && runnerCount == ctl.count && createPaused == ctl.paused
    }

    /** Between sections: the fields are the control state, unless the process has ended. */
    ghost predicate Valid() reads this, manager.fleet {
      && manager.fleet.Valid() && manager.fleet.limits == limits
      && (manager.fleet.phase == Free || manager.fleet.phase == Dead)
      && (manager.fleet.phase == Free ==> Mirrors(manager.fleet.ctl))
    }

    /** Since then the servers were counted, there were n, and no VM has come up since that count. */
    ghost predicate Recounted(since: nat, n: int) reads this, manager.fleet {
      Counted(limits, manager.fleet.start, manager.fleet.events, since, n) && |manager.fleet.vms| <= n
    }

    ghost predicate Alive() reads manager.fleet { manager.fleet.phase == Free }

    constructor (manager: RunnerManager, limits: Limits)
      requires manager.fleet.Valid() && manager.fleet.limits == limits
      requires manager.fleet.phase == Free && manager.fleet.ctl == IDLE_CONTROL
      ensures Valid() && Alive() && this.manager == manager && this.limits == limits
    {
      this.manager, this.limits := manager, limits;
      lastPressure, runnerCount, createPaused := None, 0, false;
    }

    /** An uncaught exception leaves the section and ends the process. */
    ghost method Die()
      requires manager.fleet.Valid() && manager.fleet.limits == limits
      requires manager.fleet.phase != Free && !InFlush(manager.fleet.phase)
      modifies manager.fleet`phase, manager.fleet`ctl, manager.fleet`events
      ensures Valid() && !Alive() && Grew(false, old(manager.fleet.events), manager.fleet.events)
    {
      manager.fleet.Note(Raise);
    }

    // -------------------------------------------------------------- create loop

    /** The first thing the create loop does: count the runners there are. */
    method SyncCount() returns (ok: bool)
      requires Valid() && Alive() && !manager.fleet.ctl.synced
      modifies this, manager.fleet
      ensures Valid() && Grew(false, old(manager.fleet.events), manager.fleet.events)
      ensures ok <==> Alive()
      ensures ok ==> manager.fleet.ctl == old(manager.fleet.ctl).(synced := true, count := runnerCount)
      ensures lastPressure == old(lastPressure) && createPaused == old(createPaused)
      ensures ok ==> Recounted(old(|manager.fleet.events|), runnerCount)
      ensures manager.fleet.faultFree ==> ok && runnerCount == |manager.fleet.vms|
    {
      hide Run, Next, Linked, Initial, Counted;
      ghost var logged := |manager.fleet.events|;
      SyncSteps(limits, manager.fleet.Current());
      manager.fleet.Note(StartSync);
      var n;
      ok, n := manager.fleet.CountServers();
      if !ok {
        Die();
        return;
      }
      runnerCount := n;
      ghost var counted := manager.fleet.events;
      SyncSteps(limits, manager.fleet.Current());
      manager.fleet.Note(Decide);
      CountedStill(limits, manager.fleet.start, counted, logged + 1, n, manager.fleet.events, logged);
    }

    /** Remembers the pressure, without the lock. */
    method SeePressure(pressure: int)
      requires Valid() && Alive() && manager.fleet.ctl.synced && manager.fleet.ctl.createWaiting.None?
      modifies this, manager.fleet
      ensures Valid() && Alive() && Grew(false, old(manager.fleet.events), manager.fleet.events)
      ensures manager.fleet.ctl == old(manager.fleet.ctl).(lastPressure := Some(pressure), createWaiting := Some(pressure))
      ensures manager.fleet.vms == old(manager.fleet.vms)
    {
      hide Run, Linked, Initial;
      lastPressure := Some(pressure);
      manager.fleet.Note(PressureSeen(pressure));
    }

    ghost method CreatedAtMostAsked(ids: seq<InstanceID>)
      requires manager.fleet.Valid() && AllWorkersDone(manager.fleet.phase)
      requires ListsOnce(ids, manager.fleet.phase.created)
      ensures |ids| == |manager.fleet.phase.created| <= manager.fleet.phase.num
    {
      var f := manager.fleet;
      RunsKeepCounts(f.limits, f.start, f.events);
      CreatedWithinNum(f.Current(), Strays(f.limits, f.start, f.events));
      ListsOnceCounts(ids, manager.fleet.phase.created);
    }

    /**
     * The creation that both loops share: the count grows by what was created, and creating nothing
     * pauses the create loop.
     */
    method ScaleUp(num: int, tokens: seq<string>, ghost byTimer: bool) returns (ok: bool)
      requires manager.fleet.Valid() && manager.fleet.limits == limits && Mirrors(manager.fleet.ctl) && !createPaused
      requires num == |tokens| > 0 && manager.fleet.phase == Creating(byTimer, runnerCount, num, num, {}, {}, {})
      modifies this, manager.fleet
      ensures Valid() && Grew(ok && old(manager.Calm(tokens)), old(manager.fleet.events), manager.fleet.events)
      ensures ok <==> Alive()
      ensures lastPressure == old(lastPressure)
      ensures ok ==> var ctl := old(manager.fleet.ctl).(count := runnerCount, paused := createPaused);
                     manager.fleet.ctl == if byTimer then ctl.(timerWaiting := None) else ctl.(createWaiting := None)
      ensures ok ==> old(runnerCount) <= runnerCount <= old(runnerCount) + num
      ensures ok ==> createPaused == (runnerCount == old(runnerCount))
      ensures old(manager.Calm(tokens)) ==> ok && runnerCount == old(runnerCount) + num
    {
      hide Run, Linked, Initial, ListsOnce, Next, AllFree;
      var created;
      ok, created := manager.CreateRunners(num, tokens);
      if !ok {
        Die();
        return;
      }
      CreatedAtMostAsked(created);
      runnerCount := runnerCount + |created|;
      if |created| == 0 { createPaused := true; }
      CreateSteps(limits, manager.fleet.Current());
      manager.fleet.Note(CreateDone);
    }

    /**
     * The locked part: a pause or a satisfied count changes nothing; otherwise the count grows by
     * what was created, never past the desired total, and growing by nothing pauses the loop.
     */
    method CreateUpTo(pressure: int, tokens: seq<string>) returns (ok: bool)
      requires Valid() && Alive() && manager.fleet.ctl.createWaiting == Some(pressure)
      requires |tokens| >= DesiredTotal(limits, pressure) && manager.fleet.ctl.synced
      modifies this, manager.fleet
      ensures Valid() && Grew(false, old(manager.fleet.events), manager.fleet.events)
      ensures ok <==> Alive()
      ensures lastPressure == old(lastPressure)
      ensures ok ==> manager.fleet.ctl == old(manager.fleet.ctl).(
                       createWaiting := None, count := runnerCount, paused := createPaused)
      ensures ok && (old(createPaused) || old(runnerCount) >= DesiredTotal(limits, pressure)) ==>
                runnerCount == old(runnerCount) && createPaused == old(createPaused)
      ensures ok && !old(createPaused) && old(runnerCount) < DesiredTotal(limits, pressure) ==>
                && old(runnerCount) <= runnerCount <= DesiredTotal(limits, pressure)
                && createPaused == (runnerCount == old(runnerCount))
      ensures old(manager.Calm(tokens)) ==> ok
      ensures old(manager.Calm(tokens)) && !old(createPaused) ==>
                forall total :: ClampsTo(limits.minPressure, limits.maxPressure, pressure, total) ==>
                                  runnerCount == Max(old(runnerCount), total)
    {
      hide Run, Linked, Initial, Next, DesiredTotal, AllFree, ClampsTo;
      forall total ensures ClampsTo(limits.minPressure, limits.maxPressure, pressure, total) ==>
                             total == DesiredTotal(limits, pressure) {
        TargetInNumbers(limits, pressure, total);
      }
      CountIsTrusted(this);
      var current := runnerCount;
      var toCreate := Max(DesiredTotal(limits, pressure) - current, 0);
      ghost var issued, vms := manager.fleet.issued.Keys, manager.fleet.vms.Keys;
      FewerAreFree(manager.prefix, tokens, toCreate, issued, vms, vms);
      CreateSteps(limits, manager.fleet.Current());
      manager.fleet.Note(CreateLock);
      if toCreate <= 0 || createPaused { return true; }
      ok := ScaleUp(toCreate, tokens[..toCreate], false);
    }

    /** The random suffixes of new names. */
    method DrawTokens(n: nat) returns (tokens: seq<string>)
      ensures |tokens| == n
    {
      tokens := [];
      while |tokens| < n
        invariant |tokens| <= n
      {
        var token: string := *;
        tokens := tokens + [token];
      }
    }

    method HandleCreateRunners(pressure: int) returns (ok: bool)
      requires Valid() && Alive() && manager.fleet.ctl.synced && manager.fleet.ctl.createWaiting.None?
      modifies this, manager.fleet
      ensures Valid() && Grew(false, old(manager.fleet.events), manager.fleet.events)
      ensures ok <==> Alive()
      ensures lastPressure == Some(pressure)
      ensures ok ==> manager.fleet.ctl.synced && manager.fleet.ctl.createWaiting.None?
      ensures ok ==> old(runnerCount) <= runnerCount <= Max(old(runnerCount), DesiredTotal(limits, pressure))
    {
      hide Run, Linked, Initial, Next, DesiredTotal;
      SeePressure(pressure);
      TargetIsCappedAndMonotone(limits, pressure, pressure);
      var tokens := DrawTokens(DesiredTotal(limits, pressure));
      ok := CreateUpTo(pressure, tokens);
    }

    /**
     * The create loop over what the pressure stream delivers; a broken stream is answered with the
     * fallback. Without a planner the floor is the only reading.
     */
    method CreateLoop(stream: Option<seq<StreamEvent>>) returns (ok: bool)
      requires Valid() && Alive() && manager.fleet.ctl == IDLE_CONTROL
      modifies this, manager.fleet
      ensures Valid() && Grew(false, old(manager.fleet.events), manager.fleet.events)
      ensures ok <==> Alive()
      ensures ok && stream.Some? ==> lastPressure == Remembered(limits, stream.value)
      ensures ok && stream.Some? && stream.value != [] ==>
                DesiredTotal(limits, lastPressure.value) == DesiredTotal(limits, LastReading(stream.value))
      ensures ok && stream.None? ==> lastPressure == Some(limits.minPressure)
    {
      hide Run, Linked, Initial, Next, DesiredTotal;
      ok := SyncCount();
      if !ok { return; }
      if stream.None? {
        ok := HandleCreateRunners(limits.minPressure);
        return;
      }
      for i := 0 to |stream.value|
        invariant Valid() && Alive() && Grew(false, old(manager.fleet.events), manager.fleet.events)
        invariant manager.fleet.ctl.synced && manager.fleet.ctl.createWaiting.None?
        invariant lastPressure == Remembered(limits, stream.value[..i])
      {
        assert stream.value[..i + 1][..i] == stream.value[..i];
        match stream.value[i]
        case Reading(pressure) =>
          ok := HandleCreateRunners(pressure);
          if !ok { return; }
        case Interrupted =>
          ok := HandleCreateRunners(Fallback(limits, lastPressure));
          if !ok { return; }
      }
      assert stream.value[..|stream.value|] == stream.value;
      if stream.value != [] { InterruptionsKeepTheTarget(limits, stream.value); }
    }

    // -------------------------------------------------------------- timer loop

    /** Reads the remembered pressure without the lock; None means there is nothing to do yet. */
    method WakeTimer() returns (pressure: Option<int>)
      requires Valid() && Alive() && manager.fleet.ctl.timerWaiting.None?
      modifies manager.fleet
      ensures Valid() && Alive() && Grew(false, old(manager.fleet.events), manager.fleet.events)
      ensures pressure == lastPressure
      ensures manager.fleet.ctl == old(manager.fleet.ctl).(timerWaiting := pressure)
      ensures manager.fleet.vms == old(manager.fleet.vms)
    {
      hide Run, Linked, Initial;
      pressure := lastPressure;
      manager.fleet.Note(TimerWake);
    }

    method CleanUpAndCount(ghost desired: int) returns (ok: bool, current: nat)
      requires manager.fleet.Valid() && manager.fleet.limits == limits
      requires manager.fleet.phase == SweepStart(Sweep.Cleanup(desired))
      modifies manager.fleet
      ensures Grew(ok && manager.fleet.faultFree, old(manager.fleet.events), manager.fleet.events)
      ensures ok ==> manager.fleet.Valid() && manager.fleet.phase == Tallied(current, Some(desired))
      ensures ok ==> manager.fleet.ctl == old(manager.fleet.ctl)
      ensures !ok ==> Valid() && !Alive()
      ensures manager.fleet.issued == old(manager.fleet.issued) && manager.fleet.vms.Keys <= old(manager.fleet.vms.Keys)
      ensures ok ==> Recounted(old(|manager.fleet.events|), current)
      ensures manager.fleet.faultFree ==>
                ok && current == |manager.fleet.vms|
                && Swept(Sweep.Cleanup(desired), old(manager.fleet.Stores()), manager.fleet.Stores())
    {
      hide Run, Linked, Initial, Next, Counted, Grew, Swept;
      ghost var f, logged := manager.fleet, manager.fleet.events;
      current := 0;
      ok := manager.Cleanup();
      ghost var cleaned := f.events;
      if !ok {
        Die();
        GrewFurther(false, logged, cleaned, false, f.events);
        return;
      }
      TimerSteps(limits, f.Current());
      f.Note(VmsDone);
      ghost var since := f.events;
      GrewByOne(f.faultFree, cleaned, VmsDone);
      GrewFurther(f.faultFree, logged, cleaned, f.faultFree, since);
      ok, current := manager.fleet.CountServers();
      ghost var counted := f.events;
      GrewFurther(f.faultFree, logged, since, f.faultFree, counted);
      if !ok {
        Die();
        GrewFurther(false, logged, counted, false, f.events);
        return;
      }
      GrewIsPrefix(f.faultFree, logged, since);
      CountedStill(limits, f.start, counted, |since|, current, counted, |logged|);
    }

    method ScaleDown(current: nat, num: int) returns (ok: bool)
      requires manager.fleet.Valid() && manager.fleet.limits == limits && Mirrors(manager.fleet.ctl)
      requires manager.fleet.phase == SweepStart(Soft(num, current))
      modifies this, manager.fleet
      ensures Valid() && Grew(ok && manager.fleet.faultFree, old(manager.fleet.events), manager.fleet.events)
      ensures ok <==> Alive()
      ensures lastPressure == old(lastPressure) && createPaused == old(createPaused)
      ensures ok ==> manager.fleet.ctl == old(manager.fleet.ctl).(timerWaiting := None, count := runnerCount)
      ensures ok ==> 0 <= runnerCount <= current
      ensures manager.fleet.faultFree ==>
                ok && runnerCount == Max(current - (|old(manager.fleet.vms)| - |manager.fleet.vms|), 0)
                && Swept(Soft(num, current), old(manager.fleet.Stores()), manager.fleet.Stores())
    {
      hide Run, Linked, Initial, Next, Swept;
      var deleted;
      ok, deleted := manager.SoftDeleteRunners(num);
      if !ok {
        Die();
        return;
      }
      runnerCount := Max(current - deleted, 0);
      TimerSteps(limits, manager.fleet.Current());
      manager.fleet.Note(VmsDone);
    }

    /** The resync with the new count, which lifts the pause. */
    ghost method NoteResync(desired: int, current: nat)
      requires manager.fleet.Valid() && manager.fleet.limits == limits
      requires manager.fleet.phase == Tallied(current, Some(desired))
      modifies manager.fleet`phase, manager.fleet`ctl, manager.fleet`events
      ensures manager.fleet.Valid() && Grew(true, old(manager.fleet.events), manager.fleet.events)
      ensures var ctl := old(manager.fleet.ctl).(count := current, paused := false);
              manager.fleet.ctl == if current == desired then ctl.(timerWaiting := None) else ctl
      ensures manager.fleet.phase ==
              if current < desired then Creating(true, current, desired - current, desired - current, {}, {}, {})
              else if current > desired then SweepStart(Soft(current - desired, current))
              else Free
    {
      hide Run, Linked, Initial, Next, Grew;
      GrewByOne(true, manager.fleet.events, Decide);
      TimerSteps(limits, manager.fleet.Current());
      manager.fleet.Note(Decide);
    }

    /** The resync with the new count, and the scaling it calls for. */
    method ScaleTo(desired: int, current: nat, tokens: seq<string>) returns (ok: bool)
      requires manager.fleet.Valid() && manager.fleet.limits == limits
      requires manager.fleet.phase == Tallied(current, Some(desired)) && |tokens| >= desired
      requires lastPressure == manager.fleet.ctl.lastPressure
      modifies this, manager.fleet
      ensures Valid() && Grew(ok && old(manager.Calm(tokens)), old(manager.fleet.events), manager.fleet.events)
      ensures ok <==> Alive()
      ensures lastPressure == old(lastPressure)
      ensures ok ==> manager.fleet.ctl == old(manager.fleet.ctl).(
                       timerWaiting := None, count := runnerCount, paused := createPaused)
      ensures ok && createPaused ==> runnerCount == current < desired
      ensures ok && current <= desired ==> current <= runnerCount <= desired
      ensures ok && desired < current ==> runnerCount <= current
      ensures old(manager.Calm(tokens)) ==> ok
    {
      hide Run, Linked, Initial, Next, AllFree, Swept, Grew, DecideScale;
      runnerCount, createPaused := current, false;
      ghost var issued, vms := manager.fleet.issued.Keys, manager.fleet.vms.Keys;
      FewerAreFree(manager.prefix, tokens, Max(desired - current, 0), issued, vms, vms);
      ghost var calm, began := manager.Calm(tokens), manager.fleet.events;
      NoteResync(desired, current);
      ghost var decided, quiet := manager.fleet.events, calm;
      if current < desired {
        quiet := manager.Calm(tokens[..desired - current]);
        ok := ScaleUp(desired - current, tokens[..desired - current], true);
      } else if current > desired {
        quiet := manager.fleet.faultFree;
        ok := ScaleDown(current, current - desired);
      } else {
        GrewNotAtAll(calm, decided);
        ok := true;
      }
      GrewQuietly(ok && calm, began, decided);
      GrewFurther(ok && calm, began, decided, ok && quiet, manager.fleet.events);
    }

    /**
     * Cleans up, counts again, lifts the pause and scales: up with the pause back on if nothing
     * was created, or down by what soft deletion really removed. If nothing fails and the
     * environment keeps still, one call reaches the target and another changes nothing.
     */
    method HandleTimerReconcile(pressure: int, tokens: seq<string>) returns (ok: bool)
      requires Valid() && Alive() && manager.fleet.ctl.timerWaiting == Some(pressure)
      requires |tokens| >= DesiredTotal(limits, pressure)
      modifies this, manager.fleet
      ensures Valid() && Grew(false, old(manager.fleet.events), manager.fleet.events)
      ensures ok <==> Alive()
      ensures lastPressure == old(lastPressure)
      ensures ok ==> manager.fleet.ctl == old(manager.fleet.ctl).(
                       timerWaiting := None, count := runnerCount, paused := createPaused)
      ensures ok && createPaused ==> runnerCount < DesiredTotal(limits, pressure)
      ensures old(manager.Calm(tokens)) ==> ok
      ensures old(manager.Calm(tokens) && Orderly(manager.fleet.Stores())) ==>
                Converged(manager.fleet.Current(), DesiredTotal(limits, pressure), old(BusyIds(manager.fleet.Stores())))
      ensures old(manager.Calm(tokens) && Orderly(manager.fleet.Stores())) ==>
                forall total :: ClampsTo(limits.minPressure, limits.maxPressure, pressure, total) ==>
                  runnerCount == |manager.fleet.vms| == Max(total, |old(BusyIds(manager.fleet.Stores()))|)
      ensures old(manager.Calm(tokens) && Orderly(manager.fleet.Stores())
                  && Converged(manager.fleet.Current(), DesiredTotal(limits, pressure), BusyIds(manager.fleet.Stores()))) ==>
                manager.fleet.Stores() == old(manager.fleet.Stores())
    {
      hide Run, Linked, Initial, Next, DesiredTotal, AllFree, Orderly, Converged, BusyIds, ClampsTo, Swept;
      var desired := DesiredTotal(limits, pressure);
      ghost var before, calm := manager.fleet.events, manager.Calm(tokens);
      TimerLockStep(limits, manager.fleet.Current());
      manager.fleet.Note(TimerLock);
      ghost var locked, vms := manager.fleet.events, manager.fleet.vms.Keys;
      var current;
      ok, current := CleanUpAndCount(desired);
      if !ok { return; }
      FewerAreFree(manager.prefix, tokens, |tokens|, manager.fleet.issued.Keys, vms, manager.fleet.vms.Keys);
      ok := ScaleTo(desired, current, tokens);
      if calm && Orderly(Run(limits, manager.fleet.start, before).world) {
        CalmSectionConverges(limits, manager.fleet.start, before, manager.fleet.events, pressure);
        ConvergedInNumbers(limits, manager.fleet.Current(), pressure, old(BusyIds(manager.fleet.Stores())));
      }
    }

    // -------------------------------------------------------------- HTTP flush

    /**
     * Any failure is answered with 500 and leaves the process running; the count is not touched.
     * Without one, a flush of busy runners leaves no VM, and one of idle runners leaves those that
     * run a job and the young ones whose runner has yet to come online.
     */
    method FlushRunner(flushBusy: Option<string>) returns (status: int)
      requires Valid() && Alive()
      modifies manager.fleet
      ensures Valid() && Alive() && manager.fleet.ctl == old(manager.fleet.ctl)
      ensures status == 204 || (status == 500 && !manager.fleet.faultFree)
      ensures |manager.fleet.events| > |old(manager.fleet.events)| && old(manager.fleet.events) <= manager.fleet.events
      ensures manager.fleet.events[|old(manager.fleet.events)|] ==
              FlushLock(flushBusy == Some("True") || flushBusy == Some("true"))
      ensures manager.fleet.faultFree && (flushBusy == Some("True") || flushBusy == Some("true")) ==>
                manager.fleet.vms == map[]
      ensures manager.fleet.faultFree && flushBusy != Some("True") && flushBusy != Some("true") ==>
                && Swept(FlushIdle, old(manager.fleet.Stores()), manager.fleet.Stores())
                && forall v :: v in manager.fleet.vms <==> SurvivesIdleFlush(old(manager.fleet.Stores()), v)
    {
      hide Run, Linked, Initial, Next, Swept, SectionSafe, SurvivesIdleFlush;
      manager.fleet.Invariants();
      ghost var stores := manager.fleet.Stores();
      FlushSteps(limits, manager.fleet.Current(), flushBusy == Some("True") || flushBusy == Some("true"));
      var busy := flushBusy == Some("True") || flushBusy == Some("true");
      manager.fleet.Note(FlushLock(busy));
      var ok := manager.FlushRunners(if busy then FLUSH_BUSY else FLUSH_IDLE);
      FlushSteps(limits, manager.fleet.Current(), busy);
      if ok {
        manager.fleet.Note(VmsDone);
        if manager.fleet.faultFree {
          if busy { BusyFlushLeavesNone(stores, manager.fleet.Stores()); }
          else { IdleFlushLeaves(stores, manager.fleet.Stores()); }
        }
        return 204;
      }
      manager.fleet.Note(Raise);
      return 500;
    }

    // -------------------------------------------------------------- three actors

    /**
     * The actors in any order and any number of times. A thread that has read its pressure may be
     * overtaken by the others before it gets the lock.
     */
    method Serve(rounds: nat)
      requires Valid() && Alive() && manager.fleet.ctl == IDLE_CONTROL
      modifies this, manager.fleet
      ensures Valid() && old(manager.fleet.events) <= manager.fleet.events
      ensures Alive() && manager.fleet.ctl.synced ==>
                |manager.fleet.vms| + LostServers(manager.fleet) == runnerCount + StrayServers(manager.fleet)
    {
      hide Run, Linked, Initial, Next, DesiredTotal;
      var createWaiting: Option<int>, timerWaiting: Option<int> := None, None;
      var alive := SyncCount();
      for i := 0 to rounds
        invariant Valid() && alive == Alive() && old(manager.fleet.events) <= manager.fleet.events
        invariant alive ==> manager.fleet.ctl.synced && createWaiting == manager.fleet.ctl.createWaiting
        invariant alive ==> timerWaiting == manager.fleet.ctl.timerWaiting
      {
        if !alive { break; }
        if
        case createWaiting.None? =>
          var pressure: int := *;
          SeePressure(pressure);
          createWaiting := Some(pressure);
        case createWaiting.Some? =>
          TargetIsCappedAndMonotone(limits, createWaiting.value, createWaiting.value);
          var tokens := DrawTokens(DesiredTotal(limits, createWaiting.value));
          alive := CreateUpTo(createWaiting.value, tokens);
          createWaiting := None;
        case timerWaiting.None? =>
          timerWaiting := WakeTimer();
        case timerWaiting.Some? =>
          TargetIsCappedAndMonotone(limits, timerWaiting.value, timerWaiting.value);
          var tokens := DrawTokens(DesiredTotal(limits, timerWaiting.value));
          alive := HandleTimerReconcile(timerWaiting.value, tokens);
          timerWaiting := None;
        case true =>
          var argument: Option<string> := *;
          var status := FlushRunner(argument);
        case true =>
          manager.fleet.Interfere();
      }
      if alive { CountIsTrusted(this); }
    }
  }

  // ---------------------------------------------------------------- what holds of every execution

  /** No VM that these methods destroyed was executing a job, unless a flush of busy runners came first. */
  lemma {:induction false} NoJobWasLost(fleet: Fleet, i: nat, v: InstanceID)
    requires fleet.Valid() && AllHaveIds(fleet.start.world) && i < |fleet.events|
    requires forall k :: 0 <= k < i ==> fleet.events[k] != FlushLock(true)
    requires Destroys(fleet.limits, fleet.start, fleet.events, i, v)
    ensures !Executing(At(fleet.limits, fleet.start, fleet.events, i).world, v)
  {
    NoJobLostWithoutLegacyVms(fleet.limits, fleet.start, fleet.events, i, v);
  }
}
