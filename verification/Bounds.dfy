/**
 * The in-memory count over-approximates the live VMs, so the cap is a bound on real VMs; and the
 * pause after a fruitless creation bounds how often creation is tried in vain.
 */
module Bounds {
  import opened Wrappers
  import opened Identifiers
  import opened PressureTarget
  import opened Runners
  import opened Machine

  /** Phases that only the timer or the create loop reach, after the initial sync. */
  predicate NeedsSync(p: Phase) {
    || p.TimerCount? || p.Creating? || (p.Tallied? && p.goal.Some?)
    || ((p.SweepStart? || p.SweepListed? || p.SweepRunners? || p.SweepVms?) && !InFlush(p))
  }

  predicate IsSoft(p: Phase) {
    (p.SweepStart? || p.SweepListed? || p.SweepRunners? || p.SweepVms?) && p.sweep.Soft?
  }

  /** The launch fails and leaves a server that no count knows of. */
  predicate LeavesServer(s: State, e: Event) {
    e.Launch? && e.outcome.Stray? && s.phase.Creating? && e.v in s.phase.pending && e.v in s.world.issued
  }

  /** The tally becomes the count, at the initial sync or at a timer's resync. */
  predicate Recounts(s: State, e: Event) {
    e == Decide && s.phase.Tallied?
  }

  /** Strays after this step, if there were `strays` since the last recount before it. */
  function StraysAfter(s: State, e: Event, strays: nat): nat {
    if Recounts(s, e) then 0 else if LeavesServer(s, e) then strays + 1 else strays
  }

  /** Servers left by failed launches since the last recount of a run. */
  ghost function Strays(limits: Limits, s: State, events: seq<Event>): nat {
    if events == [] then 0
    else
      var before := events[..|events| - 1];
      StraysAfter(Run(limits, s, before), events[|events| - 1], Strays(limits, s, before))
  }

  /** Servers left by failed launches in all of a run. */
  ghost function AllStrays(limits: Limits, s: State, events: seq<Event>): nat {
    if events == [] then 0
    else
      var before := events[..|events| - 1];
      AllStrays(limits, s, before) + if LeavesServer(Run(limits, s, before), events[|events| - 1]) then 1 else 0
  }

  ghost predicate WorkersCount(w: World, ctl: Control, p: Phase, strays: nat)
    requires p.Creating?
  {
    && p.base == ctl.count
    && p.pending !! p.created && p.created <= w.issued.Keys && p.pending <= w.issued.Keys
    && |w.vms| <= p.base + |p.created| + strays
    && 0 <= p.unstarted && |p.created| + |p.pending| + p.unstarted <= p.num
  }

  /**
   * Live VMs never outnumber the count the create loop trusts by more than the strays since the
   * last recount, section by section.
   */
  ghost predicate Counts(s: State, strays: nat) {
    && (!s.ctl.synced ==>
          !NeedsSync(s.phase) && s.ctl.lastPressure.None? && s.ctl.createWaiting.None? && s.ctl.timerWaiting.None?)
    && 0 <= s.ctl.count
    && (s.ctl.synced && !s.phase.Creating? && s.phase != Dead ==> |s.world.vms| <= s.ctl.count + strays)
    && (s.phase == InitialCount || (s.phase.Tallied? && s.phase.goal.None?) ==> !s.ctl.synced)
    && (s.phase.Tallied? ==> |s.world.vms| <= s.phase.n)
    && (s.phase.Tallied? && s.ctl.synced ==> s.phase.n <= s.ctl.count + strays)
    && (IsSoft(s.phase) ==> s.phase.sweep.total == s.ctl.count)
    && (IsSoft(s.phase) && s.phase.SweepVms? ==> |s.world.vms| <= s.ctl.count + strays - |s.phase.gone|)
    && (s.phase.Creating? ==> WorkersCount(s.world, s.ctl, s.phase, strays))
  }

  lemma {:induction false} RemovingShrinks<K, V>(m: map<K, V>, k: K)
    ensures |m - {k}| <= |m|
    ensures k in m ==> |m - {k}| == |m| - 1
  {
    assert (m - {k}).Keys == m.Keys - {k};
  }

  lemma {:induction false} UpdatingGrowsByOne<K, V>(m: map<K, V>, k: K, v: V)
    ensures |m[k := v]| <= |m| + 1
    ensures k in m ==> |m[k := v]| == |m|
  {
    assert m[k := v].Keys == m.Keys + {k};
  }

  lemma {:induction false} OutsideKeepsCounts(s: State, e: Incident, strays: nat)
    requires Counts(s, strays)
    ensures Counts(s.(world := Suffer(s.world, e)), strays)
  {
    match e
    case StatusChange(v, state) =>
      if v in s.world.vms { UpdatingGrowsByOne(s.world.vms, v, s.world.vms[v].(state := state)); }
    case Vanishes(v) => RemovingShrinks(s.world.vms, v);
    case _ =>
  }

  lemma {:induction false} LaunchKeepsCounts(s: State, v: InstanceID, outcome: LaunchOutcome, strays: nat)
    requires Counts(s, strays)
    ensures Counts(LaunchOne(s, v, outcome), StraysAfter(s, Launch(v, outcome), strays))
  {
    if s.phase.Creating? && v in s.phase.pending && v in s.world.issued {
      UpdatingGrowsByOne(s.world.vms, v, VM(v, Some(s.world.issued[v]), CREATED, s.world.now));
      assert s.phase.pending == (s.phase.pending - {v}) + {v};
    }
  }

  lemma {:induction false} RegisterKeepsCounts(s: State, v: InstanceID, id: GitHubId, strays: nat)
    requires Counts(s, strays)
    ensures Counts(RegisterOne(s, v, id), strays)
  {
  }

  lemma {:induction false} FinishCreateKeepsCounts(s: State, strays: nat)
    requires Counts(s, strays)
    ensures Counts(FinishCreate(s), strays)
  {
  }

  lemma {:induction false} ControlKeepsCounts(limits: Limits, s: State, e: Event, strays: nat)
    requires Counts(s, strays) && InControl(e)
    ensures Counts(Next(limits, s, e), StraysAfter(s, e, strays))
  {
  }

  lemma {:induction false} DeleteServerKeepsCounts(s: State, v: InstanceID, ok: bool, strays: nat)
    requires Counts(s, strays)
    ensures Counts(DeleteOneServer(s, v, ok), strays)
  {
    RemovingShrinks(s.world.vms, v);
  }

  lemma {:induction false} FinishVmsKeepsCounts(s: State, strays: nat)
    requires Counts(s, strays)
    ensures Counts(FinishVms(s), strays)
  {
  }

  lemma {:induction false} SweepKeepsCounts(limits: Limits, s: State, e: Event, strays: nat)
    requires Counts(s, strays) && InSweep(e)
    ensures Counts(Next(limits, s, e), strays)
  {
    hide Choose, Enumerates, Lists, DeleteOneServer, FinishVms, VmsToCleanup;
    match e
    case DeleteServer(v, ok) => DeleteServerKeepsCounts(s, v, ok, strays);
    case VmsDone => FinishVmsKeepsCounts(s, strays);
    case _ =>
  }

  lemma {:induction false} CreationKeepsCounts(limits: Limits, s: State, e: Event, strays: nat)
    requires Counts(s, strays) && InCreation(e)
    ensures Counts(Next(limits, s, e), StraysAfter(s, e, strays))
  {
    hide Fresh, LaunchOne, RegisterOne, FinishCreate;
    match e
    case Launch(v, outcome) => LaunchKeepsCounts(s, v, outcome, strays);
    case Register(v, id) => RegisterKeepsCounts(s, v, id, strays);
    case CreateDone => FinishCreateKeepsCounts(s, strays);
    case _ =>
  }

  lemma {:induction false} StepKeepsCounts(limits: Limits, s: State, e: Event, strays: nat)
    requires Counts(s, strays)
    ensures Counts(Next(limits, s, e), StraysAfter(s, e, strays))
  {
    hide Counts, Choose, Enumerates, Lists;
    if e.Outside? { OutsideKeepsCounts(s, e.incident, strays); }
    else if InSweep(e) { SweepKeepsCounts(limits, s, e, strays); }
    else if InCreation(e) { CreationKeepsCounts(limits, s, e, strays); }
    else { ControlKeepsCounts(limits, s, e, strays); }
  }

  lemma {:induction false} RunsKeepCounts(limits: Limits, s: State, events: seq<Event>)
    requires Counts(s, 0)
    ensures Counts(Run(limits, s, events), Strays(limits, s, events))
  {
    if events == [] {
    } else {
      var before := events[..|events| - 1];
      RunsKeepCounts(limits, s, before);
      StepKeepsCounts(limits, Run(limits, s, before), events[|events| - 1], Strays(limits, s, before));
    }
  }

  /** Likewise from a state with strays behind it. */
  lemma {:induction false} RunsKeepCountsFrom(limits: Limits, s: State, events: seq<Event>, strays: nat)
    returns (after: nat)
    requires Counts(s, strays)
    ensures Counts(Run(limits, s, events), after)
  {
    hide Counts;
    after := strays;
    if events == [] {
    } else {
      var before, e := events[..|events| - 1], events[|events| - 1];
      var k := RunsKeepCountsFrom(limits, s, before, strays);
      StepKeepsCounts(limits, Run(limits, s, before), e, k);
      after := StraysAfter(Run(limits, s, before), e, k);
    }
  }

  /**
   * Whenever the lock is free after the initial sync, live VMs are at most the in-memory count and
   * the servers that failed launches have left since the last recount.
   */
  lemma {:induction false} CountOverApproximates(limits: Limits, s: State, events: seq<Event>)
    requires Initial(s)
    ensures var t := Run(limits, s, events);
            t.phase == Free && t.ctl.synced ==> |t.world.vms| <= t.ctl.count + Strays(limits, s, events)
  {
    RunsKeepCounts(limits, s, events);
  }

  /** A run in which the only launch fails and leaves its server. */
  function StrayRun(v: InstanceID, id: GitHubId): seq<Event> {
    [StartSync, CountServers, Decide, PressureSeen(1), CreateLock,
     Register(v, id), Launch(v, Stray), Undo(v, true), CreateDone]
  }

  lemma {:induction false} NoEvents(limits: Limits, s: State)
    ensures Run(limits, s, []) == s && Strays(limits, s, []) == 0
  {}

  /** The state and the strays after one more event of a run. */
  lemma {:induction false} OneMore(limits: Limits, s: State, events: seq<Event>, i: nat)
    requires i < |events|
    ensures Run(limits, s, events[..i + 1]) == Next(limits, Run(limits, s, events[..i]), events[i])
    ensures Strays(limits, s, events[..i + 1])
            == StraysAfter(Run(limits, s, events[..i]), events[i], Strays(limits, s, events[..i]))
  {
    assert events[..i + 1][..i] == events[..i];
  }

  const EMPTY_START := State(World(map[], map[], map[], 0), Free, IDLE_CONTROL)

  const ONE_SEEN := IDLE_CONTROL.(synced := true, lastPressure := Some(1), createWaiting := Some(1))

  lemma {:induction false} StrayRunStarts(limits: Limits, v: InstanceID, id: GitHubId)
    requires DesiredTotal(limits, 1) == 1
    ensures Run(limits, EMPTY_START, StrayRun(v, id)[..5])
            == State(EMPTY_START.world, Creating(false, 0, 1, 1, {}, {}, {}), ONE_SEEN)
    ensures Strays(limits, EMPTY_START, StrayRun(v, id)[..5]) == 0
  {
    hide Run, Strays, DesiredTotal;
    var events := StrayRun(v, id);
    NoEvents(limits, EMPTY_START);
    assert events[..0] == [];
    OneMore(limits, EMPTY_START, events, 0);
    OneMore(limits, EMPTY_START, events, 1);
    OneMore(limits, EMPTY_START, events, 2);
    OneMore(limits, EMPTY_START, events, 3);
    OneMore(limits, EMPTY_START, events, 4);
  }

  lemma {:induction false} StrayRunLaunches(limits: Limits, v: InstanceID, id: GitHubId)
    requires DesiredTotal(limits, 1) == 1
    ensures var t := Run(limits, EMPTY_START, StrayRun(v, id)[..7]);
            && t.phase == Creating(false, 0, 1, 0, {}, {v}, {}) && t.ctl == ONE_SEEN
            && t.world.vms.Keys == {v} && t.world.issued == map[v := id]
    ensures Strays(limits, EMPTY_START, StrayRun(v, id)[..7]) == 1
  {
    hide Run, Strays, DesiredTotal;
    var events := StrayRun(v, id);
    StrayRunStarts(limits, v, id);
    OneMore(limits, EMPTY_START, events, 5);
    OneMore(limits, EMPTY_START, events, 6);
    assert {v} - {v} == {} && {} + {v} == {v};
  }

  /**
   * The bound is met: at the end of this run the lock is free, the count is 0, and the one live VM
   * is what the failed launch left behind.
   */
  lemma {:induction false} StraysAreUncounted(limits: Limits, v: InstanceID, id: GitHubId)
    requires DesiredTotal(limits, 1) == 1
    ensures var t := Run(limits, EMPTY_START, StrayRun(v, id));
            && Initial(EMPTY_START) && t.phase == Free && t.ctl.synced && t.ctl.count == 0
            && t.world.vms.Keys == {v} && Strays(limits, EMPTY_START, StrayRun(v, id)) == 1
  {
    hide Run, Strays, DesiredTotal;
    var events := StrayRun(v, id);
    StrayRunLaunches(limits, v, id);
    OneMore(limits, EMPTY_START, events, 7);
    OneMore(limits, EMPTY_START, events, 8);
    assert {v} - {v} == {} && events[..9] == events;
  }

  // ---------------------------------------------------------------- the cap

  predicate InCleanup(p: Phase) {
    (p.SweepStart? || p.SweepListed? || p.SweepRunners? || p.SweepVms?) && p.sweep.Cleanup?
  }

  /** Neither the VMs, the count nor what a creation in progress aims at exceeds the bound. */
  ghost predicate Capped(limits: Limits, bound: int, s: State, strays: nat) {
    && (s.ctl.synced || s.phase == Dead || (s.phase.Tallied? && s.phase.goal.None?))
    && s.phase != InitialCount
    && 0 < limits.maxPressure && limits.maxPressure + strays <= bound
    && |s.world.vms| <= bound
    && (s.ctl.synced ==> s.ctl.count + strays <= bound)
    && (s.phase.Tallied? ==> s.phase.n <= bound && (s.phase.goal.Some? ==> s.phase.goal.value <= limits.maxPressure))
    && (s.phase.Creating? ==> s.phase.base + s.phase.num + strays <= bound)
    && (s.phase.TimerCount? ==> s.phase.desired <= limits.maxPressure)
    && (InCleanup(s.phase) ==> s.phase.sweep.desired <= limits.maxPressure)
  }

  /** The bound grows with every server that a failed launch leaves. */
  function BoundAfter(s: State, e: Event, bound: int): int {
    if LeavesServer(s, e) then bound + 1 else bound
  }

  lemma {:induction false} OutsideKeepsCapped(limits: Limits, bound: int, s: State, e: Incident, strays: nat)
    requires Capped(limits, bound, s, strays)
    ensures Capped(limits, bound, s.(world := Suffer(s.world, e)), strays)
  {
    match e
    case StatusChange(v, state) =>
      if v in s.world.vms { UpdatingGrowsByOne(s.world.vms, v, s.world.vms[v].(state := state)); }
    case Vanishes(v) => RemovingShrinks(s.world.vms, v);
    case _ =>
  }

  lemma {:induction false} ControlKeepsCapped(limits: Limits, bound: int, s: State, e: Event, strays: nat)
    requires Counts(s, strays) && Capped(limits, bound, s, strays) && InControl(e)
    ensures Capped(limits, bound, Next(limits, s, e), StraysAfter(s, e, strays))
  {
  }

  lemma {:induction false} DeletionKeepsCapped(limits: Limits, bound: int, s: State, v: InstanceID, ok: bool, strays: nat)
    requires Counts(s, strays) && Capped(limits, bound, s, strays)
    ensures Capped(limits, bound, DeleteOneServer(s, v, ok), strays)
    ensures Capped(limits, bound, FinishVms(s), strays)
  {
    RemovingShrinks(s.world.vms, v);
  }

  lemma {:induction false} SweepKeepsCapped(limits: Limits, bound: int, s: State, e: Event, strays: nat)
    requires Counts(s, strays) && Capped(limits, bound, s, strays) && InSweep(e)
    ensures Capped(limits, bound, Next(limits, s, e), strays)
  {
    hide Choose, Enumerates, Lists, DeleteOneServer, FinishVms, VmsToCleanup, Counts;
    match e
    case DeleteServer(v, ok) => DeletionKeepsCapped(limits, bound, s, v, ok, strays);
    case VmsDone => DeletionKeepsCapped(limits, bound, s, InstanceID("", "", ""), true, strays);
    case _ =>
  }

  /** A creation in progress has not made more VMs than it was asked for. */
  lemma {:induction false} CreatedWithinNum(s: State, strays: nat)
    requires Counts(s, strays) && s.phase.Creating?
    ensures |s.world.vms| <= s.phase.base + |s.phase.created| + strays
    ensures |s.phase.created| <= s.phase.num
  {
  }

  lemma {:induction false} LaunchKeepsCapped(
    limits: Limits, bound: int, s: State, v: InstanceID, outcome: LaunchOutcome, strays: nat)
    requires Counts(s, strays) && Capped(limits, bound, s, strays)
    ensures var e := Launch(v, outcome);
            Capped(limits, BoundAfter(s, e, bound), LaunchOne(s, v, outcome), StraysAfter(s, e, strays))
  {
    hide Counts;
    LaunchKeepsCounts(s, v, outcome, strays);
    if s.phase.Creating? {
      CreatedWithinNum(LaunchOne(s, v, outcome), StraysAfter(s, Launch(v, outcome), strays));
    }
  }

  lemma {:induction false} CreationKeepsCapped(limits: Limits, bound: int, s: State, e: Event, strays: nat)
    requires Counts(s, strays) && Capped(limits, bound, s, strays) && InCreation(e)
    ensures Capped(limits, BoundAfter(s, e, bound), Next(limits, s, e), StraysAfter(s, e, strays))
  {
    hide Fresh, Counts, LaunchOne;
    if e.Launch? {
      LaunchKeepsCapped(limits, bound, s, e.v, e.outcome, strays);
    } else if s.phase.Creating? {
      CreatedWithinNum(s, strays);
    }
  }

  lemma {:induction false} StepKeepsCapped(limits: Limits, bound: int, s: State, e: Event, strays: nat)
    requires Counts(s, strays) && Capped(limits, bound, s, strays)
    ensures Capped(limits, BoundAfter(s, e, bound), Next(limits, s, e), StraysAfter(s, e, strays))
  {
    hide Counts, Capped, Choose, Enumerates, Lists;
    if e.Outside? { OutsideKeepsCapped(limits, bound, s, e.incident, strays); }
    else if InSweep(e) { SweepKeepsCapped(limits, bound, s, e, strays); }
    else if InCreation(e) { CreationKeepsCapped(limits, bound, s, e, strays); }
    else { ControlKeepsCapped(limits, bound, s, e, strays); }
  }

  /** A run from the tally of the initial sync on. */
  lemma {:induction false} RunsKeepCapped(limits: Limits, bound: int, s: State, events: seq<Event>)
    requires Counts(s, 0) && Capped(limits, bound, s, 0)
    ensures var t, strays := Run(limits, s, events), Strays(limits, s, events);
            Counts(t, strays) && Capped(limits, bound + AllStrays(limits, s, events), t, strays)
  {
    hide Counts, Capped, Next, StraysAfter;
    if events == [] {
    } else {
      var before, e := events[..|events| - 1], events[|events| - 1];
      var t, strays := Run(limits, s, before), Strays(limits, s, before);
      RunsKeepCapped(limits, bound, s, before);
      StepKeepsCounts(limits, t, e, strays);
      StepKeepsCapped(limits, bound + AllStrays(limits, s, before), t, e, strays);
    }
  }

  lemma {:induction false} RunsCompose(limits: Limits, s: State, a: seq<Event>, b: seq<Event>)
    ensures Run(limits, s, a + b) == Run(limits, Run(limits, s, a), b)
  {
    if b == [] {
      assert a + b == a;
    } else {
      var b' := b[..|b| - 1];
      RunsCompose(limits, s, a, b');
      assert (a + b)[..|a + b| - 1] == a + b';
    }
  }

  lemma {:induction false} InitialCounts(s: State)
    requires Initial(s)
    ensures Counts(s, 0)
  {
  }

  lemma {:induction false} SyncIsCapped(limits: Limits, atSync: State, strays: nat)
    requires limits.maxPressure > 0 && Counts(atSync, strays) && atSync.phase == InitialCount
    ensures var synced := Next(limits, atSync, CountServers);
            Counts(synced, 0) && Capped(limits, Max(limits.maxPressure, |atSync.world.vms|), synced, 0)
  {
  }

  /**
   * With a cap set, live VMs never exceed the larger of the cap and the VMs at the initial sync by
   * more than the servers that failed launches have left since, in every later state of every run,
   * the middle of a creation and the end by an escaped exception included.
   */
  lemma {:induction false} LiveVmsAreCapped(limits: Limits, s: State, before: seq<Event>, after: seq<Event>)
    requires limits.maxPressure > 0 && Initial(s)
    requires Run(limits, s, before).phase == InitialCount
    ensures var atSync, synced := Run(limits, s, before), Run(limits, s, before + [CountServers]);
            var t := Run(limits, s, before + [CountServers] + after);
            |t.world.vms| <= Max(limits.maxPressure, |atSync.world.vms|) + AllStrays(limits, synced, after)
  {
    hide Run, Next, Counts;
    var atSync := Run(limits, s, before);
    var synced := Run(limits, s, before + [CountServers]);
    InitialCounts(s);
    RunsKeepCounts(limits, s, before);
    RunOneMore(limits, s, before, CountServers);
    SyncIsCapped(limits, atSync, Strays(limits, s, before));
    RunsKeepCapped(limits, Max(limits.maxPressure, |atSync.world.vms|), synced, after);
    RunsCompose(limits, s, before + [CountServers], after);
  }

  // ---------------------------------------------------------------- back-off budget

  /** The event completes a create call that returned no ID. */
  ghost predicate IsZeroCreate(s: State, e: Event) {
    e == CreateDone && AllWorkersDone(s.phase) && s.phase.created == {}
  }

  /** The event is the resynchronisation of a timer reconcile. */
  ghost predicate IsResync(s: State, e: Event) {
    e == Decide && s.phase.Tallied? && s.phase.goal.Some?
  }

  ghost function ZeroCreates(limits: Limits, s: State, events: seq<Event>): nat {
    if events == [] then 0
    else
      var before := events[..|events| - 1];
      ZeroCreates(limits, s, before)
      + if IsZeroCreate(Run(limits, s, before), events[|events| - 1]) then 1 else 0
  }

  ghost function Resyncs(limits: Limits, s: State, events: seq<Event>): nat {
    if events == [] then 0
    else
      var before := events[..|events| - 1];
      Resyncs(limits, s, before)
      + if IsResync(Run(limits, s, before), events[|events| - 1]) then 1 else 0
  }

  /** How one step may change the pause. */
  lemma {:induction false} PauseSteps(limits: Limits, s: State, e: Event)
    ensures var t := Next(limits, s, e);
            && (t.ctl.paused != s.ctl.paused ==> IsZeroCreate(s, e) || IsResync(s, e))
            && (IsZeroCreate(s, e) ==> t.ctl.paused)
            && (t.phase.Creating? && !s.phase.Creating? ==> !t.ctl.paused)
  {
  }

  /**
   * In every run, fruitless create calls outnumber the timer's resyncs by at most one, and only
   * while the create loop is paused; no creation is in progress while it is paused.
   */
  lemma {:induction false} BackOffBudget(limits: Limits, s: State, events: seq<Event>)
    requires Initial(s)
    ensures var t := Run(limits, s, events);
            && ZeroCreates(limits, s, events) <= Resyncs(limits, s, events) + (if t.ctl.paused then 1 else 0)
            && (t.phase.Creating? ==> !t.ctl.paused)
  {
    if events == [] {
    } else {
      var before := events[..|events| - 1];
      BackOffBudget(limits, s, before);
      var t, e := Run(limits, s, before), events[|events| - 1];
      PauseSteps(limits, t, e);
    }
  }
}
