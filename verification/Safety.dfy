/**
 * No job is lost: safety over every run of the protocol, whatever the environment does between
 * the API calls of a locked section.
 */
module Safety {
  import opened Wrappers
  import opened Identifiers
  import opened PressureTarget
  import opened Runners
  import opened ScaleDown
  import opened Machine

  // ---------------------------------------------------------------- the link between the stores

  /**
   * Every VM with a runner ID carries the one issued for its own name, every registration is
   * that of its own name, and no ID was issued for two names.
   */
  ghost predicate Linked(w: World) {
    && (forall v :: v in w.vms && w.vms[v].runnerId.Some? ==>
          v in w.issued && w.issued[v] == w.vms[v].runnerId.value)
    && (forall id :: id in w.runners ==>
          w.runners[id].instance in w.issued && w.issued[w.runners[id].instance] == id)
    && (forall a, b :: a in w.issued && b in w.issued && w.issued[a] == w.issued[b] ==> a == b)
    && (forall v :: v in w.vms ==> w.vms[v].instance == v)
  }

  /** No legacy VM: every VM carries a runner ID. */
  ghost predicate AllHaveIds(w: World) {
    forall v :: v in w.vms ==> w.vms[v].runnerId.Some?
  }

  /** A server list taken earlier in this locked section still covers every VM there is. */
  ghost predicate Covers(vms: seq<VM>, w: World) {
    && (forall i :: 0 <= i < |vms| && vms[i].runnerId.Some? ==>
          vms[i].instance in w.issued && w.issued[vms[i].instance] == vms[i].runnerId.value)
    && (forall i :: 0 <= i < |vms| && vms[i].instance in w.vms ==>
          w.vms[vms[i].instance].runnerId == vms[i].runnerId)
    && (forall v :: v in w.vms ==> v in Instances(vms))
  }

  /** A VM may be deleted without harm: it is a legacy one or its runner is not registered. */
  ghost predicate Released(w: World, v: InstanceID) {
    v in w.vms ==> w.vms[v].runnerId.None? || (v in w.issued && w.issued[v] !in w.runners)
  }

  /** What holds of the section in progress. */
  ghost predicate SectionSafe(s: State) {
    match s.phase
    case SweepListed(_, vms) => Covers(vms, s.world)
    case SweepRunners(sweep, vms, chosen, todo, deleted) =>
      && Covers(vms, s.world)
      && todo <= chosen && deleted <= chosen
      && (forall id :: id in deleted ==> id.n !in s.world.runners)
      && (forall id :: id in chosen && id.Listed? && id.n in s.world.runners ==>
            s.world.runners[id.n].instance !in s.world.vms)
      && (sweep.FlushBusy? ==> forall i :: 0 <= i < |vms| && vms[i].runnerId.Some? ==>
                                             Stored(vms[i].runnerId.value) in chosen)
    case SweepVms(sweep, _, left, _) =>
      !sweep.FlushBusy? ==> forall v :: v in left ==> Released(s.world, v)
    case Creating(_, _, _, _, pending, undo, _) =>
      && pending !! undo && pending + undo <= s.world.issued.Keys
      && forall v :: v in pending ==> v !in s.world.vms
    case _ => true
  }

  ghost predicate Safe(s: State) {
    Linked(s.world) && SectionSafe(s)
  }

  // ---------------------------------------------------------------- every step keeps it

  lemma {:induction false} OutsideKeepsLinked(w: World, e: Incident)
    requires Linked(w)
    ensures Linked(Suffer(w, e))
  {
  }

  lemma {:induction false} OutsideKeepsCovers(vms: seq<VM>, w: World, e: Incident)
    requires Covers(vms, w)
    ensures Covers(vms, Suffer(w, e))
  {
  }

  /** The environment neither adds VMs or registrations nor moves or renumbers them. */
  lemma {:induction false} OutsideAddsNothing(w: World, e: Incident)
    ensures var w' := Suffer(w, e);
            && w'.issued == w.issued && w'.vms.Keys <= w.vms.Keys && w'.runners.Keys <= w.runners.Keys
            && (forall v :: v in w'.vms ==> w'.vms[v].runnerId == w.vms[v].runnerId)
            && (forall id :: id in w'.runners ==> w'.runners[id].instance == w.runners[id].instance)
  {
  }

  lemma {:induction false} OutsideKeepsSafe(s: State, e: Incident)
    requires Safe(s)
    ensures Safe(s.(world := Suffer(s.world, e)))
  {
    OutsideKeepsLinked(s.world, e);
    OutsideAddsNothing(s.world, e);
    if s.phase.SweepListed? || s.phase.SweepRunners? { OutsideKeepsCovers(s.phase.vms, s.world, e); }
    hide Linked, Covers, Suffer;
  }

  lemma {:induction false} ListServersKeepsSafe(s: State, vms: seq<VM>)
    requires Safe(s) && s.phase.SweepStart? && Enumerates(vms, s.world.vms)
    ensures Covers(vms, s.world)
  {
    forall v | v in s.world.vms ensures v in Instances(vms) {
      assert s.world.vms[v] in vms && s.world.vms[v].instance == v;
    }
  }

  /** Scale-down and flush add stored IDs only. */
  lemma {:induction false} ListedComeFromCleanup(
    sweep: Sweep, vms: seq<VM>, listing: seq<ListedRunner>, now: int, n: GitHubId)
    requires Listed(n) in Choose(sweep, vms, listing, now)
    ensures Listed(n) in CleanupSet(vms, listing, now)
  {
    hide RunnersToCleanup, Sorted, NotBusy, NotMarked, RequestedHealth, NonRequested;
  }

  /** Everything chosen under a listed ID is a registration without a VM. */
  lemma {:induction false} ChosenListedAreDangling(
    sweep: Sweep, vms: seq<VM>, listing: seq<ListedRunner>, now: int, n: GitHubId)
    requires Listed(n) in Choose(sweep, vms, listing, now)
    ensures exists r :: r in listing && r.id == n && r.instance !in Instances(vms)
  {
    ListedComeFromCleanup(sweep, vms, listing, now, n);
    hide Choose, CleanupSet;
    CleanupTakesDangling(vms, listing, now, n);
  }

  /** FLUSH_BUSY selects the runner of every VM that has one. */
  lemma {:induction false} FlushBusyChoosesAll(vms: seq<VM>, listing: seq<ListedRunner>, now: int, i: nat)
    requires i < |vms| && vms[i].runnerId.Some?
    ensures Stored(vms[i].runnerId.value) in Choose(FlushBusy, vms, listing, now)
  {
    var health := RequestedHealth(vms, listing);
    assert health[i] in health && health[i].vm == vms[i];
    assert Stored(vms[i].runnerId.value) in RunnersToFlush(health, FLUSH_BUSY);
  }

  lemma {:induction false} ListRunnersKeepsSafe(s: State, listing: seq<ListedRunner>, lag: nat)
    requires Safe(s) && s.phase.SweepListed? && Lists(listing, s.world.runners)
    ensures var chosen := Choose(s.phase.sweep, s.phase.vms, listing, s.world.now + lag);
            Safe(s.(phase := SweepRunners(s.phase.sweep, s.phase.vms, chosen, chosen, {})))
  {
    hide Choose;
    var sweep, vms := s.phase.sweep, s.phase.vms;
    var chosen := Choose(sweep, vms, listing, s.world.now + lag);
    forall id | id in chosen && id.Listed? && id.n in s.world.runners
      ensures s.world.runners[id.n].instance !in s.world.vms
    {
      ChosenListedAreDangling(sweep, vms, listing, s.world.now + lag, id.n);
    }
    if sweep.FlushBusy? {
      forall i | 0 <= i < |vms| && vms[i].runnerId.Some? ensures Stored(vms[i].runnerId.value) in chosen {
        FlushBusyChoosesAll(vms, listing, s.world.now + lag, i);
      }
    }
  }

  lemma {:induction false} FinishRunnersKeepsSafe(s: State)
    requires Safe(s) && s.phase.SweepRunners?
    ensures Safe(FinishRunners(s))
  {
    if s.phase.todo == {} && !s.phase.sweep.FlushBusy? {
      var vms := s.phase.vms;
      forall v | v in VmsToCleanup(vms, s.phase.deleted) ensures Released(s.world, v) {
        var i :| 0 <= i < |vms| && vms[i].instance == v
                 && (vms[i].runnerId.None? || Stored(vms[i].runnerId.value) in s.phase.deleted);
      }
    }
  }

  lemma {:induction false} RegisterKeepsSafe(s: State, v: InstanceID, id: GitHubId)
    requires Safe(s)
    ensures Safe(RegisterOne(s, v, id))
  {
  }

  lemma {:induction false} LaunchKeepsSafe(s: State, v: InstanceID, outcome: LaunchOutcome)
    requires Safe(s)
    ensures Safe(LaunchOne(s, v, outcome))
  {
  }

  lemma {:induction false} UndoKeepsSafe(s: State, v: InstanceID, reached: bool)
    requires Safe(s)
    ensures Safe(UndoOne(s, v, reached))
  {
  }

  lemma {:induction false} DeleteRunnerKeepsSafe(s: State, id: RunnerId)
    requires Safe(s)
    ensures Safe(DeleteOneRunner(s, id))
  {
  }

  lemma {:induction false} DeleteServerKeepsSafe(s: State, v: InstanceID, ok: bool)
    requires Safe(s)
    ensures Safe(DeleteOneServer(s, v, ok))
  {
  }

  lemma {:induction false} ControlKeepsSafe(limits: Limits, s: State, e: Event)
    requires Safe(s) && InControl(e)
    ensures Safe(Next(limits, s, e))
  {
  }

  lemma {:induction false} SweepKeepsSafe(limits: Limits, s: State, e: Event)
    requires Safe(s) && InSweep(e)
    ensures Safe(Next(limits, s, e))
  {
    hide Choose;
    match e
    case ListServers(vms) => if s.phase.SweepStart? && Enumerates(vms, s.world.vms) { ListServersKeepsSafe(s, vms); }
    case ListRunners(listing, lag) =>
      if s.phase.SweepListed? && Lists(listing, s.world.runners) { ListRunnersKeepsSafe(s, listing, lag); }
    case RunnersDone => if s.phase.SweepRunners? { FinishRunnersKeepsSafe(s); }
    case DeleteRunner(id) => DeleteRunnerKeepsSafe(s, id);
    case DeleteServer(v, ok) => DeleteServerKeepsSafe(s, v, ok);
    case _ =>
  }

  lemma {:induction false} CreationKeepsSafe(limits: Limits, s: State, e: Event)
    requires Safe(s) && InCreation(e)
    ensures Safe(Next(limits, s, e))
  {
    match e
    case Register(v, id) => RegisterKeepsSafe(s, v, id);
    case Launch(v, outcome) => LaunchKeepsSafe(s, v, outcome);
    case Undo(v, reached) => UndoKeepsSafe(s, v, reached);
    case _ =>
  }

  lemma {:induction false} StepKeepsSafe(limits: Limits, s: State, e: Event)
    requires Safe(s)
    ensures Safe(Next(limits, s, e))
  {
    hide Choose;
    if e.Outside? { OutsideKeepsSafe(s, e.incident); }
    else if InSweep(e) { SweepKeepsSafe(limits, s, e); }
    else if InCreation(e) { CreationKeepsSafe(limits, s, e); }
    else { ControlKeepsSafe(limits, s, e); }
  }

  // ---------------------------------------------------------------- theorems over runs

  lemma {:induction false} RunsAreSafe(limits: Limits, s: State, events: seq<Event>)
    requires Safe(s)
    ensures Safe(Run(limits, s, events))
  {
    if events == [] {
    } else {
      RunsAreSafe(limits, s, events[..|events| - 1]);
      StepKeepsSafe(limits, Run(limits, s, events[..|events| - 1]), events[|events| - 1]);
    }
  }

  lemma {:induction false} RunsKeepIds(limits: Limits, s: State, events: seq<Event>)
    requires AllHaveIds(s.world)
    ensures AllHaveIds(Run(limits, s, events).world)
  {
    hide Choose, Enumerates, Lists, Fresh;
    if events == [] {
    } else {
      RunsKeepIds(limits, s, events[..|events| - 1]);
    }
  }

  /** The manager itself, not the environment, takes the VM away in step i. */
  ghost predicate Destroys(limits: Limits, s: State, events: seq<Event>, i: nat, v: InstanceID)
    requires i < |events|
  {
    && !events[i].Outside?
    && v in At(limits, s, events, i).world.vms
    && v !in At(limits, s, events, i + 1).world.vms
  }

  /** A flush request with flush-busy is being served in this state. */
  predicate ServingFlushBusy(p: Phase) {
    InFlush(p) && p.sweep.FlushBusy?
  }

  lemma {:induction false} NoFlushBusyWithoutRequest(limits: Limits, s: State, events: seq<Event>, i: nat)
    requires i <= |events| && !ServingFlushBusy(s.phase)
    requires forall k :: 0 <= k < i ==> events[k] != FlushLock(true)
    ensures !ServingFlushBusy(At(limits, s, events, i).phase)
  {
    hide Choose, Enumerates, Lists, Fresh;
    if i == 0 {
    } else {
      NoFlushBusyWithoutRequest(limits, s, events, i - 1);
      StepsOfRun(limits, s, events, i - 1);
    }
  }

  lemma {:induction false} OnlyDeleteServerRemoves(limits: Limits, s: State, e: Event, v: InstanceID)
    requires !e.Outside? && v in s.world.vms && v !in Next(limits, s, e).world.vms
    ensures e.DeleteServer? && e.v == v && s.phase.SweepVms? && v in s.phase.left
  {
  }

  /** A released VM runs no job unless it is a legacy one. */
  lemma {:induction false} ReleasedIsIdle(w: World, v: InstanceID)
    requires Linked(w) && v in w.vms && Released(w, v)
    ensures w.vms[v].runnerId.None? || !Executing(w, v)
  {
  }

  /**
   * No job is lost. Without a FLUSH_BUSY request, a VM the manager destroys is either a legacy
   * one without runner ID or, at that very moment, runs no job.
   */
  lemma {:induction false} NoJobLost(limits: Limits, s: State, events: seq<Event>, i: nat, v: InstanceID)
    requires Safe(s) && !ServingFlushBusy(s.phase) && i < |events|
    requires forall k :: 0 <= k < i ==> events[k] != FlushLock(true)
    requires Destroys(limits, s, events, i, v)
    ensures At(limits, s, events, i).world.vms[v].runnerId.None? || !Executing(At(limits, s, events, i).world, v)
  {
    StepsOfRun(limits, s, events, i);
    RunsAreSafe(limits, s, events[..i]);
    NoFlushBusyWithoutRequest(limits, s, events, i);
    OnlyDeleteServerRemoves(limits, At(limits, s, events, i), events[i], v);
    ReleasedIsIdle(At(limits, s, events, i).world, v);
  }

  /** The snapshot of a section names every VM there is, under the runner ID it has. */
  lemma {:induction false} TargetsOfExecuting(s: State, v: InstanceID)
    requires Safe(s) && s.phase.SweepRunners? && !s.phase.sweep.FlushBusy?
    requires v in s.world.vms && Executing(s.world, v)
    ensures v in VmsToCleanup(s.phase.vms, s.phase.deleted) <==> s.world.vms[v].runnerId.None?
  {
    var w, p := s.world, s.phase;
    var i :| 0 <= i < |p.vms| && p.vms[i].instance == v;
    assert p.vms[i].runnerId == w.vms[v].runnerId;
    if v in VmsToCleanup(p.vms, p.deleted) {
      var k :| 0 <= k < |p.vms| && p.vms[k].instance == v
               && (p.vms[k].runnerId.None? || Stored(p.vms[k].runnerId.value) in p.deleted);
      assert p.vms[k].runnerId == w.vms[v].runnerId;
    }
  }

  /**
   * The exception is exact: when a section goes on to delete VMs, one that is executing a job is
   * among its targets exactly if it is a legacy one.
   */
  lemma {:induction false} JobIsAtRiskIff(limits: Limits, s: State, events: seq<Event>, i: nat, v: InstanceID)
    requires Safe(s) && !ServingFlushBusy(s.phase) && i < |events|
    requires forall k :: 0 <= k < i ==> events[k] != FlushLock(true)
    requires events[i] == RunnersDone
    requires At(limits, s, events, i).phase.SweepRunners? && At(limits, s, events, i).phase.todo == {}
    requires v in At(limits, s, events, i).world.vms && Executing(At(limits, s, events, i).world, v)
    ensures var t, t' := At(limits, s, events, i), At(limits, s, events, i + 1);
            t'.phase.SweepVms? && t'.world == t.world
            && (v in t'.phase.left <==> t.world.vms[v].runnerId.None?)
  {
    hide Run, Safe, VmsToCleanup, Executing;
    StepsOfRun(limits, s, events, i);
    RunsAreSafe(limits, s, events[..i]);
    NoFlushBusyWithoutRequest(limits, s, events, i);
    TargetsOfExecuting(At(limits, s, events, i), v);
  }

  /** In particular no job at all is lost in a deployment without legacy VMs. */
  lemma {:induction false} NoJobLostWithoutLegacyVms(
    limits: Limits, s: State, events: seq<Event>, i: nat, v: InstanceID)
    requires Initial(s) && Linked(s.world) && AllHaveIds(s.world) && i < |events|
    requires forall k :: 0 <= k < i ==> events[k] != FlushLock(true)
    requires Destroys(limits, s, events, i, v)
    ensures !Executing(At(limits, s, events, i).world, v)
  {
    RunsKeepIds(limits, s, events[..i]);
    NoJobLost(limits, s, events, i, v);
  }

  /** FLUSH_BUSY, by contrast, targets every VM of its snapshot, refused deletions or not. */
  lemma {:induction false} FlushBusyTargetsEverything(limits: Limits, s: State, events: seq<Event>, i: nat)
    requires Safe(s) && i < |events| && events[i] == RunnersDone
    requires var p := At(limits, s, events, i).phase; p.SweepRunners? && p.sweep.FlushBusy? && p.todo == {}
    ensures var p, q := At(limits, s, events, i).phase, At(limits, s, events, i + 1).phase;
            q.SweepVms? && q.targets == Instances(p.vms) && q.left == q.targets
  {
    StepsOfRun(limits, s, events, i);
    RunsAreSafe(limits, s, events[..i]);
    var p, q := At(limits, s, events, i).phase, At(limits, s, events, i + 1).phase;
    forall v | v in Instances(p.vms) ensures v in q.targets {
      var j :| 0 <= j < |p.vms| && p.vms[j].instance == v;
      assert p.vms[j].runnerId.Some? ==> Stored(p.vms[j].runnerId.value) in p.chosen;
    }
  }

  /**
   * The link between the stores holds in every state of every run: IDs match names, are pairwise
   * distinct, and a registration that a section treats as dangling never belongs to a VM.
   */
  lemma {:induction false} LinkHolds(limits: Limits, s: State, events: seq<Event>)
    requires Safe(s)
    ensures var t := Run(limits, s, events);
            && (forall v :: v in t.world.vms && t.world.vms[v].runnerId.Some? ==>
                  v in t.world.issued && t.world.vms[v].runnerId.value == t.world.issued[v])
            && (forall a, b :: a in t.world.vms && b in t.world.vms && a != b
                               && t.world.vms[a].runnerId.Some? ==>
                  t.world.vms[a].runnerId != t.world.vms[b].runnerId)
            && (forall id :: t.phase.SweepRunners? && id in t.phase.chosen && id.Listed?
                             && id.n in t.world.runners ==>
                  t.world.runners[id.n].instance !in t.world.vms)
  {
    RunsAreSafe(limits, s, events);
  }
}
