/**
 * The reconciliation protocol as a state machine over two external stores.
 *
 * Three actors share one lock: the create loop, the timer loop and the HTTP flush handler. A
 * locked section is a series of API calls, and each call is an event of its own, so events of
 * the environment (Incident) and unlocked reads and writes of the reconciler can fall between any
 * two of them. Parallel workers are events that may come in any order. An event that is not
 * possible in a state leaves it unchanged, so every sequence of events is a run.
 */
module Machine {
  import opened Wrappers
  import opened Identifiers
  import opened PressureTarget
  import opened Runners
  import opened ScaleDown

  // ---------------------------------------------------------------- the two external stores

  datatype Registration = Registration(instance: InstanceID, online: bool, busy: bool)

  /**
   * The VMs and registrations of one unit's prefix. `issued` is history: the GitHub ID that was
   * issued for each instance name.
   */
  datatype World = World(
    vms: map<InstanceID, VM>,
    runners: map<GitHubId, Registration>,
    issued: map<InstanceID, GitHubId>,
    now: int)

  /** What the outside does on its own. */
  datatype Incident =
    | BecomesBusy(id: GitHubId)
    | Unregisters(id: GitHubId)
    | Connection(id: GitHubId, online: bool)
    | StatusChange(v: InstanceID, state: VMState)
    | Vanishes(v: InstanceID)
    | ClockAdvances(seconds: nat)

  function Suffer(w: World, e: Incident): World {
    match e
    case BecomesBusy(id) =>
      if id in w.runners then w.(runners := w.runners[id := w.runners[id].(busy := true)]) else w
    case Unregisters(id) => w.(runners := w.runners - {id})
    case Connection(id, online) =>
      if id in w.runners then w.(runners := w.runners[id := w.runners[id].(online := online)]) else w
    case StatusChange(v, state) =>
      if v in w.vms then w.(vms := w.vms[v := w.vms[v].(state := state)]) else w
    case Vanishes(v) => w.(vms := w.vms - {v})
    case ClockAdvances(seconds) => w.(now := w.now + seconds)
  }

  /** A job is executing on the VM. */
  predicate Executing(w: World, v: InstanceID) {
    exists id :: id in w.runners && w.runners[id].instance == v && w.runners[id].busy
  }

  /** GitHub refuses to delete a busy runner and accepts deleting an absent one. */
  predicate Refused(w: World, id: GitHubId) {
    id in w.runners && w.runners[id].busy
  }

  function Deregister(w: World, id: GitHubId): World {
    if Refused(w, id) then w else w.(runners := w.runners - {id})
  }

  /** The server list holds each VM once. */
  ghost predicate Enumerates(vms: seq<VM>, m: map<InstanceID, VM>) {
    && (forall i :: 0 <= i < |vms| ==> vms[i].instance in m && m[vms[i].instance] == vms[i])
    && (forall v :: v in m ==> m[v] in vms)
    && DistinctInstances(vms)
  }

  /** The runner list holds each registration once. */
  ghost predicate Lists(listing: seq<ListedRunner>, runners: map<GitHubId, Registration>) {
    && (forall r :: r in listing ==>
          r.id in runners && runners[r.id] == Registration(r.instance, r.online, r.busy))
    && (forall id :: id in runners ==>
          ListedRunner(id, runners[id].instance, runners[id].online, runners[id].busy) in listing)
    && (forall i, j :: 0 <= i < j < |listing| ==> listing[i].id != listing[j].id)
  }

  // ---------------------------------------------------------------- control state

  /** What a deletion section is for; `total` is the count a scale-down started from. */
  datatype Sweep = Cleanup(desired: int) | Soft(num: int, total: int) | FlushIdle | FlushBusy

  datatype Phase =
    | Free
    | InitialCount
    | TimerCount(desired: int)
    | Tallied(n: int, goal: Option<int>)
    | SweepStart(sweep: Sweep)
    | SweepListed(sweep: Sweep, vms: seq<VM>)
    | SweepRunners(sweep: Sweep, vms: seq<VM>, chosen: set<RunnerId>, todo: set<RunnerId>, deleted: set<RunnerId>)
    | SweepVms(sweep: Sweep, targets: set<InstanceID>, left: set<InstanceID>, gone: set<InstanceID>)
    | Creating(byTimer: bool, base: int, num: int, unstarted: int,
               pending: set<InstanceID>, undo: set<InstanceID>, created: set<InstanceID>)
    | Dead

  /**
   * The fields of the reconciler, and what its two threads carry while they wait for the lock.
   */
  datatype Control = Control(
    count: int,
    paused: bool,
    lastPressure: Option<int>,
    synced: bool,
    createWaiting: Option<int>,
    timerWaiting: Option<int>)

  datatype State = State(world: World, phase: Phase, ctl: Control)

  const IDLE_CONTROL := Control(0, false, None, false, None, None)

  /** A process that has just started over some state of the two stores. */
  predicate Initial(s: State) {
    s.phase == Free && s.ctl == IDLE_CONTROL
  }

  /**
   * A launch succeeds, fails, or fails and leaves a server all the same: the deletion that follows a
   * timeout failed too, or the creation failed otherwise, which no deletion follows.
   */
  datatype LaunchOutcome = Up | Down | Stray

  /** `lag` is how much later than the listing the selection reads the clock. */
  datatype Event =
    | Outside(incident: Incident)
    | StartSync
    | CountServers
    | Decide
    | PressureSeen(pressure: int)
    | CreateLock
    | TimerWake
    | TimerLock
    | FlushLock(busy: bool)
    | ListServers(vms: seq<VM>)
    | ListRunners(listing: seq<ListedRunner>, lag: nat)
    | DeleteRunner(id: RunnerId)
    | RunnersDone
    | DeleteServer(v: InstanceID, ok: bool)
    | VmsDone
    | Register(v: InstanceID, issue: GitHubId)
    | RegisterFails
    | Launch(v: InstanceID, outcome: LaunchOutcome)
    | Undo(v: InstanceID, reached: bool)
    | CreateDone
    | Raise

  /** The calls of a deletion section. */
  predicate InSweep(e: Event) {
    e.ListServers? || e.ListRunners? || e.DeleteRunner? || e.RunnersDone? || e.DeleteServer? || e.VmsDone?
  }

  /** The calls of a creation. */
  predicate InCreation(e: Event) {
    e.Register? || e.RegisterFails? || e.Launch? || e.Undo? || e.CreateDone?
  }

  /** Taking the lock, counting and deciding, and what happens outside the lock. */
  predicate InControl(e: Event) {
    !e.Outside? && !InSweep(e) && !InCreation(e)
  }

  /** The steps of a timer section in which nothing fails and nothing happens outside. */
  predicate Quiet(e: Event) {
    match e
    case ListServers(_) => true
    case ListRunners(_, lag) => lag == 0
    case DeleteRunner(_) => true
    case RunnersDone => true
    case DeleteServer(_, ok) => ok
    case VmsDone => true
    case CountServers => true
    case Decide => true
    case Register(_, _) => true
    case Launch(_, outcome) => outcome.Up?
    case CreateDone => true
    case _ => false
  }

  predicate AllQuiet(events: seq<Event>) {
    forall i :: 0 <= i < |events| ==> Quiet(events[i])
  }

  // ---------------------------------------------------------------- transitions

  /** The section of the create loop: decide, and start creating unless paused or satisfied. */
  function LockForCreate(limits: Limits, s: State): State {
    if s.phase != Free || s.ctl.createWaiting.None? then s
    else
      var toCreate := Max(DesiredTotal(limits, s.ctl.createWaiting.value) - s.ctl.count, 0);
      if toCreate <= 0 || s.ctl.paused then s.(ctl := s.ctl.(createWaiting := None))
      else s.(phase := Creating(false, s.ctl.count, toCreate, toCreate, {}, {}, {}))
  }

  /** get_runners lists the servers; only their number matters here. */
  function Tally(s: State): State {
    match s.phase
    case InitialCount => s.(phase := Tallied(|s.world.vms|, None))
    case TimerCount(desired) => s.(phase := Tallied(|s.world.vms|, Some(desired)))
    case _ => s
  }

  /** The tally becomes the count: the initial sync, or the timer's resync and its decision. */
  function DecideScale(s: State): State {
    match s.phase
    case Tallied(n, None) => s.(phase := Free, ctl := s.ctl.(count := n, synced := true))
    case Tallied(n, Some(desired)) =>
      var ctl := s.ctl.(count := n, paused := false);
      if n < desired then
        s.(phase := Creating(true, n, desired - n, desired - n, {}, {}, {}), ctl := ctl)
      else if n > desired then
        s.(phase := SweepStart(Soft(n - desired, n)), ctl := ctl)
      else
        s.(phase := Free, ctl := ctl.(timerWaiting := None))
    case _ => s
  }

  /** The runner IDs a section asks GitHub to delete. */
  function Choose(sweep: Sweep, vms: seq<VM>, listing: seq<ListedRunner>, now: int): set<RunnerId> {
    match sweep
    case Cleanup(_) => CleanupSet(vms, listing, now)
    case Soft(num, _) => SoftDeleteSet(vms, listing, now, num)
    case FlushIdle => CleanupSet(vms, listing, now) + RunnersToFlush(RequestedHealth(vms, listing), FLUSH_IDLE)
    case FlushBusy => CleanupSet(vms, listing, now) + RunnersToFlush(RequestedHealth(vms, listing), FLUSH_BUSY)
  }

  function DeleteOneRunner(s: State, id: RunnerId): State {
    if s.phase.SweepRunners? && id in s.phase.todo then
      var rest := s.phase.todo - {id};
      if Refused(s.world, id.n) then s.(phase := s.phase.(todo := rest))
      else s.(world := Deregister(s.world, id.n),
              phase := s.phase.(todo := rest, deleted := s.phase.deleted + {id}))
    else s
  }

  /** Only FLUSH_BUSY goes on with the runners GitHub refused to delete. */
  function FinishRunners(s: State): State {
    if s.phase.SweepRunners? && s.phase.todo == {} then
      var ids := if s.phase.sweep.FlushBusy? then s.phase.chosen else s.phase.deleted;
      var targets := VmsToCleanup(s.phase.vms, ids);
      s.(phase := SweepVms(s.phase.sweep, targets, targets, {}))
    else s
  }

  /** A failed deletion is logged and skipped; one of an absent server is accepted but not reported. */
  function DeleteOneServer(s: State, v: InstanceID, ok: bool): State {
    if s.phase.SweepVms? && v in s.phase.left then
      var rest := s.phase.left - {v};
      if ok && v in s.world.vms then
        s.(world := s.world.(vms := s.world.vms - {v}),
           phase := s.phase.(left := rest, gone := s.phase.gone + {v}))
      else s.(phase := s.phase.(left := rest))
    else s
  }

  function FinishVms(s: State): State {
    if s.phase.SweepVms? && s.phase.left == {} then
      match s.phase.sweep
      case Cleanup(desired) => s.(phase := TimerCount(desired))
      case Soft(_, total) =>
        s.(phase := Free, ctl := s.ctl.(count := Max(total - |s.phase.gone|, 0), timerWaiting := None))
      case _ => s.(phase := Free)
    else s
  }

  /** GitHub IDs and generated names are fresh. */
  predicate Fresh(w: World, v: InstanceID, id: GitHubId) {
    v !in w.issued && v !in w.vms && id !in w.issued.Values && id !in w.runners
  }

  function RegisterOne(s: State, v: InstanceID, id: GitHubId): State {
    if s.phase.Creating? && s.phase.unstarted > 0 && Fresh(s.world, v, id) then
      s.(world := s.world.(runners := s.world.runners[id := Registration(v, false, false)],
                           issued := s.world.issued[v := id]),
         phase := s.phase.(unstarted := s.phase.unstarted - 1, pending := s.phase.pending + {v}))
    else s
  }

  function RegisterNone(s: State): State {
    if s.phase.Creating? && s.phase.unstarted > 0 then
      s.(phase := s.phase.(unstarted := s.phase.unstarted - 1))
    else s
  }

  /** The registration of a failed launch is to be deleted, whether or not a server is left. */
  function LaunchOne(s: State, v: InstanceID, outcome: LaunchOutcome): State {
    if s.phase.Creating? && v in s.phase.pending && v in s.world.issued then
      var rest := s.phase.pending - {v};
      var vm := VM(v, Some(s.world.issued[v]), CREATED, s.world.now);
      s.(world := if outcome.Down? then s.world else s.world.(vms := s.world.vms[v := vm]),
         phase := if outcome.Up? then s.phase.(pending := rest, created := s.phase.created + {v})
                  else s.phase.(pending := rest, undo := s.phase.undo + {v}))
    else s
  }

  /** The rollback of a failed launch; it may itself be refused or fail. */
  function UndoOne(s: State, v: InstanceID, reached: bool): State {
    if s.phase.Creating? && v in s.phase.undo && v in s.world.issued then
      s.(world := if reached then Deregister(s.world, s.world.issued[v]) else s.world,
         phase := s.phase.(undo := s.phase.undo - {v}))
    else s
  }

  predicate AllWorkersDone(p: Phase) {
    p.Creating? && p.unstarted <= 0 && p.pending == {} && p.undo == {}
  }

  /** The count grows by the IDs returned, and a call that returned none pauses the create loop. */
  function FinishCreate(s: State): State {
    if AllWorkersDone(s.phase) then
      var ctl := s.ctl.(count := s.phase.base + |s.phase.created|,
                        paused := s.ctl.paused || |s.phase.created| == 0);
      s.(phase := Free,
         ctl := if s.phase.byTimer then ctl.(timerWaiting := None) else ctl.(createWaiting := None))
    else s
  }

  predicate InFlush(p: Phase) {
    && (p.SweepStart? || p.SweepListed? || p.SweepRunners? || p.SweepVms?)
    && (p.sweep.FlushIdle? || p.sweep.FlushBusy?)
  }

  /** An escaping exception ends the process, except in the HTTP handler, which answers 500. */
  function Escape(s: State): State {
    if s.phase == Free then s else s.(phase := if InFlush(s.phase) then Free else Dead)
  }

  ghost function Next(limits: Limits, s: State, e: Event): State {
    match e
    case Outside(incident) => s.(world := Suffer(s.world, incident))
    case StartSync => if s.phase == Free && !s.ctl.synced then s.(phase := InitialCount) else s
    case CountServers => Tally(s)
    case Decide => DecideScale(s)
    case PressureSeen(p) =>
      if s.phase != Dead && s.ctl.synced && s.ctl.createWaiting.None?
      then s.(ctl := s.ctl.(lastPressure := Some(p), createWaiting := Some(p))) else s
    case CreateLock => LockForCreate(limits, s)
    case TimerWake =>
      if s.phase != Dead && s.ctl.timerWaiting.None?
      then s.(ctl := s.ctl.(timerWaiting := s.ctl.lastPressure)) else s
    case TimerLock =>
      if s.phase == Free && s.ctl.timerWaiting.Some?
      then s.(phase := SweepStart(Cleanup(DesiredTotal(limits, s.ctl.timerWaiting.value)))) else s
    case FlushLock(busy) =>
      if s.phase == Free then s.(phase := SweepStart(if busy then FlushBusy else FlushIdle)) else s
    case ListServers(vms) =>
      if s.phase.SweepStart? && Enumerates(vms, s.world.vms)
      then s.(phase := SweepListed(s.phase.sweep, vms)) else s
    case ListRunners(listing, lag) =>
      if s.phase.SweepListed? && Lists(listing, s.world.runners)
      then
        var chosen := Choose(s.phase.sweep, s.phase.vms, listing, s.world.now + lag);
        s.(phase := SweepRunners(s.phase.sweep, s.phase.vms, chosen, chosen, {}))
      else s
    case DeleteRunner(id) => DeleteOneRunner(s, id)
    case RunnersDone => FinishRunners(s)
    case DeleteServer(v, ok) => DeleteOneServer(s, v, ok)
    case VmsDone => FinishVms(s)
    case Register(v, id) => RegisterOne(s, v, id)
    case RegisterFails => RegisterNone(s)
    case Launch(v, outcome) => LaunchOne(s, v, outcome)
    case Undo(v, reached) => UndoOne(s, v, reached)
    case CreateDone => FinishCreate(s)
    case Raise => Escape(s)
  }

  // ---------------------------------------------------------------- runs

  ghost function Run(limits: Limits, s: State, events: seq<Event>): State {
    if events == [] then s
    else Next(limits, Run(limits, s, events[..|events| - 1]), events[|events| - 1])
  }

  /** The state before event i of a run. */
  ghost function At(limits: Limits, s: State, events: seq<Event>, i: nat): State
    requires i <= |events|
  {
    Run(limits, s, events[..i])
  }

  lemma {:induction false} RunOneMore(limits: Limits, s: State, events: seq<Event>, e: Event)
    ensures Run(limits, s, events + [e]) == Next(limits, Run(limits, s, events), e)
  {
    assert (events + [e])[..|events|] == events;
  }

  lemma {:induction false} StepsOfRun(limits: Limits, s: State, events: seq<Event>, i: nat)
    requires i < |events|
    ensures At(limits, s, events, i + 1) == Next(limits, At(limits, s, events, i), events[i])
    ensures At(limits, s, events, |events|) == Run(limits, s, events)
  {
    assert events[..i + 1] == events[..i] + [events[i]];
    RunOneMore(limits, s, events[..i], events[i]);
    assert events[..|events|] == events;
  }
}
