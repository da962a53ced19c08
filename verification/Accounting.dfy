/**
 * The exact account of the in-memory count: what it misses are the servers that failed launches have
 * left, and what it has too many are the VMs that are gone without its knowledge.
 */
module Accounting {
  import opened Wrappers
  import opened Identifiers
  import opened PressureTarget
  import opened Runners
  import opened Machine
  import opened Safety
  import opened Bounds

  /** The servers are listed for a recount. */
  predicate Tallies(s: State, e: Event) {
    e == CountServers && (s.phase.InitialCount? || s.phase.TimerCount?)
  }

  /** A VM goes that no one subtracts: it vanishes, or a cleanup or flush deletes it. */
  predicate Loses(s: State, e: Event) {
    || (e.Outside? && e.incident.Vanishes? && e.incident.v in s.world.vms)
    || (e.DeleteServer? && e.ok && s.phase.SweepVms? && !IsSoft(s.phase)
        && e.v in s.phase.left && e.v in s.world.vms)
  }

  function LostAfter(s: State, e: Event, lost: nat): nat {
    if Tallies(s, e) then 0 else if Loses(s, e) then lost + 1 else lost
  }

  /** VMs gone unnoticed since the servers were last listed for a recount. */
  ghost function Lost(limits: Limits, s: State, events: seq<Event>): nat {
    if events == [] then 0
    else
      var before := events[..|events| - 1];
      LostAfter(Run(limits, s, before), events[|events| - 1], Lost(limits, s, before))
  }

  /** Synced, and in no section in which the account has a form of its own. */
  predicate Plain(s: State) {
    && s.ctl.synced && s.phase != Dead && !s.phase.Tallied? && !s.phase.Creating?
    && !(IsSoft(s.phase) && s.phase.SweepVms?)
  }

  /** The account, section by section. */
  ghost predicate Accounts(s: State, strays: nat, lost: nat) {
    && (s.phase.Tallied? ==> |s.world.vms| + lost == s.phase.n)
    && (s.phase.Creating? ==> |s.world.vms| + lost == s.phase.base + |s.phase.created| + strays)
    && (s.phase.SweepVms? ==> s.phase.left !! s.phase.gone)
    && (IsSoft(s.phase) ==> strays == 0)
    && (IsSoft(s.phase) && s.phase.SweepVms? ==> |s.world.vms| + lost + |s.phase.gone| == s.ctl.count)
    && (Plain(s) ==> |s.world.vms| + lost == s.ctl.count + strays)
  }

  lemma {:induction false} AddingGrowsByOne<K, V>(m: map<K, V>, k: K, v: V)
    requires k !in m
    ensures |m[k := v]| == |m| + 1
  {
    assert m[k := v].Keys == m.Keys + {k};
  }

  lemma {:induction false} MovingOne<T>(left: set<T>, gone: set<T>, x: T)
    requires left !! gone && x in left
    ensures (left - {x}) !! (gone + {x}) && |gone + {x}| == |gone| + 1
  {
  }

  lemma {:induction false} OutsideKeepsAccount(s: State, e: Incident, strays: nat, lost: nat)
    requires Accounts(s, strays, lost)
    ensures Accounts(s.(world := Suffer(s.world, e)), strays, LostAfter(s, Outside(e), lost))
  {
    match e
    case StatusChange(v, state) =>
      if v in s.world.vms { UpdatingGrowsByOne(s.world.vms, v, s.world.vms[v].(state := state)); }
    case Vanishes(v) =>
      RemovingShrinks(s.world.vms, v);
      if v !in s.world.vms { assert s.world.vms - {v} == s.world.vms; }
    case _ =>
  }

  lemma {:induction false} DeleteServerKeepsAccount(s: State, v: InstanceID, ok: bool, strays: nat, lost: nat)
    requires Accounts(s, strays, lost)
    ensures Accounts(DeleteOneServer(s, v, ok), strays, LostAfter(s, DeleteServer(v, ok), lost))
  {
    RemovingShrinks(s.world.vms, v);
    if s.phase.SweepVms? && v in s.phase.left { MovingOne(s.phase.left, s.phase.gone, v); }
  }

  lemma {:induction false} FinishVmsKeepsAccount(s: State, strays: nat, lost: nat)
    requires Counts(s, strays) && Accounts(s, strays, lost)
    ensures Accounts(FinishVms(s), strays, lost)
  {
  }

  lemma {:induction false} FinishRunnersKeepsAccount(s: State, strays: nat, lost: nat)
    requires Accounts(s, strays, lost) && (IsSoft(s.phase) ==> s.ctl.synced)
    ensures Accounts(FinishRunners(s), strays, lost)
  {
    hide VmsToCleanup;
  }

  lemma {:induction false} SweepKeepsAccount(limits: Limits, s: State, e: Event, strays: nat, lost: nat)
    requires Counts(s, strays) && Accounts(s, strays, lost) && InSweep(e)
    ensures Accounts(Next(limits, s, e), strays, LostAfter(s, e, lost))
  {
    hide Choose, Enumerates, Lists, DeleteOneServer, FinishVms, FinishRunners;
    match e
    case RunnersDone => FinishRunnersKeepsAccount(s, strays, lost);
    case DeleteServer(v, ok) => DeleteServerKeepsAccount(s, v, ok, strays, lost);
    case VmsDone => FinishVmsKeepsAccount(s, strays, lost);
    case _ =>
  }

  lemma {:induction false} LaunchKeepsAccount(s: State, v: InstanceID, outcome: LaunchOutcome, strays: nat, lost: nat)
    requires Accounts(s, strays, lost)
    requires s.phase.Creating? ==>
               s.phase.pending !! s.phase.created && forall u :: u in s.phase.pending ==> u !in s.world.vms
    ensures Accounts(LaunchOne(s, v, outcome), StraysAfter(s, Launch(v, outcome), strays), lost)
  {
    if s.phase.Creating? && v in s.phase.pending && v in s.world.issued {
      AddingGrowsByOne(s.world.vms, v, VM(v, Some(s.world.issued[v]), CREATED, s.world.now));
      MovingOne(s.phase.pending, s.phase.created, v);
    }
  }

  lemma {:induction false} FinishCreateKeepsAccount(s: State, strays: nat, lost: nat)
    requires Accounts(s, strays, lost)
    ensures Accounts(FinishCreate(s), strays, lost)
  {
  }

  lemma {:induction false} RegisterKeepsAccount(s: State, v: InstanceID, id: GitHubId, strays: nat, lost: nat)
    requires Accounts(s, strays, lost)
    ensures Accounts(RegisterOne(s, v, id), strays, lost) && Accounts(UndoOne(s, v, true), strays, lost)
    ensures Accounts(UndoOne(s, v, false), strays, lost) && Accounts(RegisterNone(s), strays, lost)
  {
    hide Fresh, Refused;
  }

  lemma {:induction false} PendingIsFree(s: State, strays: nat)
    requires Safe(s) && Counts(s, strays) && s.phase.Creating?
    ensures s.phase.pending !! s.phase.created && forall u :: u in s.phase.pending ==> u !in s.world.vms
  {
    hide Linked;
  }

  lemma {:induction false} CreationKeepsAccount(limits: Limits, s: State, e: Event, strays: nat, lost: nat)
    requires Safe(s) && Counts(s, strays) && Accounts(s, strays, lost) && InCreation(e)
    ensures Accounts(Next(limits, s, e), StraysAfter(s, e, strays), LostAfter(s, e, lost))
  {
    hide Safe, Counts, Accounts, LaunchOne, FinishCreate, RegisterOne, RegisterNone, UndoOne, InControl, InSweep;
    match e
    case Register(v, id) => RegisterKeepsAccount(s, v, id, strays, lost);
    case RegisterFails => RegisterKeepsAccount(s, InstanceID("", "", ""), 1, strays, lost);
    case Undo(v, _) => RegisterKeepsAccount(s, v, 1, strays, lost);
    case Launch(v, outcome) =>
      if s.phase.Creating? { PendingIsFree(s, strays); }
      LaunchKeepsAccount(s, v, outcome, strays, lost);
    case CreateDone => FinishCreateKeepsAccount(s, strays, lost);
    case _ =>
  }

  lemma {:induction false} ControlKeepsAccount(limits: Limits, s: State, e: Event, strays: nat, lost: nat)
    requires Counts(s, strays) && Accounts(s, strays, lost) && InControl(e)
    ensures Accounts(Next(limits, s, e), StraysAfter(s, e, strays), LostAfter(s, e, lost))
  {
  }

  lemma {:induction false} StepKeepsAccount(limits: Limits, s: State, e: Event, strays: nat, lost: nat)
    requires Safe(s) && Counts(s, strays) && Accounts(s, strays, lost)
    ensures Accounts(Next(limits, s, e), StraysAfter(s, e, strays), LostAfter(s, e, lost))
  {
    hide Safe, Counts, Accounts, Choose, Enumerates, Lists;
    if e.Outside? { OutsideKeepsAccount(s, e.incident, strays, lost); }
    else if InSweep(e) { SweepKeepsAccount(limits, s, e, strays, lost); }
    else if InCreation(e) { CreationKeepsAccount(limits, s, e, strays, lost); }
    else { ControlKeepsAccount(limits, s, e, strays, lost); }
  }

  lemma {:induction false} RunsKeepAccount(limits: Limits, s: State, events: seq<Event>)
    requires Safe(s) && Counts(s, 0) && Accounts(s, 0, 0)
    ensures Accounts(Run(limits, s, events), Strays(limits, s, events), Lost(limits, s, events))
  {
    hide Safe, Counts, Accounts, Next;
    if events == [] {
    } else {
      var before, e := events[..|events| - 1], events[|events| - 1];
      RunsKeepAccount(limits, s, before);
      RunsAreSafe(limits, s, before);
      RunsKeepCounts(limits, s, before);
      StepKeepsAccount(limits, Run(limits, s, before), e, Strays(limits, s, before), Lost(limits, s, before));
    }
  }

  lemma {:induction false} InitialAccounts(s: State)
    requires Initial(s) && Linked(s.world)
    ensures Safe(s) && Counts(s, 0) && Accounts(s, 0, 0)
  {
  }

  /**
   * Whenever the lock is free after the initial sync, the live VMs are the count, plus the servers
   * that failed launches have left since the last recount, less the VMs that have gone unnoticed
   * since its listing. So the count covers the live VMs exactly if no more were left than lost, and
   * live VMs stay within a bound exactly if that sum does.
   */
  lemma {:induction false} CountIsExact(limits: Limits, s: State, events: seq<Event>, bound: int)
    requires Initial(s) && Linked(s.world)
    requires Run(limits, s, events).phase == Free && Run(limits, s, events).ctl.synced
    ensures var w, count := Run(limits, s, events).world, Run(limits, s, events).ctl.count;
            var strays, lost := Strays(limits, s, events), Lost(limits, s, events);
            && |w.vms| + lost == count + strays
            && (|w.vms| <= count <==> strays <= lost)
            && (|w.vms| <= bound <==> count + strays <= bound + lost)
  {
    hide Run, Strays, Lost, Linked;
    InitialAccounts(s);
    RunsKeepAccount(limits, s, events);
  }

  // ---------------------------------------------------------------- the cap fails with a stray

  const CAP_TWO := Limits(0, 2)

  const TWO_SEEN := IDLE_CONTROL.(synced := true, lastPressure := Some(2), createWaiting := Some(2))

  /** Of two launches one fails and leaves its server; then the missing runner is created. */
  function CapRun(a: InstanceID, b: InstanceID, c: InstanceID): seq<Event> {
    [StartSync, CountServers, Decide, PressureSeen(2), CreateLock,
     Register(a, 1), Register(b, 2), Launch(a, Up), Launch(b, Stray), Undo(b, true), CreateDone,
     PressureSeen(2), CreateLock, Register(c, 3), Launch(c, Up)]
  }

  lemma {:induction false} CapRunStarts(a: InstanceID, b: InstanceID, c: InstanceID)
    ensures Run(CAP_TWO, EMPTY_START, CapRun(a, b, c)[..1]).phase == InitialCount
    ensures Run(CAP_TWO, EMPTY_START, CapRun(a, b, c)[..1]).world == EMPTY_START.world
    ensures Run(CAP_TWO, EMPTY_START, CapRun(a, b, c)[..5])
            == State(EMPTY_START.world, Creating(false, 0, 2, 2, {}, {}, {}), TWO_SEEN)
  {
    hide Run, Strays;
    var events := CapRun(a, b, c);
    NoEvents(CAP_TWO, EMPTY_START);
    assert events[..0] == [];
    OneMore(CAP_TWO, EMPTY_START, events, 0);
    OneMore(CAP_TWO, EMPTY_START, events, 1);
    OneMore(CAP_TWO, EMPTY_START, events, 2);
    OneMore(CAP_TWO, EMPTY_START, events, 3);
    OneMore(CAP_TWO, EMPTY_START, events, 4);
  }

  lemma {:induction false} CapRunRegisters(a: InstanceID, b: InstanceID, c: InstanceID)
    requires a != b
    ensures var t := Run(CAP_TWO, EMPTY_START, CapRun(a, b, c)[..7]);
            && t.world.vms == map[] && t.world.issued == map[a := 1, b := 2] && t.world.runners.Keys == {1, 2}
            && t.phase == Creating(false, 0, 2, 0, {a, b}, {}, {}) && t.ctl == TWO_SEEN
  {
    hide Run, Strays;
    var events := CapRun(a, b, c);
    CapRunStarts(a, b, c);
    OneMore(CAP_TWO, EMPTY_START, events, 5);
    OneMore(CAP_TWO, EMPTY_START, events, 6);
    var t := Run(CAP_TWO, EMPTY_START, events[..6]);
    assert t.world.issued == map[a := 1] && t.world.issued.Values == {1};
    assert {} + {a} + {b} == {a, b};
  }

  lemma {:induction false} CapRunLaunches(a: InstanceID, b: InstanceID, c: InstanceID)
    requires a != b
    ensures var t := Run(CAP_TWO, EMPTY_START, CapRun(a, b, c)[..9]);
            && t.world.vms.Keys == {a, b} && t.world.issued == map[a := 1, b := 2] && t.world.runners.Keys == {1, 2}
            && t.phase == Creating(false, 0, 2, 0, {}, {b}, {a}) && t.ctl == TWO_SEEN
  {
    hide Run, Strays;
    var events := CapRun(a, b, c);
    CapRunRegisters(a, b, c);
    OneMore(CAP_TWO, EMPTY_START, events, 7);
    assert {a, b} - {a} == {b};
    OneMore(CAP_TWO, EMPTY_START, events, 8);
    assert {b} - {b} == {};
  }

  lemma {:induction false} CapRunUndoes(a: InstanceID, b: InstanceID, c: InstanceID)
    requires a != b
    ensures var t := Run(CAP_TWO, EMPTY_START, CapRun(a, b, c)[..11]);
            && t.world.vms.Keys == {a, b} && t.world.issued == map[a := 1, b := 2] && t.world.runners.Keys <= {1, 2}
            && t.phase == Free && t.ctl == TWO_SEEN.(count := 1, createWaiting := None)
  {
    hide Run, Strays;
    var events := CapRun(a, b, c);
    CapRunLaunches(a, b, c);
    OneMore(CAP_TWO, EMPTY_START, events, 9);
    OneMore(CAP_TWO, EMPTY_START, events, 10);
  }

  /** The stray is not counted, so one more is to be created. */
  lemma {:induction false} CapRunGoesOn(a: InstanceID, b: InstanceID, c: InstanceID)
    requires a != b
    ensures var t := Run(CAP_TWO, EMPTY_START, CapRun(a, b, c)[..13]);
            && t.world.vms.Keys == {a, b} && t.world.issued == map[a := 1, b := 2] && t.world.runners.Keys <= {1, 2}
            && t.phase == Creating(false, 1, 1, 1, {}, {}, {})
  {
    hide Run, Strays;
    var events := CapRun(a, b, c);
    CapRunUndoes(a, b, c);
    OneMore(CAP_TWO, EMPTY_START, events, 11);
    OneMore(CAP_TWO, EMPTY_START, events, 12);
  }

  lemma {:induction false} CapRunReplaces(a: InstanceID, b: InstanceID, c: InstanceID)
    requires a != b && b != c && a != c
    ensures Run(CAP_TWO, EMPTY_START, CapRun(a, b, c)).world.vms.Keys == {a, b, c}
  {
    hide Run, Strays;
    var events := CapRun(a, b, c);
    CapRunGoesOn(a, b, c);
    OneMore(CAP_TWO, EMPTY_START, events, 13);
    OneMore(CAP_TWO, EMPTY_START, events, 14);
    assert events[..15] == events;
  }

  /**
   * With a cap of two over an empty start, three VMs are live at the end of this run: the stray is
   * not counted, so its replacement is created.
   */
  lemma {:induction false} StrayBreaksTheCap(a: InstanceID, b: InstanceID, c: InstanceID)
    requires a != b && b != c && a != c
    ensures var events := CapRun(a, b, c);
            && Initial(EMPTY_START) && Run(CAP_TWO, EMPTY_START, events[..1]).phase == InitialCount
            && Run(CAP_TWO, EMPTY_START, events[..1]).world.vms == map[]
            && |Run(CAP_TWO, EMPTY_START, events).world.vms| == 3 > CAP_TWO.maxPressure
  {
    hide Run, Next;
    CapRunStarts(a, b, c);
    CapRunReplaces(a, b, c);
    var w := Run(CAP_TWO, EMPTY_START, CapRun(a, b, c)).world;
    assert |w.vms| == |w.vms.Keys|;
  }

  /** Without a stray the cap holds, in every run. */
  lemma {:induction false} CapHoldsWithoutStrays(limits: Limits, s: State, before: seq<Event>, after: seq<Event>)
    requires limits.maxPressure > 0 && Initial(s)
    requires Run(limits, s, before).phase == InitialCount
    requires AllStrays(limits, Run(limits, s, before + [CountServers]), after) == 0
    ensures |Run(limits, s, before + [CountServers] + after).world.vms|
            <= Max(limits.maxPressure, |Run(limits, s, before).world.vms|)
  {
    hide Run, AllStrays;
    LiveVmsAreCapped(limits, s, before, after);
  }
}
