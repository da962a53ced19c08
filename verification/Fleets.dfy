/**
 * The two external stores as the manager's code meets them: one method per API call.
 *
 * Before each call the environment may do anything any number of times, and a call may fail. A
 * ghost log of events makes every execution a run of the protocol's state machine: Valid() says
 * that the present state is the one this run reaches.
 */
module Fleets {
  import opened Wrappers
  import opened Identifiers
  import opened PressureTarget
  import opened Runners
  import opened ScaleDown
  import opened Machine
  import opened Safety
  import opened Bounds

  /** What GitHub answers to a runner deletion; Raised is any error the caller does not catch. */
  datatype RunnerDeletion = Accepted | Busy | RunnerRaised

  /** Gone: deleted; Absent: there was none; NotDeleted: the error that is caught and logged. */
  datatype ServerDeletion = Gone | Absent | NotDeleted | ServerRaised

  datatype Registering = Issued(id: GitHubId) | Rejected | RegisterRaised

  datatype Launching = Launched | NotLaunched(leftServer: bool) | LaunchRaised

  datatype Undoing = Undone | UndoFailed | UndoRaised

  /** The log has only grown, by no flush request and, if so asked, by quiet steps alone. */
  ghost predicate Grew(quiet: bool, before: seq<Event>, after: seq<Event>) {
    && before <= after
    && forall i :: |before| <= i < |after| ==> !after[i].FlushLock? && (quiet ==> Quiet(after[i]))
  }

  lemma {:induction false} GrewNotAtAll(quiet: bool, a: seq<Event>)
    ensures Grew(quiet, a, a)
  {}

  lemma {:induction false} GrewFurther(quiet: bool, a: seq<Event>, b: seq<Event>, still: bool, c: seq<Event>)
    requires Grew(quiet, a, b) && Grew(still, b, c) && (quiet ==> still)
    ensures Grew(quiet, a, c)
  {}

  lemma {:induction false} GrewQuietly(quiet: bool, a: seq<Event>, b: seq<Event>)
    requires Grew(true, a, b)
    ensures Grew(quiet, a, b)
  {}

  lemma {:induction false} GrewByOne(quiet: bool, a: seq<Event>, e: Event)
    requires !e.FlushLock? && (quiet ==> Quiet(e))
    ensures Grew(quiet, a, a + [e])
  {}

  lemma {:induction false} GrewIsPrefix(quiet: bool, a: seq<Event>, b: seq<Event>)
    requires Grew(quiet, a, b)
    ensures a <= b && |a| <= |b|
  {}

  /** From entry `since` of the log on, the servers were counted and there were n. */
  ghost predicate Counted(limits: Limits, start: State, events: seq<Event>, since: nat, n: int) {
    exists i :: since <= i < |events| && events[i] == Event.CountServers
                && |Run(limits, start, events[..i]).world.vms| == n
  }

  lemma {:induction false} CountedOnce(
    limits: Limits, start: State, before: seq<Event>, events: seq<Event>, since: nat, n: int)
    requires since <= |before| && before + [Event.CountServers] <= events
    requires |Run(limits, start, before).world.vms| == n
    ensures Counted(limits, start, events, since, n)
  {
    hide Run;
    var i := |before|;
    assert events[..i] == before && events[i] == (before + [Event.CountServers])[i];
  }

  lemma {:induction false} CountedStill(
    limits: Limits, start: State, events: seq<Event>, since: nat, n: int, events': seq<Event>, since': nat)
    requires Counted(limits, start, events, since, n) && events <= events' && since' <= since
    ensures Counted(limits, start, events', since', n)
  {
    hide Run;
    var i :| since <= i < |events| && events[i] == Event.CountServers
             && |Run(limits, start, events[..i]).world.vms| == n;
    assert events'[..i] == events[..i] && events'[i] == Event.CountServers;
  }

  // One case of Next each, for methods that hide the rest of it.

  lemma {:induction false} OutsideStep(limits: Limits, s: State, incident: Incident)
    ensures Next(limits, s, Outside(incident)) == s.(world := Suffer(s.world, incident))
  {}

  lemma {:induction false} QuietOnStores(limits: Limits, s: State, e: Event)
    requires InControl(e) || e.RunnersDone? || e.VmsDone? || e.CreateDone?
    ensures Next(limits, s, e).world == s.world
  {}

  lemma {:induction false} ListServersStep(limits: Limits, s: State, list: seq<VM>)
    requires s.phase.SweepStart? && Enumerates(list, s.world.vms)
    ensures Next(limits, s, Event.ListServers(list)) == s.(phase := SweepListed(s.phase.sweep, list))
  {}

  lemma {:induction false} ListRunnersStep(limits: Limits, s: State, listing: seq<ListedRunner>, lag: nat)
    requires s.phase.SweepListed? && Lists(listing, s.world.runners)
    ensures var chosen := Choose(s.phase.sweep, s.phase.vms, listing, s.world.now + lag);
            Next(limits, s, Event.ListRunners(listing, lag))
            == s.(phase := SweepRunners(s.phase.sweep, s.phase.vms, chosen, chosen, {}))
  {
    hide Choose, Lists;
  }

  lemma {:induction false} CountStep(limits: Limits, s: State)
    ensures Next(limits, s, Event.CountServers) == Tally(s)
  {}

  lemma {:induction false} RegisterStep(limits: Limits, s: State, v: InstanceID, id: GitHubId)
    ensures Next(limits, s, Event.Register(v, id)) == RegisterOne(s, v, id)
    ensures Next(limits, s, RegisterFails) == RegisterNone(s)
  {}

  lemma {:induction false} LaunchStep(limits: Limits, s: State, v: InstanceID, outcome: LaunchOutcome)
    ensures Next(limits, s, Event.Launch(v, outcome)) == LaunchOne(s, v, outcome)
  {}

  lemma {:induction false} UndoStep(limits: Limits, s: State, v: InstanceID, reached: bool)
    ensures Next(limits, s, Event.Undo(v, reached)) == UndoOne(s, v, reached)
  {}

  lemma {:induction false} DeletionStep(limits: Limits, s: State, id: RunnerId, v: InstanceID, ok: bool)
    ensures Next(limits, s, Event.DeleteRunner(id)) == DeleteOneRunner(s, id)
    ensures Next(limits, s, Event.DeleteServer(v, ok)) == DeleteOneServer(s, v, ok)
  {}

  method ServersOf(m: map<InstanceID, VM>) returns (list: seq<VM>)
    requires forall v :: v in m ==> m[v].instance == v
    ensures Enumerates(list, m)
  {
    var left := m.Keys;
    list := [];
    while left != {}
      invariant left <= m.Keys
      invariant forall i :: 0 <= i < |list| ==> list[i].instance in m.Keys - left && m[list[i].instance] == list[i]
      invariant forall v :: v in m.Keys - left ==> m[v] in list
      invariant DistinctInstances(list)
      decreases left
    {
      var v :| v in left;
      list, left := list + [m[v]], left - {v};
    }
  }

  method RegistrationsOf(m: map<GitHubId, Registration>) returns (listing: seq<ListedRunner>)
    ensures Lists(listing, m)
  {
    var left := m.Keys;
    listing := [];
    while left != {}
      invariant left <= m.Keys
      invariant forall r :: r in listing ==> r.id in m && m[r.id] == Registration(r.instance, r.online, r.busy)
      invariant forall id :: id in m.Keys - left ==>
                               ListedRunner(id, m[id].instance, m[id].online, m[id].busy) in listing
      invariant forall i :: 0 <= i < |listing| ==> listing[i].id in m.Keys - left
      invariant forall i, j :: 0 <= i < j < |listing| ==> listing[i].id != listing[j].id
      decreases left
    {
      var id :| id in left;
      listing := listing + [ListedRunner(id, m[id].instance, m[id].online, m[id].busy)];
      left := left - {id};
    }
  }

  class Fleet {
    var vms: map<InstanceID, VM>
    var runners: map<GitHubId, Registration>
    var issued: map<InstanceID, GitHubId>
    var nextId: GitHubId
    var now: int
    ghost var phase: Phase
    ghost var ctl: Control
    ghost var events: seq<Event>
    /** The runners that GitHub was asked to delete. */
    ghost var asked: set<RunnerId>
    /** The servers whose deletion was asked for. */
    ghost var tried: set<InstanceID>
    /** Whether calls never fail and the environment keeps still. */
    const faultFree: bool
    ghost const limits: Limits
    ghost const start: State

    ghost function Stores(): World reads this { World(vms, runners, issued, now) }

    ghost function Current(): State reads this { State(Stores(), phase, ctl) }

    ghost predicate Valid() reads this {
      && Initial(start) && Linked(start.world)
      && Current() == Run(limits, start, events)
      && forall v :: v in issued ==> issued[v] < nextId
    }

    constructor (limits: Limits, world: World, nextId: GitHubId, faultFree: bool)
      requires Linked(world) && forall v :: v in world.issued ==> world.issued[v] < nextId
      ensures Valid() && Stores() == world && phase == Free && ctl == IDLE_CONTROL && events == []
      ensures this.limits == limits && this.faultFree == faultFree
    {
      vms, runners, issued, now := world.vms, world.runners, world.issued, world.now;
      this.nextId, this.faultFree := nextId, faultFree;
      phase, ctl, events, asked, tried := Free, IDLE_CONTROL, [], {}, {};
      this.limits := limits;
      start := State(world, Free, IDLE_CONTROL);
    }

    /** What the machine's theorems say of the present state. */
    ghost method Invariants()
      requires Valid()
      ensures Safe(Current())
    {
      RunsAreSafe(limits, start, events);
    }

    /** Logs event e, which led from state s to the present stores. */
    ghost method Record(s: State, e: Event)
      requires Initial(start) && Linked(start.world)
      requires s == Run(limits, start, events)
      requires forall v :: v in issued ==> issued[v] < nextId
      requires Next(limits, s, e).world == Stores()
      modifies `phase, `ctl, `events
      ensures Valid() && events == old(events) + [e]
      ensures Current() == Next(limits, s, e)
    {
      hide Next, Run, Linked, Initial;
      RunOneMore(limits, start, events, e);
      phase, ctl := Next(limits, s, e).phase, Next(limits, s, e).ctl;
      events := events + [e];
    }

    /** Logs an event that touches neither store. */
    ghost method Note(e: Event)
      requires Valid() && (InControl(e) || e.RunnersDone? || e.VmsDone? || e.CreateDone?)
      modifies `phase, `ctl, `events
      ensures Valid() && events == old(events) + [e]
      ensures Current() == Next(limits, old(Current()), e)
    {
      hide Next, Run, Linked, Initial;
      QuietOnStores(limits, Current(), e);
      Record(Current(), e);
    }

    /** Any number of incidents. */
    method Interfere()
      requires Valid()
      modifies this
      ensures Valid() && phase == old(phase) && ctl == old(ctl) && Grew(faultFree, old(events), events)
      ensures issued == old(issued) && vms.Keys <= old(vms.Keys)
      ensures nextId == old(nextId) && asked == old(asked) && tried == old(tried)
      ensures faultFree ==> events == old(events) && Stores() == old(Stores())
    {
      hide Next, Run, Linked, Initial;
      var rounds: int := *;
      if faultFree { return; }
      for i := 0 to Max(rounds, 0)
        invariant issued == old(issued) && vms.Keys <= old(vms.Keys)
        invariant nextId == old(nextId) && asked == old(asked) && tried == old(tried)
        invariant Valid() && phase == old(phase) && ctl == old(ctl) && Grew(faultFree, old(events), events)
      {
        var incident: Incident := *;
        ghost var before := Current();
        var after := Suffer(World(vms, runners, issued, now), incident);
        vms, runners, now := after.vms, after.runners, after.now;
        OutsideStep(limits, before, incident);
        Record(before, Outside(incident));
      }
    }

    /** Another call, which touches neither store but may raise. */
    method Attempt() returns (ok: bool)
      ensures faultFree ==> ok
    {
      ok := *;
      ok := ok || faultFree;
    }

    // -------------------------------------------------------------- listing

    ghost method VmsBearTheirNames()
      requires Valid()
      ensures forall v :: v in vms ==> vms[v].instance == v
    {
      Invariants();
    }

    /** Every VM there is, once. */
    method ListServers() returns (ok: bool, list: seq<VM>)
      requires Valid() && phase.SweepStart?
      modifies this
      ensures Valid() && ctl == old(ctl) && Grew(faultFree, old(events), events)
      ensures phase == if ok then SweepListed(old(phase).sweep, list) else old(phase)
      ensures ok ==> Enumerates(list, vms)
      ensures faultFree ==> ok
      ensures issued == old(issued) && vms.Keys <= old(vms.Keys)
    {
      hide Next, Run, Linked, Initial, Enumerates;
      Interfere();
      list := [];
      ok := Attempt();
      if ok {
        VmsBearTheirNames();
        list := ServersOf(vms);
        ListServersStep(limits, Current(), list);
        Record(Current(), Event.ListServers(list));
      }
    }

    /** Every registration there is, once, and the clock as the selection reads it some time later. */
    method ListRunners() returns (ok: bool, listing: seq<ListedRunner>, clock: int)
      requires Valid() && phase.SweepListed?
      modifies this
      ensures Valid() && ctl == old(ctl) && Grew(faultFree, old(events), events)
      ensures ok ==> Lists(listing, runners) && clock >= now
      ensures ok ==> var chosen := Choose(old(phase).sweep, old(phase).vms, listing, clock);
                     phase == SweepRunners(old(phase).sweep, old(phase).vms, chosen, chosen, {})
      ensures !ok ==> phase == old(phase)
      ensures faultFree ==> ok
      ensures issued == old(issued) && vms.Keys <= old(vms.Keys)
    {
      hide Choose, Next, Run, Linked, Initial, Lists;
      Interfere();
      var wait: int := *;
      var lag: nat := if faultFree then 0 else Max(wait, 0);
      listing, clock := [], now + lag;
      ok := Attempt();
      if ok {
        listing := RegistrationsOf(runners);
        ListRunnersStep(limits, Current(), listing, lag);
        Record(Current(), Event.ListRunners(listing, lag));
      }
    }

    /** The number of servers as listed; the runner listing that follows changes nothing here. */
    method CountServers() returns (ok: bool, n: nat)
      requires Valid() && (phase.InitialCount? || phase.TimerCount?)
      modifies this
      ensures Valid() && ctl == old(ctl) && Grew(faultFree, old(events), events)
      ensures ok ==> phase == Tallied(n, if old(phase).TimerCount? then Some(old(phase).desired) else None)
      ensures ok ==> Counted(limits, start, events, |old(events)|, n)
      ensures ok ==> |vms| <= n <= |old(vms)|
      ensures !ok ==> phase == old(phase) || phase.Tallied?
      ensures faultFree ==> ok && n == |vms| && Stores() == old(Stores())
      ensures issued == old(issued) && vms.Keys <= old(vms.Keys)
    {
      hide Next, Run, Linked, Initial, Counted;
      Interfere();
      SubsetIsSmaller(vms.Keys, old(vms.Keys));
      n := 0;
      ok := Attempt();
      if ok {
        n := |vms|;
        ghost var before := events;
        CountStep(limits, Current());
        Note(Event.CountServers);
        ghost var listed := vms.Keys;
        Interfere();
        SubsetIsSmaller(vms.Keys, listed);
        CountedOnce(limits, start, before, events, |old(events)|, n);
        ok := Attempt();
      }
    }

    // -------------------------------------------------------------- deleting

    /** A busy runner is refused; otherwise it is gone afterwards, whether or not there was one. */
    method DeleteRunner(id: RunnerId) returns (r: RunnerDeletion)
      requires Valid() && phase.SweepRunners? && id in phase.todo
      modifies this
      ensures Valid() && ctl == old(ctl) && Grew(faultFree, old(events), events)
      ensures asked == old(asked) + {id}
      ensures r.RunnerRaised? ==> phase == old(phase)
      ensures r.Busy? ==> phase == old(phase).(todo := old(phase).todo - {id}) && Refused(Stores(), id.n)
      ensures r.Accepted? ==>
                && phase == old(phase).(todo := old(phase).todo - {id}, deleted := old(phase).deleted + {id})
                && id.n !in runners
      ensures faultFree ==> !r.RunnerRaised?
      ensures issued == old(issued) && vms.Keys <= old(vms.Keys)
    {
      hide Next, Run, Linked, Initial;
      Interfere();
      asked := asked + {id};
      var reached := Attempt();
      if !reached { return RunnerRaised; }
      ghost var before := Current();
      DeletionStep(limits, before, id, InstanceID("", "", ""), true);
      r := Busy;
      if !(id.n in runners && runners[id.n].busy) {
        runners := runners - {id.n};
        r := Accepted;
      }
      Record(before, Event.DeleteRunner(id));
    }

    /** Gone: there was such a VM and there is none now. Absent: there was none. */
    method DeleteServer(v: InstanceID) returns (r: ServerDeletion)
      requires Valid() && phase.SweepVms? && v in phase.left
      modifies this
      ensures Valid() && ctl == old(ctl) && Grew(faultFree, old(events), events)
      ensures r.ServerRaised? ==> phase == old(phase)
      ensures r.Absent? || r.NotDeleted? ==> phase == old(phase).(left := old(phase).left - {v})
      ensures r.Gone? ==> phase == old(phase).(left := old(phase).left - {v}, gone := old(phase).gone + {v})
      ensures r.Gone? ==> v in old(vms)
      ensures r.Gone? || r.Absent? ==> v !in vms
      ensures tried == old(tried) + {v}
      ensures faultFree ==> r.Gone? || r.Absent?
      ensures issued == old(issued) && vms.Keys <= old(vms.Keys)
    {
      hide Next, Run, Linked, Initial;
      Interfere();
      tried := tried + {v};
      r := *;
      if faultFree { r := Gone; }
      if r.ServerRaised? { return; }
      ghost var before := Current();
      DeletionStep(limits, before, Listed(1), v, !r.NotDeleted?);
      if r.NotDeleted? {
        Record(before, Event.DeleteServer(v, false));
      } else {
        r := if v in vms then Gone else Absent;
        vms := vms - {v};
        Record(before, Event.DeleteServer(v, true));
      }
    }

    // -------------------------------------------------------------- creating

    ghost method NoteRejection()
      requires Valid() && phase.Creating? && phase.unstarted > 0
      modifies `phase, `ctl, `events
      ensures Valid() && ctl == old(ctl) && events == old(events) + [RegisterFails]
      ensures phase == old(phase).(unstarted := old(phase).unstarted - 1)
    {
      hide Next, Run, Linked, Initial;
      RegisterStep(limits, Current(), InstanceID("", "", ""), 1);
      Record(Current(), RegisterFails);
    }

    ghost method NextIdIsFresh()
      requires Valid()
      ensures nextId !in issued.Values && nextId !in runners
    {
      Invariants();
    }

    ghost method CreatedAreIssued()
      requires Valid() && phase.Creating?
      ensures phase.pending <= issued.Keys && phase.created <= issued.Keys && phase.pending !! phase.created
      ensures phase.undo <= issued.Keys && forall v :: v in phase.pending ==> v !in vms
    {
      RunsKeepCounts(limits, start, events);
      Invariants();
    }

    /** GitHub's part of a registration: its next ID. */
    method Issue(v: InstanceID) returns (id: GitHubId)
      requires Valid() && phase.Creating? && phase.unstarted > 0 && v !in issued && v !in vms
      modifies `runners, `issued, `nextId, `phase, `ctl, `events
      ensures Valid() && ctl == old(ctl) && events == old(events) + [Event.Register(v, id)]
      ensures phase == old(phase).(unstarted := old(phase).unstarted - 1, pending := old(phase).pending + {v})
      ensures v !in old(phase).pending + old(phase).created
      ensures id == old(nextId) && issued == old(issued)[v := id]
      ensures id in runners && runners[id] == Registration(v, false, false)
    {
      ghost var before := Current();
      NextIdIsFresh();
      CreatedAreIssued();
      id := nextId;
      hide Next, Run, Linked, Initial;
      RegisterStep(limits, before, v, id);
      runners := runners[id := Registration(v, false, false)];
      issued := issued[v := id];
      nextId := id + 1;
      Record(before, Event.Register(v, id));
    }

    /** A name already in use is refused; otherwise GitHub issues an ID that was never used before. */
    method Register(v: InstanceID) returns (r: Registering)
      requires Valid() && phase.Creating? && phase.unstarted > 0
      modifies this
      ensures Valid() && ctl == old(ctl) && Grew(faultFree && !r.Rejected?, old(events), events)
      ensures r.RegisterRaised? ==> phase == old(phase)
      ensures r.Rejected? ==> phase == old(phase).(unstarted := old(phase).unstarted - 1)
      ensures r.Issued? ==> phase == old(phase).(unstarted := old(phase).unstarted - 1,
                                                 pending := old(phase).pending + {v})
                            && v !in old(phase).pending + old(phase).created
      ensures r.Issued? ==> && v !in old(issued) && v !in vms
                            && r.id !in old(issued.Values) && r.id !in old(runners)
                            && r.id in runners && runners[r.id] == Registration(v, false, false)
      ensures issued == if r.Issued? then old(issued)[v := r.id] else old(issued)
      ensures vms.Keys <= old(vms.Keys)
      ensures faultFree && v !in old(issued) && v !in old(vms) ==> r.Issued?
    {
      hide Next, Run, Linked, Initial;
      NextIdIsFresh();
      Interfere();
      r := *;
      if faultFree { r := Issued(nextId); }
      if r.RegisterRaised? { return; }
      if r.Rejected? || v in issued || v in vms {
        r := Rejected;
        NoteRejection();
      } else {
        var id := Issue(v);
        r := Issued(id);
      }
    }

    /** A launched VM carries the ID issued for its name; a failed launch may leave a server too. */
    method Launch(v: InstanceID) returns (r: Launching)
      requires Valid() && phase.Creating? && v in phase.pending
      modifies this
      ensures Valid() && ctl == old(ctl) && Grew(faultFree, old(events), events)
      ensures r.LaunchRaised? ==> phase == old(phase)
      ensures r.NotLaunched? ==>
                phase == old(phase).(pending := old(phase).pending - {v}, undo := old(phase).undo + {v})
      ensures r.Launched? ==>
                phase == old(phase).(pending := old(phase).pending - {v}, created := old(phase).created + {v})
      ensures v in issued && (r.Launched? ==> v in vms && vms[v] == VM(v, Some(issued[v]), CREATED, now))
      ensures r.NotLaunched? ==> (v in vms <==> r.leftServer)
      ensures issued == old(issued) && vms.Keys <= old(vms.Keys) + {v}
      ensures faultFree ==> r.Launched?
    {
      hide Next, Run, Linked, Initial;
      Interfere();
      CreatedAreIssued();
      r := *;
      if faultFree { r := Launched; }
      if r.LaunchRaised? { return; }
      ghost var before := Current();
      var leaves := r.NotLaunched? && r.leftServer;
      ghost var outcome := if r.Launched? then Up else if leaves then LaunchOutcome.Stray else Down;
      LaunchStep(limits, before, v, outcome);
      if r.Launched? || leaves {
        vms := vms[v := VM(v, Some(issued[v]), CREATED, now)];
      }
      Record(before, Event.Launch(v, outcome));
    }

    /** Undone: the registration is gone, unless GitHub refused because the runner is busy. */
    method Undo(v: InstanceID) returns (r: Undoing)
      requires Valid() && phase.Creating? && v in phase.undo && !faultFree
      modifies this
      ensures Valid() && ctl == old(ctl) && Grew(faultFree, old(events), events)
      ensures r.UndoRaised? ==> phase == old(phase)
      ensures !r.UndoRaised? ==> phase == old(phase).(undo := old(phase).undo - {v})
      ensures r.Undone? ==> v in issued && (issued[v] in runners ==> Refused(Stores(), issued[v]))
      ensures !r.UndoRaised? ==> events != [] && events[|events| - 1] == Event.Undo(v, r.Undone?)
      ensures issued == old(issued) && vms.Keys <= old(vms.Keys)
    {
      hide Next, Run, Linked, Initial;
      Interfere();
      r := *;
      if r.UndoRaised? { return; }
      ghost var before := Current();
      CreatedAreIssued();
      UndoStep(limits, before, v, r.Undone?);
      if r.Undone? && !(issued[v] in runners && runners[issued[v]].busy) {
        runners := runners - {issued[v]};
      }
      Record(before, Event.Undo(v, r.Undone?));
    }
  }
}
