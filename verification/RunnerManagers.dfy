/**
 * The runner manager (manager/runner_manager.py) over the two stores of a Fleet.
 *
 * The methods issue the API calls in the order of the code, with any failure at any call and any
 * completion order of parallel workers. Their contracts place each one in the protocol's state
 * machine, whose theorems then speak about this code: a method that asked GitHub to delete other
 * runners, or that went on with VMs of refused runners, would not reach the phase it promises.
 */
module RunnerManagers {
  import opened Wrappers
  import opened Identifiers
  import opened PressureTarget
  import opened Runners
  import opened ScaleDown
  import opened Machine
  import opened Safety
  import opened Bounds
  import opened Fleets
  import opened Sweeps

  /** `s` lists each element of `elements` exactly once and nothing else. */
  ghost predicate ListsOnce<T(!new)>(s: seq<T>, elements: set<T>) {
    && (forall x :: x in s <==> x in elements)
    && (forall i, j :: 0 <= i < j < |s| ==> s[i] != s[j])
  }

  lemma {:induction false} ListsNothing<T(!new)>()
    ensures ListsOnce<T>([], {})
  {}

  lemma {:induction false} ListsOneMore<T(!new)>(s: seq<T>, elements: set<T>, x: T)
    requires ListsOnce(s, elements) && x !in elements
    ensures ListsOnce(s + [x], elements + {x})
  {}

  /** So its length is their number, in whatever order they finished. */
  lemma {:induction false} ListsOnceCounts<T(!new)>(s: seq<T>, elements: set<T>)
    requires ListsOnce(s, elements)
    ensures |s| == |elements|
    ensures (set x <- s) == elements
    decreases |s|
  {
    if s == [] {
      assert forall x :: x !in elements;
    } else {
      var last, before := s[|s| - 1], s[..|s| - 1];
      forall x ensures x in before <==> x in elements - {last} {
        if x in elements - {last} {
          var i :| 0 <= i < |s| && s[i] == x;
          assert before[i] == x;
        }
      }
      ListsOnceCounts(before, elements - {last});
      assert elements == (elements - {last}) + {last};
    }
  }

  /** Named after this unit, within the length the cloud accepts. */
  predicate Owned(prefix: string, v: InstanceID) {
    v.prefix == prefix && NameHasPrefix(prefix, v.Name()) && |v.Name()| <= MAX_NAME_LENGTH
  }

  /** The name made from this token is short enough and neither issued nor in use. */
  predicate IsFree(prefix: string, token: string, issued: set<InstanceID>, vms: set<InstanceID>) {
    && Build(prefix, token).Success?
    && InstanceID(prefix, token, "") !in issued && InstanceID(prefix, token, "") !in vms
  }

  ghost predicate AllFree(prefix: string, tokens: seq<string>, issued: set<InstanceID>, vms: set<InstanceID>) {
    && (forall i :: 0 <= i < |tokens| ==> IsFree(prefix, tokens[i], issued, vms))
    && (forall i, j :: 0 <= i < j < |tokens| ==> tokens[i] != tokens[j])
  }

  lemma {:induction false} FirstIsFree(prefix: string, tokens: seq<string>, issued: set<InstanceID>, vms: set<InstanceID>)
    requires tokens != []
    ensures AllFree(prefix, tokens, issued, vms) ==> IsFree(prefix, tokens[0], issued, vms)
  {}

  lemma {:induction false} RestIsFree(
    prefix: string, tokens: seq<string>, issued: set<InstanceID>, vms: set<InstanceID>,
    issued': set<InstanceID>, vms': set<InstanceID>)
    requires tokens != [] && issued' <= issued + {InstanceID(prefix, tokens[0], "")} && vms' <= vms
    ensures AllFree(prefix, tokens, issued, vms) ==> AllFree(prefix, tokens[1..], issued', vms')
  {}

  lemma {:induction false} LaunchedWasTaken(
    prefix: string, tokens: seq<string>, issued: set<InstanceID>, vms: set<InstanceID>, v: InstanceID, vms': set<InstanceID>)
    requires v in issued && vms' <= vms + {v}
    ensures AllFree(prefix, tokens, issued, vms) ==> AllFree(prefix, tokens, issued, vms')
  {}

  /** Somewhere inside a deletion section. */
  predicate InSection(p: Phase) {
    p.SweepStart? || p.SweepListed? || p.SweepRunners? || p.SweepVms?
  }

  lemma {:induction false} BuiltIsOwned(prefix: string, token: string)
    requires Build(prefix, token).Success?
    ensures Owned(prefix, InstanceID(prefix, token, ""))
  {}

  /** The log of a section in which nothing failed says what it has made of the stores. */
  lemma {:induction false} CalmSectionSweeps(limits: Limits, start: State, before: seq<Event>, events: seq<Event>)
    requires Linked(Run(limits, start, before).world) && Run(limits, start, before).phase.SweepStart?
    requires Grew(true, before, events)
    requires var p := Run(limits, start, events).phase;
             p.SweepVms? && p.sweep == Run(limits, start, before).phase.sweep && p.left == {}
    ensures var s, t := Run(limits, start, before), Run(limits, start, events);
            Swept(s.phase.sweep, s.world, t.world) && t.phase.gone == s.world.vms.Keys - t.world.vms.Keys
  {
    hide Run, Linked, Swept;
    var rest := events[|before|..];
    assert AllQuiet(rest) && events == before + rest;
    RunsCompose(limits, start, before, rest);
    QuietSectionSweeps(limits, Run(limits, start, before), rest);
  }

  /** Where the parallel workers of one creation are. */
  datatype Workers = Workers(
    unstarted: seq<string>,
    pending: set<InstanceID>,
    undo: set<InstanceID>,
    launched: seq<InstanceID>)
  {
    function Count(): nat { |unstarted| + |pending| + |launched| }
  }

  class RunnerManager {
    const fleet: Fleet
    const prefix: string

    constructor (fleet: Fleet, prefix: string)
      ensures this.fleet == fleet && this.prefix == prefix
    {
      this.fleet, this.prefix := fleet, prefix;
    }

    // -------------------------------------------------------------- creating

    /** The random tokens give distinct names that are free. */
    ghost predicate FreeFor(tokens: seq<string>) reads fleet {
      AllFree(prefix, tokens, fleet.issued.Keys, fleet.vms.Keys)
    }

    ghost predicate Calm(tokens: seq<string>) reads fleet {
      fleet.faultFree && FreeFor(tokens)
    }

    /** The fleet is in the creation that began in phase `origin`, and has got as far as `w`. */
    ghost predicate Underway(w: Workers, origin: Phase) reads fleet {
      && fleet.Valid() && fleet.phase.Creating? && origin.Creating?
      && fleet.phase == origin.(unstarted := |w.unstarted|, pending := w.pending, undo := w.undo,
                                created := fleet.phase.created)
      && ListsOnce(w.launched, fleet.phase.created) && w.pending !! fleet.phase.created
      && (forall v :: v in w.pending || v in w.launched ==> Owned(prefix, v))
      && (fleet.faultFree ==> w.undo == {})
    }

    /** GitHub has issued an ID for this name and holds a registration under it. */
    ghost predicate Registered(v: InstanceID) reads fleet {
      v in fleet.issued && fleet.issued[v] in fleet.runners && fleet.runners[fleet.issued[v]].instance == v
    }

    /** A worker names its runner after its random token and registers it; too long a name raises. */
    method StartWorker(w: Workers, ghost origin: Phase) returns (ok: bool, w': Workers)
      requires Underway(w, origin) && w.unstarted != []
      modifies fleet
      ensures fleet.Valid() && fleet.phase.Creating? && fleet.ctl == old(fleet.ctl)
      ensures Grew(old(Calm(w.unstarted)), old(fleet.events), fleet.events)
      ensures !ok ==> fleet.phase == old(fleet.phase)
      ensures ok ==> Underway(w', origin)
      ensures ok ==> var v, rest := InstanceID(prefix, w.unstarted[0], ""), w.(unstarted := w.unstarted[1..]);
                     w' == rest || (w' == rest.(pending := w.pending + {v}) && v !in w.pending && Registered(v))
      ensures old(Calm(w.unstarted)) ==> ok && Calm(w'.unstarted) && w'.Count() == w.Count()
    {
      hide Run, Next, Linked, Initial, AllFree, Owned;
      ghost var issued, vms := fleet.issued.Keys, fleet.vms.Keys;
      FirstIsFree(prefix, w.unstarted, issued, vms);
      var v := InstanceID(prefix, w.unstarted[0], "");
      var built := Build(prefix, w.unstarted[0]);
      if built.Failure? { return false, w; }
      BuiltIsOwned(prefix, w.unstarted[0]);
      var r := fleet.Register(v);
      RestIsFree(prefix, w.unstarted, issued, vms, fleet.issued.Keys, fleet.vms.Keys);
      ok := !r.RegisterRaised?;
      w' := w.(unstarted := w.unstarted[1..], pending := if r.Issued? then w.pending + {v} else w.pending);
    }

    /** The worker goes on to launch the VM; a failure leaves the registration to be undone. */
    method LaunchWorker(w: Workers, v: InstanceID, ghost origin: Phase) returns (ok: bool, w': Workers)
      requires Underway(w, origin) && v in w.pending
      modifies fleet
      ensures fleet.Valid() && fleet.phase.Creating? && fleet.ctl == old(fleet.ctl)
      ensures Grew(fleet.faultFree, old(fleet.events), fleet.events)
      ensures !ok ==> fleet.phase == old(fleet.phase)
      ensures ok ==> Underway(w', origin)
      ensures ok ==> var rest := w.(pending := w.pending - {v});
                     || (w' == rest.(launched := w.launched + [v]) && v in fleet.vms)
                     || w' == rest.(undo := w.undo + {v})
      ensures old(Calm(w.unstarted)) ==> ok && Calm(w'.unstarted) && w'.Count() == w.Count()
    {
      hide Run, Next, Linked, Initial, AllFree, Owned, ListsOnce;
      ghost var issued, vms := fleet.issued.Keys, fleet.vms.Keys;
      ghost var created := fleet.phase.created;
      var r := fleet.Launch(v);
      ok, w' := !r.LaunchRaised?, w.(pending := w.pending - {v});
      LaunchedWasTaken(prefix, w.unstarted, issued, vms, v, fleet.vms.Keys);
      if r.Launched? {
        ListsOneMore(w.launched, created, v);
        w' := w'.(launched := w.launched + [v]);
      } else {
        w' := w'.(undo := w.undo + {v});
      }
    }

    /** Deletes the registration of a failed launch. */
    method UndoWorker(w: Workers, v: InstanceID, ghost origin: Phase) returns (ok: bool, w': Workers)
      requires Underway(w, origin) && v in w.undo
      modifies fleet
      ensures fleet.Valid() && fleet.phase.Creating? && fleet.ctl == old(fleet.ctl)
      ensures Grew(fleet.faultFree, old(fleet.events), fleet.events)
      ensures !ok ==> fleet.phase == old(fleet.phase)
      ensures ok ==> Underway(w', origin) && w' == w.(undo := w.undo - {v})
    {
      hide Run, Next, Linked, Initial, Owned, ListsOnce;
      var r := fleet.Undo(v);
      ok, w' := !r.UndoRaised?, w.(undo := w.undo - {v});
    }

    /**
     * Runs `num` workers in any interleaving. The IDs returned are those of the launched VMs, each
     * once; a failed worker contributes none, and any other exception ends the call.
     */
    method CreateRunners(num: int, tokens: seq<string>) returns (ok: bool, ids: seq<InstanceID>)
      requires fleet.Valid() && num > 0 && |tokens| == num && fleet.phase.Creating?
      requires fleet.phase.unstarted == num
      requires fleet.phase.pending == {} && fleet.phase.undo == {} && fleet.phase.created == {}
      modifies fleet
      ensures fleet.Valid() && fleet.ctl == old(fleet.ctl)
      ensures Grew(old(Calm(tokens)), old(fleet.events), fleet.events)
      ensures fleet.phase.Creating?
      ensures ok <==> AllWorkersDone(fleet.phase)
      ensures ok ==> ListsOnce(ids, fleet.phase.created)
      ensures ok ==> && fleet.phase.base == old(fleet.phase).base && fleet.phase.num == old(fleet.phase).num
                     && fleet.phase.byTimer == old(fleet.phase).byTimer
      ensures forall v :: v in ids ==> ok && Owned(prefix, v)
      ensures old(Calm(tokens)) ==> ok && |ids| == num
    {
      var w := Workers(tokens, {}, {}, []);
      ghost var origin, calm := fleet.phase, Calm(tokens);
      ListsNothing<InstanceID>();
      assert w.Count() == num;
      hide Run, Next, Linked, Initial, Grew, FreeFor;
      GrewNotAtAll(calm, fleet.events);
      ok := true;
      while ok && (w.unstarted != [] || w.pending != {} || w.undo != {})
        invariant fleet.Valid() && fleet.phase.Creating? && fleet.ctl == old(fleet.ctl)
        invariant Grew(calm, old(fleet.events), fleet.events)
        invariant ok ==> Underway(w, origin)
        invariant !ok ==> !AllWorkersDone(fleet.phase)
        invariant calm ==> ok && Calm(w.unstarted) && w.Count() == num
        decreases ok, |w.unstarted|, w.pending, w.undo
      {
        hide Underway, Workers.Count, Calm;
        ghost var logged, quiet := fleet.events, fleet.faultFree;
        if
        case w.unstarted != [] =>
          quiet := Calm(w.unstarted);
          ok, w := StartWorker(w, origin);
          GrewFurther(calm, old(fleet.events), logged, quiet, fleet.events);
        case w.pending != {} =>
          var v :| v in w.pending;
          ok, w := LaunchWorker(w, v, origin);
          GrewFurther(calm, old(fleet.events), logged, quiet, fleet.events);
        case w.undo != {} =>
          var v :| v in w.undo;
          ok, w := UndoWorker(w, v, origin);
          GrewFurther(calm, old(fleet.events), logged, quiet, fleet.events);
      }
      ids := if ok then w.launched else [];
    }

    // -------------------------------------------------------------- deleting

    /**
     * Asks GitHub to delete the runners, in any completion order. A busy refusal is skipped; any
     * other error is raised once the remaining requests are done.
     */
    method DeleteRunners(ids: set<RunnerId>) returns (ok: bool, deleted: seq<RunnerId>)
      requires fleet.Valid() && fleet.phase.SweepRunners?
      requires fleet.phase.todo == ids && fleet.phase.deleted == {}
      modifies fleet
      ensures fleet.Valid() && fleet.ctl == old(fleet.ctl) && Grew(fleet.faultFree, old(fleet.events), fleet.events)
      ensures fleet.phase.SweepRunners? && fleet.asked == old(fleet.asked) + ids
      ensures fleet.phase.sweep == old(fleet.phase).sweep && fleet.phase.vms == old(fleet.phase).vms
      ensures ok <==> fleet.phase.todo == {}
      ensures ok ==> fleet.phase.chosen == old(fleet.phase).chosen
      ensures ok ==> ListsOnce(deleted, fleet.phase.deleted)
      ensures fleet.faultFree ==> ok
      ensures fleet.issued == old(fleet.issued) && fleet.vms.Keys <= old(fleet.vms.Keys)
    {
      hide Run, Next, Linked, ListsOnce;
      var left := ids;
      ghost var accepted := {};
      ok, deleted := true, [];
      assert ListsOnce(deleted, accepted) by { ListsNothing<RunnerId>(); }
      while left != {}
        invariant fleet.Valid() && fleet.ctl == old(fleet.ctl) && Grew(fleet.faultFree, old(fleet.events), fleet.events)
        invariant fleet.phase.SweepRunners? && left <= fleet.phase.todo
        invariant fleet.phase == old(fleet.phase).(todo := fleet.phase.todo, deleted := accepted)
        invariant ok <==> fleet.phase.todo == left
        invariant ListsOnce(deleted, accepted) && accepted !! left
        invariant left <= ids && fleet.asked == old(fleet.asked) + (ids - left)
        invariant fleet.issued == old(fleet.issued) && fleet.vms.Keys <= old(fleet.vms.Keys)
        invariant fleet.faultFree ==> ok
        decreases left
      {
        var id :| id in left;
        var r := fleet.DeleteRunner(id);
        left := left - {id};
        match r
        case Accepted =>
          ListsOneMore(deleted, accepted, id);
          deleted, accepted := deleted + [id], accepted + {id};
        case Busy =>
        case RunnerRaised => ok := false;
      }
    }

    /**
     * Likewise for the VMs: every deletion is asked for, a failed one is skipped, and only a deleted
     * one is reported.
     */
    method DeleteVms(targets: set<InstanceID>) returns (ok: bool, gone: seq<InstanceID>)
      requires fleet.Valid() && fleet.phase.SweepVms?
      requires fleet.phase.left == targets && fleet.phase.gone == {}
      modifies fleet
      ensures fleet.Valid() && fleet.ctl == old(fleet.ctl) && Grew(fleet.faultFree, old(fleet.events), fleet.events)
      ensures fleet.phase.SweepVms? && fleet.phase.sweep == old(fleet.phase).sweep
      ensures fleet.tried == old(fleet.tried) + targets
      ensures ok <==> fleet.phase.left == {}
      ensures ok ==> fleet.phase.targets == old(fleet.phase).targets
      ensures ok ==> ListsOnce(gone, fleet.phase.gone)
      ensures fleet.faultFree ==> ok
      ensures fleet.issued == old(fleet.issued) && fleet.vms.Keys <= old(fleet.vms.Keys)
    {
      hide Run, Next, Linked, ListsOnce;
      var left := targets;
      ghost var deleted := {};
      ok, gone := true, [];
      assert ListsOnce(gone, deleted) by { ListsNothing<InstanceID>(); }
      while left != {}
        invariant fleet.Valid() && fleet.ctl == old(fleet.ctl) && Grew(fleet.faultFree, old(fleet.events), fleet.events)
        invariant fleet.phase.SweepVms? && left <= fleet.phase.left
        invariant fleet.phase == old(fleet.phase).(left := fleet.phase.left, gone := deleted)
        invariant ok <==> fleet.phase.left == left
        invariant ListsOnce(gone, deleted) && deleted !! left
        invariant left <= targets && fleet.tried == old(fleet.tried) + (targets - left)
        invariant fleet.issued == old(fleet.issued) && fleet.vms.Keys <= old(fleet.vms.Keys)
        invariant fleet.faultFree ==> ok
        decreases left
      {
        var v :| v in left;
        var r := fleet.DeleteServer(v);
        left := left - {v};
        match r
        case Gone =>
          ListsOneMore(gone, deleted, v);
          gone, deleted := gone + [v], deleted + {v};
        case ServerRaised => ok := false;
        case _ =>
      }
    }

    // -------------------------------------------------------------- sections

    /** The VMs, the listing and its health report with which every deletion section begins. */
    method Snapshot()
      returns (ok: bool, vms: seq<VM>, requested: seq<Health>, nonRequested: seq<ListedRunner>, clock: int)
      requires fleet.Valid() && fleet.phase.SweepStart?
      modifies fleet
      ensures fleet.Valid() && fleet.ctl == old(fleet.ctl) && Grew(fleet.faultFree, old(fleet.events), fleet.events)
      ensures ok ==> exists listing ::
                && requested == RequestedHealth(vms, listing) && nonRequested == NonRequested(vms, listing)
                && var chosen := Choose(old(fleet.phase).sweep, vms, listing, clock);
                   fleet.phase == SweepRunners(old(fleet.phase).sweep, vms, chosen, chosen, {})
      ensures !ok ==> InSection(fleet.phase) && fleet.phase.sweep == old(fleet.phase).sweep
      ensures fleet.faultFree ==> ok
      ensures fleet.issued == old(fleet.issued) && fleet.vms.Keys <= old(fleet.vms.Keys)
    {
      hide Run, Next, Linked, Choose;
      requested, nonRequested, clock := [], [], 0;
      ok, vms := fleet.ListServers();
      if !ok { return; }
      var listing;
      ok, listing, clock := fleet.ListRunners();
      if !ok { return; }
      requested, nonRequested := GetRunnersHealth(vms, listing);
    }

    /** Extracts metrics and deletes the VMs of the runners in `ids` and those without one. */
    method DeleteVmsOf(vms: seq<VM>, ids: set<RunnerId>) returns (ok: bool, gone: seq<InstanceID>)
      requires fleet.Valid() && fleet.phase.SweepRunners? && fleet.phase.todo == {} && vms == fleet.phase.vms
      requires ids == if fleet.phase.sweep.FlushBusy? then fleet.phase.chosen else fleet.phase.deleted
      modifies fleet
      ensures fleet.Valid() && fleet.ctl == old(fleet.ctl) && Grew(fleet.faultFree, old(fleet.events), fleet.events)
      ensures InSection(fleet.phase) && fleet.phase.sweep == old(fleet.phase).sweep
      ensures ok ==> fleet.phase.SweepVms? && fleet.phase.left == {}
      ensures ok ==> fleet.phase.targets == VmsToCleanup(vms, ids) && ListsOnce(gone, fleet.phase.gone)
      ensures fleet.faultFree ==> ok
      ensures fleet.issued == old(fleet.issued) && fleet.vms.Keys <= old(fleet.vms.Keys)
    {
      gone := [];
      fleet.Note(RunnersDone);
      var targets := VmsToCleanup(vms, ids);
      ok := fleet.Attempt();
      if !ok { return; }
      ok, gone := DeleteVms(targets);
    }

    /** What a finished section without failures has made of the stores. */
    ghost method NoteSwept(s: State, before: seq<Event>)
      requires fleet.Valid() && s == Run(fleet.limits, fleet.start, before) && Linked(s.world) && s.phase.SweepStart?
      requires Grew(true, before, fleet.events)
      requires fleet.phase.SweepVms? && fleet.phase.sweep == s.phase.sweep && fleet.phase.left == {}
      ensures Swept(s.phase.sweep, s.world, fleet.Stores())
      ensures fleet.phase.gone == s.world.vms.Keys - fleet.vms.Keys
    {
      hide Run, Linked, Grew, Swept;
      CalmSectionSweeps(fleet.limits, fleet.start, before, fleet.events);
    }

    /** cleanup: key expiry lies between the listing and the deletions, and may raise. */
    method Cleanup() returns (ok: bool)
      requires fleet.Valid() && fleet.phase.SweepStart? && fleet.phase.sweep.Cleanup?
      modifies fleet
      ensures fleet.Valid() && fleet.ctl == old(fleet.ctl) && Grew(fleet.faultFree, old(fleet.events), fleet.events)
      ensures InSection(fleet.phase) && fleet.phase.sweep == old(fleet.phase).sweep
      ensures ok ==> fleet.phase.SweepVms? && fleet.phase.left == {}
      ensures fleet.faultFree ==> ok && Swept(fleet.phase.sweep, old(fleet.Stores()), fleet.Stores())
      ensures fleet.issued == old(fleet.issued) && fleet.vms.Keys <= old(fleet.vms.Keys)
    {
      hide Run, Next, Linked, RunnersToCleanup, VmsToCleanup, ListsOnce, Swept, Grew, Initial, SectionSafe;
      fleet.Invariants();
      ghost var s, logged := fleet.Current(), fleet.events;
      var vms, requested, nonRequested, clock, deleted, gone;
      ok, vms, requested, nonRequested, clock := Snapshot();
      if !ok { return; }
      ok := fleet.Attempt();
      if !ok { return; }
      ghost var listed := fleet.events;
      ok, deleted := DeleteRunners(RunnersToCleanup(requested, nonRequested, vms, clock));
      GrewFurther(fleet.faultFree, logged, listed, fleet.faultFree, fleet.events);
      if !ok { return; }
      ListsOnceCounts(deleted, fleet.phase.deleted);
      ghost var asked := fleet.events;
      ok, gone := DeleteVmsOf(vms, set id <- deleted);
      GrewFurther(fleet.faultFree, logged, asked, fleet.faultFree, fleet.events);
      if fleet.faultFree { NoteSwept(s, logged); }
      if ok { ok := fleet.Attempt(); }
    }

    /** soft_delete_runners: the number of VMs really deleted. */
    method SoftDeleteRunners(num: int) returns (ok: bool, n: nat)
      requires fleet.Valid() && fleet.phase.SweepStart? && fleet.phase.sweep.Soft? && fleet.phase.sweep.num == num
      modifies fleet
      ensures fleet.Valid() && fleet.ctl == old(fleet.ctl) && Grew(fleet.faultFree, old(fleet.events), fleet.events)
      ensures InSection(fleet.phase) && fleet.phase.sweep == old(fleet.phase).sweep
      ensures ok ==> fleet.phase.SweepVms? && fleet.phase.left == {} && n == |fleet.phase.gone|
      ensures fleet.faultFree ==> ok && Swept(fleet.phase.sweep, old(fleet.Stores()), fleet.Stores())
      ensures fleet.faultFree ==> n == |old(fleet.vms)| - |fleet.vms|
      ensures fleet.issued == old(fleet.issued) && fleet.vms.Keys <= old(fleet.vms.Keys)
    {
      hide Run, Next, Linked, RunnersToDelete, RunnersToCleanup, Swept, VmsToCleanup, Grew, Initial, SectionSafe;
      fleet.Invariants();
      ghost var s, logged := fleet.Current(), fleet.events;
      n := 0;
      var vms, requested, nonRequested, clock, deleted, gone;
      ok, vms, requested, nonRequested, clock := Snapshot();
      if !ok { return; }
      ghost var listed := fleet.events;
      ok, deleted := DeleteRunners(RunnersToDelete(requested, nonRequested, vms, clock, num, true));
      GrewFurther(fleet.faultFree, logged, listed, fleet.faultFree, fleet.events);
      if !ok { return; }
      ListsOnceCounts(deleted, fleet.phase.deleted);
      ghost var asked := fleet.events;
      ok, gone := DeleteVmsOf(vms, set id <- deleted);
      GrewFurther(fleet.faultFree, logged, asked, fleet.faultFree, fleet.events);
      if !ok { return; }
      ListsOnceCounts(gone, fleet.phase.gone);
      if fleet.faultFree {
        NoteSwept(s, logged);
        CountRemoved(s.world.vms, fleet.vms);
      }
      n := |gone|;
      ok := fleet.Attempt();
    }

    /** flush_runners: only FLUSH_BUSY goes on with the runners GitHub refused to delete. */
    method FlushRunners(mode: FlushMode) returns (ok: bool)
      requires fleet.Valid() && fleet.phase == SweepStart(if mode.FLUSH_BUSY? then FlushBusy else FlushIdle)
      modifies fleet
      ensures fleet.Valid() && fleet.ctl == old(fleet.ctl) && Grew(fleet.faultFree, old(fleet.events), fleet.events)
      ensures InSection(fleet.phase) && fleet.phase.sweep == old(fleet.phase).sweep
      ensures ok ==> fleet.phase.SweepVms? && fleet.phase.left == {}
      ensures fleet.faultFree ==> ok && Swept(fleet.phase.sweep, old(fleet.Stores()), fleet.Stores())
      ensures fleet.issued == old(fleet.issued) && fleet.vms.Keys <= old(fleet.vms.Keys)
    {
      hide Run, Next, Linked, RunnersToCleanup, RunnersToFlush, VmsToCleanup, ListsOnce, Swept, Grew, Initial, SectionSafe;
      fleet.Invariants();
      ghost var s, logged := fleet.Current(), fleet.events;
      var vms, requested, nonRequested, clock, deleted, gone;
      ok, vms, requested, nonRequested, clock := Snapshot();
      if !ok { return; }
      var chosen := RunnersToCleanup(requested, nonRequested, vms, clock) + RunnersToFlush(requested, mode);
      ghost var listed := fleet.events;
      ok, deleted := DeleteRunners(chosen);
      GrewFurther(fleet.faultFree, logged, listed, fleet.faultFree, fleet.events);
      if !ok { return; }
      ListsOnceCounts(deleted, fleet.phase.deleted);
      ghost var asked := fleet.events;
      ok, gone := DeleteVmsOf(vms, if mode.FLUSH_BUSY? then chosen else set id <- deleted);
      GrewFurther(fleet.faultFree, logged, asked, fleet.faultFree, fleet.events);
      if fleet.faultFree { NoteSwept(s, logged); }
      if ok { ok := fleet.Attempt(); }
    }
  }
}
