/**
 * Between two timer reconciles the create loop computes a running maximum of the desired totals,
 * under any interleaving with flushes, incidents and the timer's unlocked reads.
 */
module RunningMax {
  import opened Wrappers
  import opened Identifiers
  import opened PressureTarget
  import opened Runners
  import opened Machine
  import opened Bounds

  /** The create thread takes up a pressure event in this step. */
  predicate TakesUp(s: State, e: Event) {
    e.PressureSeen? && s.phase != Dead && s.ctl.synced && s.ctl.createWaiting.None?
  }

  /** The largest of the starting count and the desired totals taken up. */
  ghost function LargestDesired(limits: Limits, s: State, events: seq<Event>): int {
    if events == [] then s.ctl.count
    else
      var before, e := events[..|events| - 1], events[|events| - 1];
      var largest := LargestDesired(limits, s, before);
      if TakesUp(Run(limits, s, before), e) then Max(largest, DesiredTotal(limits, e.pressure)) else largest
  }

  /** Event i of the run brings the create thread this desired total. */
  ghost predicate TakenAt(limits: Limits, s: State, events: seq<Event>, i: int, total: int) {
    && 0 <= i < |events|
    && TakesUp(Run(limits, s, events[..i]), events[i])
    && total == DesiredTotal(limits, events[i].pressure)
  }

  lemma {:induction false} TakenEarlier(limits: Limits, s: State, events: seq<Event>, i: int, total: int)
    requires events != []
    ensures TakenAt(limits, s, events, i, total) <==>
            || TakenAt(limits, s, events[..|events| - 1], i, total)
            || (i == |events| - 1 && TakenAt(limits, s, events, i, total))
  {
    hide Run, TakesUp;
    if 0 <= i < |events| - 1 {
      assert events[..|events| - 1][..i] == events[..i];
    }
  }

  lemma {:induction false} LastTaken(limits: Limits, s: State, events: seq<Event>)
    requires events != []
    ensures var last, before := |events| - 1, LargestDesired(limits, s, events[..|events| - 1]);
            var now := LargestDesired(limits, s, events);
            && before <= now
            && (forall total :: TakenAt(limits, s, events, last, total) ==> total <= now)
            && (now != before ==> TakenAt(limits, s, events, last, now))
  {
    hide Next;
  }

  /** It is the maximum: an upper bound of the start and of each total taken up, and one of them. */
  lemma {:induction false} LargestIsAttained(limits: Limits, s: State, events: seq<Event>)
    ensures s.ctl.count <= LargestDesired(limits, s, events)
    ensures forall i, total :: TakenAt(limits, s, events, i, total) ==> total <= LargestDesired(limits, s, events)
    ensures LargestDesired(limits, s, events) == s.ctl.count
            || exists i :: TakenAt(limits, s, events, i, LargestDesired(limits, s, events))
  {
    if events == [] {
    } else {
      var last, before := |events| - 1, events[..|events| - 1];
      LargestIsAttained(limits, s, before);
      forall i, total ensures TakenAt(limits, s, events, i, total) <==>
                              || TakenAt(limits, s, before, i, total)
                              || (i == last && TakenAt(limits, s, events, i, total))
      {
        TakenEarlier(limits, s, events, i, total);
      }
      LastTaken(limits, s, events);
      hide TakenAt, Run, TakesUp, LargestDesired;
    }
  }

  predicate NoTimer(events: seq<Event>) {
    forall i :: 0 <= i < |events| ==> events[i] != TimerLock
  }

  /** No registration or launch fails. */
  predicate NoCreateFails(events: seq<Event>) {
    forall i :: 0 <= i < |events| ==> events[i] != RegisterFails && !(events[i].Launch? && !events[i].outcome.Up?)
  }

  /** The lock is free, or held by the create loop or a flush. */
  predicate CreateLoopOnly(s: State) {
    && s.ctl.synced
    && (s.phase == Free || s.phase == Dead || InFlush(s.phase) || (s.phase.Creating? && !s.phase.byTimer))
  }

  // ---------------------------------------------------------------- never more

  ghost predicate AtMost(limits: Limits, largest: int, s: State) {
    && CreateLoopOnly(s)
    && s.ctl.count <= largest
    && (s.ctl.createWaiting.Some? ==> DesiredTotal(limits, s.ctl.createWaiting.value) <= largest)
    && (s.phase.Creating? ==> s.phase.base + s.phase.num <= largest)
  }

  lemma {:induction false} StepKeepsAtMost(limits: Limits, largest: int, s: State, e: Event, strays: nat)
    requires Counts(s, strays) && AtMost(limits, largest, s) && e != TimerLock
    ensures AtMost(limits,
                   if TakesUp(s, e) then Max(largest, DesiredTotal(limits, e.pressure)) else largest,
                   Next(limits, s, e))
  {
    if s.phase.Creating? { CreatedWithinNum(s, strays); }
    hide Choose, Enumerates, Lists, Fresh, Counts, VmsToCleanup, DesiredTotal;
  }

  /** Whatever fails, the count never passes the largest desired total seen. */
  lemma {:induction false} CountAtMostLargest(limits: Limits, s: State, events: seq<Event>, strays: nat)
    requires Counts(s, strays) && s.ctl.synced && s.phase == Free && s.ctl.createWaiting.None?
    requires NoTimer(events)
    ensures AtMost(limits, LargestDesired(limits, s, events), Run(limits, s, events))
    ensures Run(limits, s, events).ctl.count <= LargestDesired(limits, s, events)
  {
    if events == [] {
    } else {
      var before := events[..|events| - 1];
      CountAtMostLargest(limits, s, before, strays);
      var k := RunsKeepCountsFrom(limits, s, before, strays);
      StepKeepsAtMost(limits, LargestDesired(limits, s, before), Run(limits, s, before), events[|events| - 1], k);
    }
  }

  // ---------------------------------------------------------------- exactly, without failures

  ghost predicate Exactly(limits: Limits, largest: int, s: State) {
    && CreateLoopOnly(s)
    && !s.ctl.paused
    && (s.ctl.createWaiting.None? ==> s.ctl.count == largest)
    && (s.ctl.createWaiting.Some? && !s.phase.Creating? ==>
          Max(s.ctl.count, DesiredTotal(limits, s.ctl.createWaiting.value)) == largest)
    && (s.phase.Creating? ==>
          && s.ctl.createWaiting.Some?
          && s.phase.base + s.phase.num == largest && s.phase.num > 0
          && s.phase.undo == {}
          && |s.phase.created| + |s.phase.pending| + s.phase.unstarted == s.phase.num)
  }

  lemma {:induction false} LaunchKeepsExactly(limits: Limits, largest: int, s: State, v: InstanceID)
    requires Exactly(limits, largest, s) && (s.phase.Creating? ==> s.phase.pending !! s.phase.created)
    ensures Exactly(limits, largest, LaunchOne(s, v, Up))
  {
    if s.phase.Creating? && v in s.phase.pending {
      assert s.phase.pending == (s.phase.pending - {v}) + {v};
    }
  }

  lemma {:induction false} RegisterKeepsExactly(limits: Limits, largest: int, s: State, v: InstanceID, id: GitHubId)
    requires Exactly(limits, largest, s)
    requires s.phase.Creating? && Fresh(s.world, v, id) ==> v !in s.phase.pending
    ensures Exactly(limits, largest, RegisterOne(s, v, id))
  {
  }

  lemma {:induction false} FinishKeepsExactly(limits: Limits, largest: int, s: State)
    requires Exactly(limits, largest, s) && (s.phase.Creating? ==> s.phase.base == s.ctl.count && s.phase.unstarted >= 0)
    ensures Exactly(limits, largest, FinishCreate(s))
  {
  }

  lemma {:induction false} WorkersAreDisjoint(s: State, strays: nat, v: InstanceID, id: GitHubId)
    requires Counts(s, strays) && s.phase.Creating?
    ensures s.phase.pending !! s.phase.created && s.phase.base == s.ctl.count && s.phase.unstarted >= 0
    ensures Fresh(s.world, v, id) ==> v !in s.phase.pending
  {
  }

  lemma {:induction false} CreationKeepsExactly(limits: Limits, largest: int, s: State, e: Event, strays: nat)
    requires Counts(s, strays) && Exactly(limits, largest, s) && InCreation(e)
    requires e != RegisterFails && !(e.Launch? && !e.outcome.Up?)
    ensures Exactly(limits, largest, Next(limits, s, e))
  {
    hide Counts, Fresh, LaunchOne, RegisterOne, FinishCreate;
    if s.phase.Creating? {
      if e.Register? { WorkersAreDisjoint(s, strays, e.v, e.issue); }
      else { WorkersAreDisjoint(s, strays, InstanceID("", "", ""), 1); }
    }
    match e
    case Launch(v, _) => LaunchKeepsExactly(limits, largest, s, v);
    case Register(v, id) => RegisterKeepsExactly(limits, largest, s, v, id);
    case CreateDone => FinishKeepsExactly(limits, largest, s);
    case _ =>
  }

  lemma {:induction false} SweepKeepsExactly(limits: Limits, largest: int, s: State, e: Event)
    requires Exactly(limits, largest, s) && (InSweep(e) || e.Outside?)
    ensures Exactly(limits, largest, Next(limits, s, e))
  {
    hide Choose, Enumerates, Lists;
  }

  lemma {:induction false} ControlKeepsExactly(limits: Limits, largest: int, s: State, e: Event)
    requires Exactly(limits, largest, s) && InControl(e) && e != TimerLock
    requires s.phase != Dead && Next(limits, s, e).phase != Dead
    ensures Exactly(limits,
                    if TakesUp(s, e) then Max(largest, DesiredTotal(limits, e.pressure)) else largest,
                    Next(limits, s, e))
  {
  }

  lemma {:induction false} StepKeepsExactly(limits: Limits, largest: int, s: State, e: Event, strays: nat)
    requires Counts(s, strays) && Exactly(limits, largest, s) && e != TimerLock
    requires e != RegisterFails && !(e.Launch? && !e.outcome.Up?)
    requires s.phase != Dead && Next(limits, s, e).phase != Dead
    ensures Exactly(limits,
                    if TakesUp(s, e) then Max(largest, DesiredTotal(limits, e.pressure)) else largest,
                    Next(limits, s, e))
  {
    hide Choose, Enumerates, Lists, Fresh;
    if InCreation(e) { CreationKeepsExactly(limits, largest, s, e, strays); }
    else if InSweep(e) || e.Outside? { SweepKeepsExactly(limits, largest, s, e); }
    else { ControlKeepsExactly(limits, largest, s, e); }
  }

  lemma {:induction false} DeadIsFinal(limits: Limits, s: State, e: Event)
    requires s.phase == Dead
    ensures Next(limits, s, e).phase == Dead
  {
    hide Choose, Enumerates, Lists, Fresh;
  }

  lemma {:induction false} RunsKeepExactly(limits: Limits, s: State, events: seq<Event>, strays: nat)
    requires Counts(s, strays) && s.ctl.synced && s.phase == Free && s.ctl.createWaiting.None? && !s.ctl.paused
    requires NoTimer(events) && NoCreateFails(events)
    requires Run(limits, s, events).phase != Dead
    ensures Exactly(limits, LargestDesired(limits, s, events), Run(limits, s, events))
  {
    if events == [] {
    } else {
      var before, e := events[..|events| - 1], events[|events| - 1];
      var t := Run(limits, s, before);
      if t.phase == Dead {
        DeadIsFinal(limits, t, e);
      } else {
        RunsKeepExactly(limits, s, before, strays);
        var k := RunsKeepCountsFrom(limits, s, before, strays);
        StepKeepsExactly(limits, LargestDesired(limits, s, before), t, e, k);
      }
    }
  }

  /**
   * When creation succeeds, the count is the largest of its start and the desired totals seen as
   * soon as the create thread has handled its last event: repeats and order make no difference.
   */
  lemma {:induction false} CreateLoopComputesMax(limits: Limits, s: State, events: seq<Event>, strays: nat)
    requires Counts(s, strays) && s.ctl.synced && s.phase == Free && s.ctl.createWaiting.None? && !s.ctl.paused
    requires NoTimer(events) && NoCreateFails(events)
    requires Run(limits, s, events).phase != Dead && Run(limits, s, events).ctl.createWaiting.None?
    ensures Run(limits, s, events).ctl.count == LargestDesired(limits, s, events)
  {
    RunsKeepExactly(limits, s, events, strays);
  }
}
