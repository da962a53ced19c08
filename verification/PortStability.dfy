/**
 * Stability of ports over every interleaving of units: when a unit's port stays the same, and what
 * a unit gets that has to allocate again.
 */
module PortStability {
  import opened Wrappers
  import opened Identifiers
  import opened Ports
  import opened PortSafety

  /** The call that ends with this event returns this port to this unit. */
  function Returned(h: Host, e: Event): Option<(UnitName, int)> {
    match e
    case FastRead(u, readable) =>
      if !Busy(h, u) && HasPort(h, u) && readable then Some((u, h.files[u].n)) else None
    case Persist(outcome) =>
      if h.lock.Selected? && outcome == Written then Some((h.lock.holder, h.lock.port)) else None
    case _ => None
  }

  /** The unit has this port, and still has it if a write of its own in progress goes through. */
  predicate Keeps(h: Host, u: UnitName, port: int) {
    && u in h.files && h.files[u] == Port(port)
    && (h.lock.Selected? && h.lock.holder == u ==> h.lock.port == port)
  }

  /** The scan of the lock holder comes back to this port. */
  predicate ComesBackTo(h: Host, free: set<int>, port: int)
    requires h.lock.Scanning?
  {
    var base := DeterministicPort(h.lock.holder);
    LooksLowest(h, free, port) || (Exhausted(base, h.lock.used, free) && port == base)
  }

  /** The unit is cleaned up, selects anew and elsewhere, or tears its file in writing. */
  predicate Moves(h: Host, e: Event, u: UnitName, port: int) {
    || (e == Cleanup(u) && !Busy(h, u))
    || (Selects(h, e) && h.lock.holder == u && !ComesBackTo(h, e.free, port))
    || (e == Persist(Torn) && h.lock.Selected? && h.lock.holder == u)
  }

  predicate MovesAt(h: Host, events: seq<Event>, i: nat, u: UnitName, port: int)
    requires i < |events|
  {
    Moves(At(h, events, i), events[i], u, port)
  }

  /** A selection gives this port in exactly two cases. */
  lemma {:induction false} SelectionIsIff(h: Host, e: Event, port: int)
    requires Selects(h, e)
    ensures e.port == port <==> ComesBackTo(h, e.free, port)
  {
    if LooksLowest(h, e.free, port) { LowestIsUnique(h, e.free, port, e.port); }
  }

  lemma {:induction false} StepKeepsIff(h: Host, e: Event, u: UnitName, port: int)
    requires Keeps(h, u, port)
    ensures Keeps(Next(h, e), u, port) <==> !Moves(h, e, u, port)
  {
    if Selects(h, e) { SelectionIsIff(h, e, port); }
  }

  lemma {:induction false} StaysKept(h: Host, events: seq<Event>, i: nat, j: nat, u: UnitName, port: int)
    requires i <= j <= |events| && Keeps(At(h, events, i), u, port)
    requires forall k | i <= k < j :: !MovesAt(h, events, k, u, port)
    ensures Keeps(At(h, events, j), u, port)
  {
    hide Next, Keeps, Moves;
    if i == j {
    } else {
      StaysKept(h, events, i, j - 1, u, port);
      StepOfRun(h, events, j - 1);
      assert !MovesAt(h, events, j - 1, u, port);
      StepKeepsIff(At(h, events, j - 1), events[j - 1], u, port);
    }
  }

  /** A unit keeps its port from some point of a run on exactly if it does not move. */
  lemma {:induction false} PortIsKeptIff(h: Host, events: seq<Event>, i: nat, u: UnitName, port: int)
    requires i <= |events| && Keeps(At(h, events, i), u, port)
    ensures (forall k | i <= k <= |events| :: Keeps(At(h, events, k), u, port))
            <==> forall k | i <= k < |events| :: !MovesAt(h, events, k, u, port)
  {
    hide Next, Keeps, Moves;
    if forall k | i <= k < |events| :: !MovesAt(h, events, k, u, port) {
      forall k | i <= k <= |events| ensures Keeps(At(h, events, k), u, port) {
        StaysKept(h, events, i, k, u, port);
      }
    } else {
      var k :| i <= k < |events| && MovesAt(h, events, k, u, port);
      StepOfRun(h, events, k);
      if Keeps(At(h, events, k), u, port) { StepKeepsIff(At(h, events, k), events[k], u, port); }
      assert !Keeps(At(h, events, k), u, port) || !Keeps(At(h, events, k + 1), u, port);
    }
  }

  lemma {:induction false} HolderDoesNotWait(h: Host, events: seq<Event>)
    requires !h.lock.Unlocked? ==> h.lock.holder !in h.waiting
    ensures var t := Run(h, events); !t.lock.Unlocked? ==> t.lock.holder !in t.waiting
  {
    if events == [] {
    } else {
      HolderDoesNotWait(h, events[..|events| - 1]);
    }
  }

  lemma {:induction false} ReturnedIsKept(h: Host, e: Event, u: UnitName, port: int)
    requires Returned(h, e) == Some((u, port))
    ensures Keeps(Next(h, e), u, port)
  {
  }

  lemma {:induction false} KeptIsReturned(h: Host, e: Event, u: UnitName, p: int, q: int)
    requires Keeps(h, u, p) && Returned(h, e) == Some((u, q))
    ensures p == q
  {
  }

  /**
   * Stability, with its exact condition. From the call that returns a port on, the unit has that
   * port at every point, and would if its write in progress went through, exactly if it does not
   * move; and until it does, every call returns the same port.
   */
  lemma {:induction false} ReturnedPortIsStable(h: Host, events: seq<Event>, i: nat, u: UnitName, p: int)
    requires i < |events| && Returned(At(h, events, i), events[i]) == Some((u, p))
    ensures (forall k | i < k <= |events| :: Keeps(At(h, events, k), u, p))
            <==> forall k | i < k < |events| :: !MovesAt(h, events, k, u, p)
    ensures forall j, q | i < j < |events| && Returned(At(h, events, j), events[j]) == Some((u, q)) ::
              (forall k | i < k < j :: !MovesAt(h, events, k, u, p)) ==> p == q
  {
    hide Next, Keeps, Moves, Returned;
    StepOfRun(h, events, i);
    ReturnedIsKept(At(h, events, i), events[i], u, p);
    PortIsKeptIff(h, events, i + 1, u, p);
    forall j, q | i < j < |events| && Returned(At(h, events, j), events[j]) == Some((u, q))
                  && (forall k | i < k < j :: !MovesAt(h, events, k, u, p))
      ensures p == q
    {
      StaysKept(h, events, i + 1, j, u, p);
      KeptIsReturned(At(h, events, j), events[j], u, p, q);
    }
  }

  /** The unit has this port and no call in flight. */
  predicate Settled(h: Host, u: UnitName, port: int) {
    u in h.files && h.files[u] == Port(port) && !Busy(h, u)
  }

  /** The unit has selected this port at step k. */
  predicate SelectedAt(h: Host, events: seq<Event>, k: nat, u: UnitName, port: int)
    requires k < |events|
  {
    Selects(At(h, events, k), events[k]) && At(h, events, k).lock.holder == u && events[k].port == port
  }

  /** One call in flight: the file stays, and what the unit has selected it selected in this call. */
  lemma {:induction false} CallSelects(
    h: Host, events: seq<Event>, i: nat, j: nat, u: UnitName, p: int) returns (k: nat)
    requires !h.lock.Unlocked? ==> h.lock.holder !in h.waiting
    requires i < j <= |events| && Settled(At(h, events, i), u, p) && events[i] == FastRead(u, false)
    requires forall x | i < x <= j :: Busy(At(h, events, x), u)
    ensures HasPort(At(h, events, j), u) && At(h, events, j).files[u].n == p
    ensures var lock := At(h, events, j).lock;
            lock.Selected? && lock.holder == u ==> i < k < j && SelectedAt(h, events, k, u, lock.port)
  {
    hide Run, IsSelected;
    k := 0;
    StepOfRun(h, events, j - 1);
    HolderDoesNotWait(h, events[..j - 1]);
    if j - 1 == i {
    } else {
      k := CallSelects(h, events, i, j - 1, u, p);
      assert Busy(At(h, events, j - 1), u) && Busy(At(h, events, j), u);
      if events[j - 1].Select? && At(h, events, j - 1).lock.Scanning? && At(h, events, j - 1).lock.holder == u {
        k := j - 1;
      }
    }
  }

  /**
   * A unit that cannot read its own file at first allocates again. Whatever the units do meanwhile,
   * that call returns the port the unit had exactly if its selection comes back to it.
   */
  lemma {:induction false} ReallocationReturnsIff(
    h: Host, events: seq<Event>, i: nat, j: nat, u: UnitName, p: int, q: int)
    requires !h.lock.Unlocked? ==> h.lock.holder !in h.waiting
    requires i < j < |events| && Settled(At(h, events, i), u, p) && events[i] == FastRead(u, false)
    requires forall x | i < x <= j :: Busy(At(h, events, x), u)
    requires Returned(At(h, events, j), events[j]) == Some((u, q))
    ensures exists k | i < k < j ::
              && SelectedAt(h, events, k, u, q)
              && (p == q <==> ComesBackTo(At(h, events, k), events[k].free, p))
  {
    hide Run, Next, IsSelected;
    var k := CallSelects(h, events, i, j, u, p);
    SelectionIsIff(At(h, events, k), events[k], p);
    assert SelectedAt(h, events, k, u, q);
  }

  // ---------------------------------------------------------------- both happen

  /** The run in which u, with its base port, allocates again because it could not read its file. */
  function Reallocation(u: UnitName, readable: bool, free: set<int>, port: int): seq<Event> {
    [FastRead(u, false), TakeLock(u), ReadFile(u, readable), Select(free, port), Persist(Written)]
  }

  /** What u knows when it comes to select. */
  lemma {:induction false} ReallocationScans(u: UnitName, readable: bool, free: set<int>, port: int)
    ensures var base := DeterministicPort(u);
            var h, events := Host(map[u := Port(base)], {}, Unlocked), Reallocation(u, readable, free, port);
            At(h, events, 3)
            == Host(h.files, {}, if readable then Scanning(u, {}, {base}, {u}) else Scanning(u, {}, {}, {}))
  {
    var base := DeterministicPort(u);
    var h, events := Host(map[u := Port(base)], {}, Unlocked), Reallocation(u, readable, free, port);
    assert h.files.Keys == {u} && {u} - {u} == {} && {} + {base} == {base} && {} + {u} == {u};
    assert At(h, events, 0) == h;
    StepOfRun(h, events, 0);
    StepOfRun(h, events, 1);
    StepOfRun(h, events, 2);
    hide Run;
    assert At(h, events, 1) == Host(h.files, {u}, Unlocked);
    assert At(h, events, 2) == Host(h.files, {}, Scanning(u, {u}, {}, {}));
  }

  /** If u can read its file under the lock, its own port counts as taken and it moves on. */
  lemma {:induction false} UnreadableOwnFileChangesThePort(u: UnitName)
    ensures var base := DeterministicPort(u);
            var h, events := Host(map[u := Port(base)], {}, Unlocked), Reallocation(u, true, {base, base + 1}, base + 1);
            Settled(h, u, base) && Returned(At(h, events, 4), events[4]) == Some((u, base + 1))
  {
    hide Run;
    var base := DeterministicPort(u);
    var h, events := Host(map[u := Port(base)], {}, Unlocked), Reallocation(u, true, {base, base + 1}, base + 1);
    ReallocationScans(u, true, {base, base + 1}, base + 1);
    StepOfRun(h, events, 3);
    assert Acceptable(base + 1, {base}, {base, base + 1});
  }

  /** If it cannot read it then either, it may well get its port back. */
  lemma {:induction false} UnreadableOwnFileMayKeepThePort(u: UnitName)
    ensures var base := DeterministicPort(u);
            var h, events := Host(map[u := Port(base)], {}, Unlocked), Reallocation(u, false, {base}, base);
            Settled(h, u, base) && Returned(At(h, events, 4), events[4]) == Some((u, base))
  {
    hide Run;
    var base := DeterministicPort(u);
    var h, events := Host(map[u := Port(base)], {}, Unlocked), Reallocation(u, false, {base}, base);
    ReallocationScans(u, false, {base}, base);
    StepOfRun(h, events, 3);
    assert Acceptable(base, {}, {base});
  }
}
