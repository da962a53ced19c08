/**
 * Port safety over every interleaving of units: no two units hold the same persisted port, and a
 * unit's port stays the same until its own cleanup.
 */
module PortSafety {
  import opened Wrappers
  import opened Identifiers
  import opened Ports

  function Run(h: Host, events: seq<Event>): Host {
    if events == [] then h else Next(Run(h, events[..|events| - 1]), events[|events| - 1])
  }

  function At(h: Host, events: seq<Event>, i: nat): Host
    requires i <= |events|
  {
    Run(h, events[..i])
  }

  lemma {:induction false} StepOfRun(h: Host, events: seq<Event>, i: nat)
    requires i < |events|
    ensures At(h, events, i + 1) == Next(At(h, events, i), events[i])
    ensures At(h, events, |events|) == Run(h, events)
  {
    assert events[..i + 1][..i] == events[..i];
    assert events[..|events|] == events;
  }

  // ---------------------------------------------------------------- uniqueness

  predicate Unique(files: map<UnitName, Content>) {
    forall a, b | a in files && b in files && a != b && files[a].Port? :: files[a] != files[b]
  }

  /** Another unit than u holds this port. */
  predicate TakenByOther(h: Host, u: UnitName, port: int) {
    exists v | v in h.files :: v != u && h.files[v] == Port(port)
  }

  /** The step chooses a port for the lock holder. */
  predicate Selects(h: Host, e: Event) {
    && e.Select? && h.lock.Scanning? && h.lock.left == {}
    && IsSelected(DeterministicPort(h.lock.holder), h.lock.used, e.free, e.port)
  }

  /** The holder falls back to its base port although another unit has it. */
  predicate Clash(h: Host, e: Event) {
    && Selects(h, e)
    && Exhausted(DeterministicPort(h.lock.holder), h.lock.used, e.free)
    && TakenByOther(h, h.lock.holder, DeterministicPort(h.lock.holder))
  }

  /** The port is usable for all the holder knows, and no lower one of the span is. */
  predicate LooksLowest(h: Host, free: set<int>, port: int)
    requires h.lock.Scanning?
  {
    var base := DeterministicPort(h.lock.holder);
    && InSpan(base, port) && Acceptable(port, h.lock.used, free)
    && forall p | base <= p < port :: !Acceptable(p, h.lock.used, free)
  }

  /** The holder does not know of a port of another unit that its scan comes to first. */
  predicate Overlooks(h: Host, e: Event) {
    && Selects(h, e)
    && exists v | v in h.files :: v != h.lock.holder && h.files[v].Port? && LooksLowest(h, e.free, h.files[v].n)
  }

  lemma {:induction false} LowestIsUnique(h: Host, free: set<int>, p: int, q: int)
    requires h.lock.Scanning? && LooksLowest(h, free, p)
    requires IsSelected(DeterministicPort(h.lock.holder), h.lock.used, free, q)
    ensures p == q
  {
  }

  /** The selected port is another unit's in exactly two cases, whatever the holder has read. */
  lemma {:induction false} SelectionClashesIff(h: Host, e: Event)
    requires Selects(h, e)
    ensures TakenByOther(h, h.lock.holder, e.port) <==> Clash(h, e) || Overlooks(h, e)
  {
    var base := DeterministicPort(h.lock.holder);
    if v :| v in h.files && v != h.lock.holder && h.files[v] == Port(e.port) {
      if !Exhausted(base, h.lock.used, e.free) {
        assert LooksLowest(h, e.free, h.files[v].n);
      }
    }
    if Overlooks(h, e) {
      var v :| v in h.files && v != h.lock.holder && h.files[v].Port? && LooksLowest(h, e.free, h.files[v].n);
      LowestIsUnique(h, e.free, h.files[v].n, e.port);
      assert h.files[v] == Port(e.port);
    }
  }

  /** Allocating keeps the ports unique in exactly the other cases. */
  lemma {:induction false} AllocationIsUniqueIff(h: Host, e: Event)
    requires Selects(h, e) && Unique(h.files)
    ensures var done := Next(Next(h, e), Persist(Written));
            && done.files == h.files[h.lock.holder := Port(e.port)]
            && (Unique(done.files) <==> !Clash(h, e) && !Overlooks(h, e))
  {
    SelectionClashesIff(h, e);
    var holder := h.lock.holder;
    var files := h.files[holder := Port(e.port)];
    if v :| v in h.files && v != holder && h.files[v] == Port(e.port) {
      assert files[v] == files[holder];
    }
  }

  // ---------------------------------------------------------------- uniqueness over runs

  /** The ports are unique, and stay so if the lock holder's write goes through. */
  predicate Secure(h: Host) {
    Unique(h.files) && (h.lock.Selected? ==> !TakenByOther(h, h.lock.holder, h.lock.port))
  }

  predicate Collides(h: Host, e: Event) {
    Clash(h, e) || Overlooks(h, e)
  }

  lemma {:induction false} PersistKeepsUnique(h: Host)
    requires Secure(h) && h.lock.Selected?
    ensures Unique(h.files[h.lock.holder := Port(h.lock.port)]) && Unique(h.files[h.lock.holder := Malformed])
  {
    var files := h.files[h.lock.holder := Port(h.lock.port)];
    forall a, b | a in files && b in files && a != b && files[a].Port? ensures files[a] != files[b] {
      assert a != h.lock.holder ==> files[a] == h.files[a];
      assert b != h.lock.holder ==> files[b] == h.files[b];
    }
  }

  lemma {:induction false} StepKeepsSecure(h: Host, e: Event)
    requires Secure(h)
    ensures Secure(Next(h, e)) <==> !Collides(h, e)
  {
    if Selects(h, e) {
      SelectionClashesIff(h, e);
    } else if e.Persist? && h.lock.Selected? {
      PersistKeepsUnique(h);
    }
  }

  /** What is secure holds no port twice, and will not if the write in progress goes through. */
  lemma {:induction false} SecureIff(h: Host)
    ensures Secure(h) <==> Unique(h.files) && Unique(Next(h, Persist(Written)).files)
  {
    if h.lock.Selected? {
      if Secure(h) { PersistKeepsUnique(h); }
      var files := h.files[h.lock.holder := Port(h.lock.port)];
      if v :| v in h.files && v != h.lock.holder && h.files[v] == Port(h.lock.port) {
        assert files[v] == files[h.lock.holder];
      }
    }
  }

  predicate CollidesAt(h: Host, events: seq<Event>, i: nat)
    requires i < |events|
  {
    Collides(At(h, events, i), events[i])
  }

  lemma {:induction false} StaysSecure(h: Host, events: seq<Event>, i: nat)
    requires Secure(h) && i <= |events| && forall k | 0 <= k < i :: !CollidesAt(h, events, k)
    ensures Secure(At(h, events, i))
  {
    if i == 0 {
    } else {
      StaysSecure(h, events, i - 1);
      StepOfRun(h, events, i - 1);
      assert !CollidesAt(h, events, i - 1);
      StepKeepsSecure(At(h, events, i - 1), events[i - 1]);
    }
  }

  /**
   * Port safety, with its exact condition. In a run from a secure start, no two units hold the same
   * port at any point, and none would if the write in progress went through, exactly if no
   * selection falls back to a taken base port or overlooks another unit's port.
   */
  lemma {:induction false} PortsAreUniqueIff(h: Host, events: seq<Event>)
    requires Secure(h)
    ensures (forall i | 0 <= i <= |events| :: Secure(At(h, events, i)))
            <==> forall i | 0 <= i < |events| :: !CollidesAt(h, events, i)
  {
    if forall i | 0 <= i < |events| :: !CollidesAt(h, events, i) {
      forall i | 0 <= i <= |events| ensures Secure(At(h, events, i)) {
        StaysSecure(h, events, i);
      }
    } else {
      var i :| 0 <= i < |events| && CollidesAt(h, events, i);
      StepOfRun(h, events, i);
      if Secure(At(h, events, i)) { StepKeepsSecure(At(h, events, i), events[i]); }
      assert !Secure(At(h, events, i)) || !Secure(At(h, events, i + 1));
    }
  }

  // ---------------------------------------------------------------- readable port files

  /** The holder has noted every other unit's port but for those it has yet to read. */
  predicate Informed(h: Host) {
    h.lock.Scanning? ==>
      forall v | v in h.files && v != h.lock.holder && v !in h.lock.left && h.files[v].Port? ::
        h.files[v].n in h.lock.used
  }

  /** The holder fails to read a port file that is there. */
  predicate Misread(h: Host, e: Event) {
    e.ReadFile? && !e.readable && h.lock.Scanning? && e.v in h.lock.left && HasPort(h, e.v)
  }

  /** A holder that could read every port file overlooks none. */
  lemma {:induction false} InformedOverlooksNone(h: Host, e: Event)
    requires Informed(h)
    ensures !Overlooks(h, e)
    ensures !Misread(h, e) ==> Informed(Next(h, e))
  {
  }

  /** Step i of the run is neither a misread nor a fallback to a taken base port. */
  predicate SoundStep(h: Host, events: seq<Event>, i: nat)
    requires i < |events|
  {
    !Misread(At(h, events, i), events[i]) && !Clash(At(h, events, i), events[i])
  }

  /**
   * So with readable port files no two units ever hold the same port, unless an exhausted scan
   * falls back to a base port that is taken.
   */
  lemma {:induction false} ReadablePortsAreUnique(h: Host, events: seq<Event>)
    requires Secure(h) && Informed(h)
    requires forall i | 0 <= i < |events| :: SoundStep(h, events, i)
    ensures Secure(Run(h, events)) && Informed(Run(h, events))
  {
    if events == [] {
    } else {
      var before := events[..|events| - 1];
      forall i | 0 <= i < |before| ensures SoundStep(h, before, i) {
        assert before[..i] == events[..i];
        assert SoundStep(h, events, i);
      }
      ReadablePortsAreUnique(h, before);
      assert SoundStep(h, events, |before|);
      InformedOverlooksNone(Run(h, before), events[|before|]);
      StepKeepsSecure(Run(h, before), events[|before|]);
    }
  }

  // ---------------------------------------------------------------- both cases happen

  /** On an empty host a unit gets its base port if it can be bound. */
  lemma {:induction false} FirstAllocation(u: UnitName)
    ensures var base := DeterministicPort(u);
            Run(Host(map[], {}, Unlocked), [FastRead(u, true), TakeLock(u), Select({base}, base), Persist(Written)])
            == Host(map[u := Port(base)], {}, Unlocked)
  {
    var base := DeterministicPort(u);
    var h, events := Host(map[], {}, Unlocked), [FastRead(u, true), TakeLock(u), Select({base}, base), Persist(Written)];
    assert Acceptable(base, {}, {base});
    assert h.files.Keys == {} && {u} - {u} == {};
    assert At(h, events, 0) == h;
    StepOfRun(h, events, 0);
    assert At(h, events, 1) == Host(h.files, {u}, Unlocked);
    StepOfRun(h, events, 1);
    StepOfRun(h, events, 2);
    assert At(h, events, 3) == Host(h.files, {}, Selected(u, base));
    StepOfRun(h, events, 3);
  }

  /** The run in which w allocates after u has, reading u's file with this outcome. */
  function SecondAllocation(u: UnitName, w: UnitName, readable: bool, free: set<int>): seq<Event> {
    [FastRead(w, true), TakeLock(w), ReadFile(u, readable), Select(free, DeterministicPort(w)), Persist(Written)]
  }

  /** What w knows when it comes to select. */
  lemma {:induction false} SecondUnitScans(u: UnitName, w: UnitName, readable: bool, free: set<int>)
    requires u != w
    ensures var base := DeterministicPort(u);
            var h, events := Host(map[u := Port(base)], {}, Unlocked), SecondAllocation(u, w, readable, free);
            At(h, events, 3)
            == Host(h.files, {}, if readable then Scanning(w, {}, {base}, {u}) else Scanning(w, {}, {}, {}))
  {
    var base := DeterministicPort(u);
    var h, events := Host(map[u := Port(base)], {}, Unlocked), SecondAllocation(u, w, readable, free);
    assert h.files.Keys == {u} && {w} - {w} == {} && {u} - {u} == {};
    assert {} + {base} == {base} && {} + {u} == {u};
    assert At(h, events, 0) == h;
    StepOfRun(h, events, 0);
    StepOfRun(h, events, 1);
    StepOfRun(h, events, 2);
    hide Run;
    assert At(h, events, 1) == Host(h.files, {w}, Unlocked);
    assert At(h, events, 2) == Host(h.files, {}, Scanning(w, {u}, {}, {}));
  }

  /** If w then selects its base port and u has that port, they share it. */
  lemma {:induction false} SecondAllocationClashes(u: UnitName, w: UnitName, readable: bool, free: set<int>)
    requires u != w && DeterministicPort(u) == DeterministicPort(w)
    requires var base := DeterministicPort(u);
             IsSelected(base, if readable then {base} else {}, free, base)
    ensures var h := Host(map[u := Port(DeterministicPort(u))], {}, Unlocked);
            var events := SecondAllocation(u, w, readable, free);
            Secure(h) && Informed(h) && !Unique(Run(h, events).files)
  {
    var base := DeterministicPort(u);
    var h, events := Host(map[u := Port(base)], {}, Unlocked), SecondAllocation(u, w, readable, free);
    hide Run, IsSelected;
    SecondUnitScans(u, w, readable, free);
    StepOfRun(h, events, 3);
    assert At(h, events, 4) == Host(h.files, {}, Selected(w, base));
    StepOfRun(h, events, 4);
    var files := At(h, events, 5).files;
    assert files == h.files[w := Port(base)] && files[u] == files[w];
  }

  /**
   * One unreadable file is enough: w overlooks the port of u, which is its own base port, with all
   * others free or not.
   */
  lemma {:induction false} UnreadableFileBreaksUniqueness(u: UnitName, w: UnitName)
    requires u != w && DeterministicPort(u) == DeterministicPort(w)
    ensures var base := DeterministicPort(u);
            var h, events := Host(map[u := Port(base)], {}, Unlocked), SecondAllocation(u, w, false, {base});
            && Secure(h) && Informed(h) && !Unique(Run(h, events).files)
            && Overlooks(At(h, events, 3), events[3]) && !Clash(At(h, events, 3), events[3])
  {
    var base := DeterministicPort(u);
    assert Acceptable(base, {}, {base});
    SecondUnitScans(u, w, false, {base});
    SecondAllocationClashes(u, w, false, {base});
    var h, events := Host(map[u := Port(base)], {}, Unlocked), SecondAllocation(u, w, false, {base});
    hide Run, Next;
    assert LooksLowest(At(h, events, 3), {base}, h.files[u].n);
  }

  lemma {:induction false} NothingFits(base: int, free: set<int>)
    requires Span(base, 101) !! free
    ensures Exhausted(base, {base}, free) && IsSelected(base, {base}, free, base)
  {
    forall p | base <= p <= base + 100 ensures !Acceptable(p, {base}, free) {
      assert p in Span(base, 101);
    }
  }

  lemma {:induction false} FallbackClashes(u: UnitName, w: UnitName, base: int, free: set<int>)
    requires u != w && base == DeterministicPort(w)
    requires Exhausted(base, {base}, free) && IsSelected(base, {base}, free, base)
    ensures var t := Host(map[u := Port(base)], {}, Scanning(w, {}, {base}, {u}));
            Clash(t, Select(free, base)) && !Overlooks(t, Select(free, base))
  {
    var t := Host(map[u := Port(base)], {}, Scanning(w, {}, {base}, {u}));
    assert t.files[u] == Port(base) && Informed(t);
    InformedOverlooksNone(t, Select(free, base));
  }

  /**
   * So is a host on which no port of the span can be bound: w reads the port of u, finds all 101
   * ports taken and falls back to it.
   */
  lemma {:induction false} ExhaustedScanBreaksUniqueness(u: UnitName, w: UnitName, free: set<int>)
    requires u != w && DeterministicPort(u) == DeterministicPort(w)
    requires Span(DeterministicPort(u), 101) !! free
    ensures var base := DeterministicPort(u);
            var h, events := Host(map[u := Port(base)], {}, Unlocked), SecondAllocation(u, w, true, free);
            && Secure(h) && Informed(h) && !Unique(Run(h, events).files)
            && Clash(At(h, events, 3), events[3]) && !Overlooks(At(h, events, 3), events[3])
  {
    hide Run, Next, Clash, Overlooks, Exhausted, IsSelected;
    var base := DeterministicPort(u);
    NothingFits(base, free);
    FallbackClashes(u, w, base, free);
    SecondUnitScans(u, w, true, free);
    SecondAllocationClashes(u, w, true, free);
  }

  // ---------------------------------------------------------------- room for a hundred others

  /** The unit that does the step, if the step names one. */
  predicate By(e: Event, units: set<UnitName>) {
    match e
    case FastRead(u, _) => u in units
    case TakeLock(u) => u in units
    case Cleanup(u) => u in units
    case Crash(u) => u in units
    case _ => true
  }

  /** Only persisted ports of the span may be bound, and the unit's own port file can be read. */
  predicate IdleHost(h: Host, e: Event) {
    && (e.Select? && h.lock.Scanning? ==>
          Span(DeterministicPort(h.lock.holder), 101) <= e.free + h.lock.used)
    && (e.FastRead? && HasPort(h, e.u) ==> e.readable)
  }

  predicate Noted(h: Host) {
    h.lock.Scanning? ==> h.lock.read !! h.lock.left && |h.lock.used| <= |h.lock.read|
  }

  /** Only these units are involved, and the holder has noted at most one port for each other one. */
  predicate Roomy(h: Host, units: set<UnitName>) {
    && h.files.Keys <= units && h.waiting <= units
    && (forall u | u in h.waiting :: !HasPort(h, u))
    && (!h.lock.Unlocked? ==> h.lock.holder in units && h.lock.holder !in h.waiting && !HasPort(h, h.lock.holder))
    && (h.lock.Scanning? ==> h.lock.left <= units && h.lock.read <= units && h.lock.holder !in h.lock.read)
    && Noted(h)
  }

  lemma {:induction false} NotedOneMore(used: set<int>, n: int, read: set<UnitName>, v: UnitName)
    requires |used| <= |read| && v !in read
    ensures |used + {n}| <= |read + {v}|
  {
  }

  lemma {:induction false} StepKeepsNoted(h: Host, e: Event)
    requires Noted(h)
    ensures Noted(Next(h, e))
  {
    if e.ReadFile? && h.lock.Scanning? && e.v in h.lock.left && HasPort(h, e.v) && e.readable {
      NotedOneMore(h.lock.used, h.files[e.v].n, h.lock.read, e.v);
    }
  }

  lemma {:induction false} StepKeepsRoomy(h: Host, e: Event, units: set<UnitName>)
    requires Roomy(h, units) && By(e, units) && IdleHost(h, e)
    ensures Roomy(Next(h, e), units)
  {
    hide Noted;
    StepKeepsNoted(h, e);
  }

  lemma {:induction false} RoomyDoesNotClash(h: Host, e: Event, units: set<UnitName>)
    requires Roomy(h, units) && |units| <= 101 && IdleHost(h, e)
    ensures !Clash(h, e)
  {
    if e.Select? && h.lock.Scanning? {
      assert h.lock.read <= units - {h.lock.holder};
      SubsetIsSmaller(h.lock.read, units - {h.lock.holder});
      HundredPortsDoNotExhaust(DeterministicPort(h.lock.holder), h.lock.used, e.free);
    }
  }

  predicate IdleStep(h: Host, events: seq<Event>, units: set<UnitName>, i: nat)
    requires i < |events|
  {
    var t := At(h, events, i);
    By(events[i], units) && IdleHost(t, events[i]) && !Misread(t, events[i])
  }

  /** With at most a hundred other units on an otherwise idle host no two units ever clash. */
  lemma {:induction false} HundredOthersNeverClash(h: Host, events: seq<Event>, units: set<UnitName>)
    requires |units| <= 101 && Roomy(h, units) && Secure(h) && Informed(h)
    requires forall i | 0 <= i < |events| :: IdleStep(h, events, units, i)
    ensures Unique(Run(h, events).files)
    ensures Secure(Run(h, events)) && Informed(Run(h, events)) && Roomy(Run(h, events), units)
  {
    if events == [] {
    } else {
      var before := events[..|events| - 1];
      forall i | 0 <= i < |before| ensures IdleStep(h, before, units, i) {
        assert before[..i] == events[..i];
        assert IdleStep(h, events, units, i);
      }
      HundredOthersNeverClash(h, before, units);
      assert IdleStep(h, events, units, |before|);
      var t, e := Run(h, before), events[|before|];
      RoomyDoesNotClash(t, e, units);
      StepKeepsRoomy(t, e, units);
      InformedOverlooksNone(t, e);
      StepKeepsSecure(t, e);
    }
  }
}
