/**
 * The allocation code of one unit (src/manager_service.py) among other units' processes.
 *
 * The fields are the host: the port files, the units waiting for the lock and the lock with its
 * holder's progress. Other units may take any steps between those of the code; a ghost log makes
 * every execution a run of the port protocol.
 */
module PortAllocators {
  import opened Wrappers
  import opened Identifiers
  import opened Ports
  import opened PortSafety
  import opened PortStability

  /** The step is taken by a unit other than u. */
  predicate ByOther(lock: Lock, e: Event, u: UnitName) {
    match e
    case FastRead(w, _) => w != u
    case TakeLock(w) => w != u
    case Cleanup(w) => w != u
    case Crash(w) => w != u
    case _ => !lock.Unlocked? && lock.holder != u
  }

  /** Files have only gone; what is left is unchanged. */
  predicate OnlyRemoves(before: map<UnitName, Content>, after: map<UnitName, Content>) {
    forall v | v in after :: v in before && after[v] == before[v]
  }

  /** From entry `since` of the log on, the unit's port file could not be read. */
  ghost predicate Unreadable(events: seq<Event>, since: nat, v: UnitName) {
    exists i :: since <= i < |events| && events[i] == ReadFile(v, false)
  }

  lemma {:induction false} UnreadableStill(events: seq<Event>, more: seq<Event>, since: nat)
    requires events <= more
    ensures forall v :: Unreadable(events, since, v) ==> Unreadable(more, since, v)
  {
    forall v | Unreadable(events, since, v) ensures Unreadable(more, since, v) {
      var i :| since <= i < |events| && events[i] == ReadFile(v, false);
      assert more[i] == ReadFile(v, false);
    }
  }

  lemma {:induction false} UnreadableNow(events: seq<Event>, since: nat, v: UnitName)
    requires since <= |events|
    ensures Unreadable(events + [ReadFile(v, false)], since, v)
  {
    assert (events + [ReadFile(v, false)])[|events|] == ReadFile(v, false);
  }

  predicate Holds(lock: Lock, u: UnitName) {
    !lock.Unlocked? && lock.holder == u
  }

  /** Some unit has persisted this port. */
  ghost predicate Persisted(files: map<UnitName, Content>, port: int) {
    exists v :: v in files && files[v] == Port(port)
  }

  /** The lowest of the 101 ports from base on that no unit has persisted and that can be bound, else base. */
  ghost predicate IsLowestUnpersisted(base: int, files: map<UnitName, Content>, free: set<int>, port: int) {
    || (&& base <= port <= base + 100 && port in free && !Persisted(files, port)
        && forall p :: base <= p < port && p in free ==> Persisted(files, p))
    || (port == base && forall p :: base <= p <= base + 100 && p in free ==> Persisted(files, p))
  }

  lemma {:induction false} LowestIsBase(base: int, files: map<UnitName, Content>, free: set<int>, port: int)
    ensures IsLowestUnpersisted(base, files, free, port) && base in free && !Persisted(files, base) ==> port == base
  {
    hide Persisted;
  }

  lemma {:induction false} SelectedIsLowest(
    base: int, files: map<UnitName, Content>, used: set<int>, free: set<int>, port: int)
    requires (forall p :: p in used <==> Persisted(files, p)) && IsSelected(base, used, free, port)
    ensures IsLowestUnpersisted(base, files, free, port)
  {
    hide Persisted;
    forall p | base <= p < port && p in free && p <= base + 100 && !Exhausted(base, used, free)
      ensures Persisted(files, p)
    {
      assert !Acceptable(p, used, free);
    }
    forall p | base <= p <= base + 100 && p in free && Exhausted(base, used, free) ensures Persisted(files, p) {
      assert !Acceptable(p, used, free);
    }
  }

  class PortDirectory {
    var files: map<UnitName, Content>
    var waiting: set<UnitName>
    var lock: Lock
    ghost var events: seq<Event>
    /** Whether no call raises, every file can be read, and the other units keep still. */
    const faultFree: bool
    ghost const start: Host

    function Current(): Host reads this { Host(files, waiting, lock) }

    ghost predicate Valid() reads this {
      && Current() == Run(start, events)
      && Unique(start.files) && start.waiting == {} && start.lock.Unlocked?
    }

    constructor (files: map<UnitName, Content>, faultFree: bool)
      requires Unique(files)
      ensures Valid() && this.files == files && waiting == {} && lock.Unlocked? && events == []
      ensures this.faultFree == faultFree
    {
      this.files, waiting, lock, events, this.faultFree := files, {}, Unlocked, [], faultFree;
      start := Host(files, {}, Unlocked);
    }

    /** Logs event e, which led from host h to the present one. */
    ghost method Record(h: Host, e: Event)
      requires h == Run(start, events) && Current() == Next(h, e)
      requires Unique(start.files) && start.waiting == {} && start.lock.Unlocked?
      modifies `events
      ensures Valid() && events == old(events) + [e]
    {
      assert (events + [e])[..|events|] == events;
      events := events + [e];
    }

    /** Other units take any number of steps. */
    method Interfere(u: UnitName)
      requires Valid()
      modifies this
      ensures Valid() && old(events) <= events
      ensures u in waiting <==> old(u in waiting)
      ensures Holds(lock, u) ==> lock == old(lock)
      ensures old(Holds(lock, u)) ==> lock == old(lock) && OnlyRemoves(old(files), files)
      ensures faultFree ==> Current() == old(Current())
    {
      var rounds: int := *;
      if faultFree { return; }
      for i := 0 to Max(rounds, 0)
        invariant Valid() && old(events) <= events
        invariant u in waiting <==> old(u in waiting)
        invariant Holds(lock, u) ==> lock == old(lock)
        invariant old(Holds(lock, u)) ==> lock == old(lock) && OnlyRemoves(old(files), files)
      {
        var e: Event := *;
        if ByOther(lock, e, u) {
          ghost var before := Current();
          var after := Next(Host(files, waiting, lock), e);
          files, waiting, lock := after.files, after.waiting, after.lock;
          Record(before, e);
        }
      }
    }

    /** A call that may raise. */
    method Attempt() returns (ok: bool)
      ensures faultFree ==> ok
    {
      ok := *;
      ok := ok || faultFree;
    }

    /** An error under the lock: the lock is released on the way out. */
    method Abandon(u: UnitName)
      requires Valid() && Holds(lock, u) && u !in waiting
      modifies this`lock, this`events
      ensures Valid() && old(events) <= events && !Busy(Current(), u)
    {
      ghost var before := Current();
      lock := Unlocked;
      Record(before, Crash(u));
    }

    /**
     * Reads the port file of every unit; one that is missing, malformed or unreadable is skipped.
     * Every port that is persisted in the end was read, unless reading its file failed. Listing the
     * directory or looking for a file may raise.
     */
    method GetPersistedPorts(u: UnitName) returns (ok: bool, ports: set<int>)
      requires Valid() && lock.Scanning? && lock.holder == u && lock.used == {} && files.Keys <= lock.left
      requires u !in waiting
      modifies this
      ensures Valid() && old(events) <= events && u !in waiting
      ensures !ok ==> !Busy(Current(), u)
      ensures ok ==> lock.Scanning? && lock.holder == u && lock.left == {} && lock.used == ports
      ensures ok ==> forall v :: v in files && files[v].Port? ==>
                                   files[v].n in ports || Unreadable(events, |old(events)|, v)
      ensures faultFree ==> ok && files == old(files) && waiting == old(waiting)
      ensures faultFree && lock.left == {} ==> forall p :: p in ports <==> Persisted(files, p)
    {
      hide Run, Unique, Unreadable;
      ports := {};
      ok := Attempt();
      if !ok {
        Abandon(u);
        return;
      }
      var entries := lock.left;
      while entries != {}
        invariant Valid() && old(events) <= events
        invariant lock.Scanning? && lock.holder == u && lock.left == entries && lock.used == ports
        invariant u !in waiting
        invariant forall v :: v in files && v !in entries && files[v].Port? ==>
                                files[v].n in ports || Unreadable(events, |old(events)|, v)
        invariant faultFree ==> files == old(files) && waiting == old(waiting)
        invariant faultFree ==> forall v :: v in files && v !in entries && files[v].Port? ==> files[v].n in ports
        invariant faultFree ==> forall p :: p in ports ==> Persisted(files, p)
        decreases entries
      {
        var v :| v in entries;
        entries := entries - {v};
        ghost var logged := events;
        Interfere(u);
        ok := Attempt();
        if !ok {
          Abandon(u);
          return;
        }
        ghost var before := Current();
        var readable := Attempt();
        if v in files && files[v].Port? && readable {
          ports := ports + {files[v].n};
          lock := lock.(read := lock.read + {v});
        }
        lock := lock.(left := entries, used := ports);
        UnreadableNow(events, |old(events)|, v);
        Record(before, ReadFile(v, readable));
        UnreadableStill(logged, events, |old(events)|);
      }
      ok := true;
    }

    /** Waits for the lock; the process may be interrupted before it is granted. */
    method AcquireLock(u: UnitName) returns (ok: bool)
      requires Valid() && u in waiting && !Holds(lock, u)
      modifies this
      ensures Valid() && old(events) <= events && u !in waiting
      ensures ok ==> lock.Scanning? && lock.holder == u && lock.used == {} && lock.left == files.Keys
      ensures !ok ==> !Holds(lock, u)
      ensures faultFree && old(lock.Unlocked?) ==> ok && files == old(files) && waiting == old(waiting) - {u}
    {
      Interfere(u);
      ghost var before := Current();
      waiting := waiting - {u};
      ok := lock.Unlocked?;
      if ok {
        lock := Scanning(u, files.Keys, {}, {});
        Record(before, TakeLock(u));
      } else {
        Record(before, Crash(u));
      }
    }

    /** Chooses given what the port files say and which probes succeed; opening a socket may raise. */
    method Choose(u: UnitName, used: set<int>, free: set<int>) returns (ok: bool, port: int)
      requires Valid() && lock.Scanning? && lock.holder == u && lock.left == {} && lock.used == used
      requires u !in waiting
      modifies this
      ensures Valid() && old(events) <= events && u !in waiting
      ensures !ok ==> !Busy(Current(), u)
      ensures ok ==> lock == Selected(u, port) && IsSelected(DeterministicPort(u), used, free, port)
      ensures ok ==> events != [] && events[|events| - 1] == Select(free, port)
      ensures faultFree ==> ok && files == old(files) && waiting == old(waiting)
    {
      port := SelectHttpPort(DeterministicPort(u), used, free);
      Interfere(u);
      ok := Attempt();
      if !ok {
        Abandon(u);
        return;
      }
      ghost var before := Current();
      lock := Selected(u, port);
      Record(before, Select(free, port));
    }

    /** Writes the port file and releases the lock; a failed write may leave a malformed file. */
    method Write(u: UnitName, port: int) returns (ok: bool)
      requires Valid() && lock == Selected(u, port)
      modifies this
      ensures Valid() && old(events) <= events && lock.Unlocked? && waiting == old(waiting)
      ensures ok ==> files == old(files)[u := Port(port)]
      ensures ok ==> events != [] && Returned(Run(start, events[..|events| - 1]), events[|events| - 1]) == Some((u, port))
      ensures faultFree ==> ok
    {
      ghost var before := Current();
      var outcome: WriteOutcome := *;
      if faultFree { outcome := Written; }
      lock := Unlocked;
      match outcome {
        case Written => files := files[u := Port(port)];
        case Torn => files := files[u := Malformed];
        case NotWritten =>
      }
      Record(before, Persist(outcome));
      ok := outcome.Written?;
    }

    /** The part under the lock. */
    method Allocate(u: UnitName, free: set<int>) returns (ok: bool, port: int)
      requires Valid() && u in waiting && !Holds(lock, u)
      modifies this
      ensures Valid() && old(events) <= events && !Busy(Current(), u)
      ensures ok ==> u in files && files[u] == Port(port)
      ensures ok ==> events != [] && Returned(Run(start, events[..|events| - 1]), events[|events| - 1]) == Some((u, port))
      ensures faultFree && old(lock.Unlocked?) ==>
                && ok && lock.Unlocked? && files == old(files)[u := Port(port)]
                && IsLowestUnpersisted(DeterministicPort(u), old(files), free, port)
    {
      port := 0;
      ok := AcquireLock(u);
      if !ok { return; }
      var used;
      ok, used := GetPersistedPorts(u);
      if !ok { return; }
      ok, port := Choose(u, used, free);
      if !ok { return; }
      if faultFree { SelectedIsLowest(DeterministicPort(u), files, used, free, port); }
      Interfere(u);
      ok := Write(u, port);
    }

    /**
     * The persisted port if it can be read; otherwise a port chosen and persisted under the lock.
     * `free` are the ports whose probe succeeds when the scan comes to them. Wherever it raises, it
     * leaves no lock behind. Without faults it does not raise, and unit number n gets 55555 + n if
     * that can be bound and no unit has persisted it.
     */
    method EnsureHttpPort(u: UnitName, free: set<int>) returns (ok: bool, port: int)
      requires Valid() && !Busy(Current(), u)
      modifies this
      ensures Valid() && old(events) <= events && !Busy(Current(), u)
      ensures ok ==> u in files && files[u] == Port(port)
      ensures ok ==> events != [] && Returned(Run(start, events[..|events| - 1]), events[|events| - 1]) == Some((u, port))
      ensures faultFree && old(lock.Unlocked?) ==> ok && lock.Unlocked?
      ensures faultFree && old(lock.Unlocked? && HasPort(Current(), u)) ==> files == old(files) && files[u] == Port(port)
      ensures faultFree && old(lock.Unlocked? && !HasPort(Current(), u)) ==>
                && files == old(files)[u := Port(port)]
                && IsLowestUnpersisted(DeterministicPort(u), old(files), free, port)
                && forall n: nat :: u.index == Decimal(n) && 55555 + n in free && !old(Persisted(files, 55555 + n)) ==>
                                      port == 55555 + n
    {
      hide Unique, IsLowestUnpersisted, Persisted, DeterministicPort, Decimal;
      ghost var before := files;
      forall n: nat | u.index == Decimal(n) ensures DeterministicPort(u) == 55555 + n {
        BaseOfUnit(u.app, n, "");
      }
      Interfere(u);
      ghost var h := Current();
      var readable := Attempt();
      if u in files && files[u].Port? && readable {
        Record(h, FastRead(u, true));
        return true, files[u].n;
      }
      waiting := waiting + {u};
      Record(h, FastRead(u, readable));
      ok, port := Allocate(u, free);
      LowestIsBase(DeterministicPort(u), before, free, port);
    }

    /** Removes the unit's data directory, without the lock. */
    method Cleanup(u: UnitName)
      requires Valid() && !Busy(Current(), u)
      modifies this
      ensures Valid() && old(events) <= events
      ensures u !in files
      ensures faultFree ==> files == old(files) - {u}
    {
      Interfere(u);
      ghost var before := Current();
      files := files - {u};
      Record(before, Event.Cleanup(u));
    }
  }

  /**
   * Whatever calls were made, ports are unique on a host with at most a hundred other units, as
   * long as port files can be read and no foreign process binds ports of the span.
   */
  lemma {:induction false} DirectoryIsUnique(d: PortDirectory, units: set<UnitName>)
    requires d.Valid() && |units| <= 101 && d.start.files.Keys <= units
    requires forall i | 0 <= i < |d.events| :: IdleStep(d.start, d.events, units, i)
    ensures Unique(d.files)
  {
    HundredOthersNeverClash(d.start, d.events, units);
  }
}
