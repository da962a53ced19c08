/**
 * Per-unit HTTP ports (src/manager_service.py).
 *
 * Units are separate processes on one host. A unit first reads its own port file without the lock;
 * if that gives nothing it takes the lock, reads every unit's port file, scans for a port and
 * writes its file. Cleaning up a unit removes its file without the lock.
 */
module Ports {
  import opened Wrappers
  import opened Identifiers

  const BASE_PORT := 55555
  const PORT_SCAN_SPAN := 100

  // ---------------------------------------------------------------- choosing a port

  function Value(digits: string): nat {
    if digits == "" then 0
    else 10 * Value(digits[..|digits| - 1])
         + (if IsDigit(digits[|digits| - 1]) then (digits[|digits| - 1] - '0') as int else 0)
  }

  function DeterministicPort(u: UnitName): int {
    BASE_PORT + if AllDigits(u.index) then Value(u.index) else 0
  }

  /** A natural number as Juju prints it. */
  function Decimal(n: nat): string {
    (if n < 10 then "" else Decimal(n / 10)) + [('0' as int + n % 10) as char]
  }

  lemma {:induction false} DecimalIsRead(n: nat)
    ensures AllDigits(Decimal(n)) && Value(Decimal(n)) == n
  {
    var digits := Decimal(n);
    var last := digits[|digits| - 1];
    assert IsDigit(last) && (last - '0') as int == n % 10;
    if n < 10 {
      assert digits == [last] && digits[..0] == "";
    } else {
      DecimalIsRead(n / 10);
      assert digits[..|digits| - 1] == Decimal(n / 10);
    }
  }

  /** Unit number n starts its scan at 55555 + n, and one whose index is no number at 55555. */
  lemma {:induction false} BaseOfUnit(app: string, n: nat, other: string)
    ensures DeterministicPort(UnitName(app, Decimal(n))) == 55555 + n
    ensures !AllDigits(other) ==> DeterministicPort(UnitName(app, other)) == 55555
  {
    DecimalIsRead(n);
  }

  predicate Acceptable(port: int, used: set<int>, free: set<int>) {
    port !in used && port in free
  }

  /** The port is in the range that the scan covers. */
  predicate InSpan(base: int, port: int) {
    base <= port <= base + 100
  }

  /** Every port of the scan is persisted by a unit or cannot be bound. */
  predicate Exhausted(base: int, used: set<int>, free: set<int>) {
    forall port | base <= port <= base + 100 :: !Acceptable(port, used, free)
  }

  /** The outcome of the scan as a property of the port. */
  predicate IsSelected(base: int, used: set<int>, free: set<int>, port: int) {
    if Exhausted(base, used, free) then port == base
    else
      && InSpan(base, port) && Acceptable(port, used, free)
      && forall p | base <= p < port :: !Acceptable(p, used, free)
  }

  /**
   * Base first, then the next hundred ports: the result is the lowest that is neither persisted
   * nor unbindable, and the base port only when there is none. `free` are the ports whose probe
   * succeeds.
   */
  method SelectHttpPort(base: int, used: set<int>, free: set<int>) returns (port: int)
    ensures IsSelected(base, used, free, port)
  {
    if base !in used && base in free {
      assert Acceptable(base, used, free);
      return base;
    }
    for offset := 1 to PORT_SCAN_SPAN + 1
      invariant forall p | base <= p < base + offset :: !Acceptable(p, used, free)
    {
      var candidate := base + offset;
      if candidate in used { continue; }
      if candidate in free {
        assert Acceptable(candidate, used, free);
        return candidate;
      }
    }
    return base;
  }

  /** The n ports from base on. */
  function Span(base: int, n: nat): (r: set<int>)
    ensures |r| == n && forall p :: p in r <==> base <= p < base + n
  {
    if n == 0 then {} else Span(base, n - 1) + {base + n - 1}
  }

  /** By the pigeonhole principle a hundred used ports cannot exhaust the scan on an idle host. */
  lemma {:induction false} HundredPortsDoNotExhaust(base: int, used: set<int>, free: set<int>)
    requires |used| <= 100
    requires Span(base, 101) <= free + used
    ensures !Exhausted(base, used, free)
  {
    var span := Span(base, 101);
    if span <= used {
      SubsetIsSmaller(span, used);
      assert false;
    }
    var port :| port in span && port !in used;
    assert Acceptable(port, used, free);
  }

  // ---------------------------------------------------------------- the protocol

  /** What a port file holds; the unit's directory and hence its file is that of its name alone. */
  datatype Content = Port(n: int) | Malformed

  /** The lock, and how far its holder has got. `read` are the units whose port it has noted. */
  datatype Lock =
    | Unlocked
    | Scanning(holder: UnitName, left: set<UnitName>, used: set<int>, read: set<UnitName>)
    | Selected(holder: UnitName, port: int)

  /** Port files, units that have to allocate and wait for the lock, and the lock. */
  datatype Host = Host(files: map<UnitName, Content>, waiting: set<UnitName>, lock: Lock)

  datatype WriteOutcome = Written | Torn | NotWritten

  datatype Event =
    | FastRead(u: UnitName, readable: bool)
    | TakeLock(u: UnitName)
    | ReadFile(v: UnitName, readable: bool)
    | Select(free: set<int>, port: int)
    | Persist(outcome: WriteOutcome)
    | Cleanup(u: UnitName)
    | Crash(u: UnitName)

  predicate HasPort(h: Host, u: UnitName) {
    u in h.files && h.files[u].Port?
  }

  /** A call of this unit is in flight. */
  predicate Busy(h: Host, u: UnitName) {
    u in h.waiting || (!h.lock.Unlocked? && h.lock.holder == u)
  }

  function Next(h: Host, e: Event): Host {
    match e
    case FastRead(u, readable) =>
      if Busy(h, u) || (HasPort(h, u) && readable) then h else h.(waiting := h.waiting + {u})
    case TakeLock(u) =>
      if u in h.waiting && h.lock.Unlocked?
      then h.(waiting := h.waiting - {u}, lock := Scanning(u, h.files.Keys, {}, {})) else h
    case ReadFile(v, readable) =>
      if h.lock.Scanning? && v in h.lock.left then
        var lock := h.lock.(left := h.lock.left - {v});
        h.(lock := if HasPort(h, v) && readable
                   then lock.(used := lock.used + {h.files[v].n}, read := lock.read + {v}) else lock)
      else h
    case Select(free, port) =>
      if h.lock.Scanning? && h.lock.left == {}
         && IsSelected(DeterministicPort(h.lock.holder), h.lock.used, free, port)
      then h.(lock := Selected(h.lock.holder, port)) else h
    case Persist(outcome) =>
      if h.lock.Selected? then
        h.(lock := Unlocked,
           files := match outcome
             case Written => h.files[h.lock.holder := Port(h.lock.port)]
             case Torn => h.files[h.lock.holder := Malformed]
             case NotWritten => h.files)
      else h
    case Cleanup(u) => if Busy(h, u) then h else h.(files := h.files - {u})
    case Crash(u) =>
      h.(waiting := h.waiting - {u},
         lock := if !h.lock.Unlocked? && h.lock.holder == u then Unlocked else h.lock)
  }
}
