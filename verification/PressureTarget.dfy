/** The machine-count configuration rules and the clamp from planner pressure to a runner total. */
module PressureTarget {
  import opened Wrappers

  /** min_pressure and max_pressure of the reconciler; a max of 0 or less means no cap. */
  datatype Limits = Limits(minPressure: int, maxPressure: int)

  datatype ConfigError = BothOldAndNew | MaxBelowBase

  /** The machine-count rules of the charm configuration. */
  function FromCharm(baseMachines: int, maxTotal: int, virtualMachines: int): Result<Limits, ConfigError> {
    var useLegacy := baseMachines == 0 && maxTotal == 0;
    if !useLegacy && virtualMachines != 0 then
      Failure(BothOldAndNew)
    else
      var floor := if useLegacy then virtualMachines else baseMachines;
      var cap := if useLegacy then virtualMachines else maxTotal;
      if 0 < cap < floor then Failure(MaxBelowBase) else Success(Limits(floor, cap))
  }

  /** The application's own check on a flavour and image combination. */
  predicate CombinationAccepted(limits: Limits) {
    !(0 < limits.maxPressure < limits.minPressure)
  }

  function DesiredTotal(limits: Limits, pressure: int): int {
    var total := Max(Max(pressure, limits.minPressure), 0);
    if limits.maxPressure > 0 && total > limits.maxPressure then limits.maxPressure else total
  }

  /** What an interrupted stream substitutes for a reading. */
  function Fallback(limits: Limits, lastPressure: Option<int>): int {
    Max(if lastPressure.Some? then lastPressure.value else 0, limits.minPressure)
  }

  datatype StreamEvent = Reading(pressure: int) | Interrupted

  /** The pressure remembered after a stream of readings and interruptions. */
  function Remembered(limits: Limits, events: seq<StreamEvent>): Option<int> {
    if events == [] then None
    else
      match events[|events| - 1]
      case Reading(p) => Some(p)
      case Interrupted => Some(Fallback(limits, Remembered(limits, events[..|events| - 1])))
  }

  /** The last pressure the planner really sent, 0 before the first. */
  function LastReading(events: seq<StreamEvent>): int {
    if events == [] then 0
    else if events[|events| - 1].Reading? then events[|events| - 1].pressure
    else LastReading(events[..|events| - 1])
  }

  /**
   * The charm's rules accept nothing that the application would reject. They say which inputs pass,
   * and with which limits: the old option fixes the number of runners, the new ones give a range.
   */
  lemma {:induction false} CharmConfigsAreAccepted(baseMachines: int, maxTotal: int, virtualMachines: int)
    ensures var r := FromCharm(baseMachines, maxTotal, virtualMachines);
            && (r.Success? ==> CombinationAccepted(r.value))
            && (r.Success? <==>
                  || (baseMachines == 0 && maxTotal == 0)
                  || (virtualMachines == 0 && (maxTotal <= 0 || baseMachines <= maxTotal)))
            && (baseMachines == 0 && maxTotal == 0 ==> r == Success(Limits(virtualMachines, virtualMachines)))
            && (r.Success? && (baseMachines != 0 || maxTotal != 0) ==> r.value == Limits(baseMachines, maxTotal))
            && (r.Failure? ==> (r.error == BothOldAndNew <==> virtualMachines != 0))
  {
  }

  /** The floor is honoured for every pressure exactly by the accepted configurations. */
  lemma {:induction false} FloorHonouredIffAccepted(limits: Limits)
    ensures CombinationAccepted(limits) <==>
            forall p :: DesiredTotal(limits, p) >= Max(limits.minPressure, 0)
  {
    if !CombinationAccepted(limits) {
      assert DesiredTotal(limits, 0) < Max(limits.minPressure, 0);
    }
  }

  /** The desired total never exceeds a cap that is set, and never falls when pressure rises. */
  lemma {:induction false} TargetIsCappedAndMonotone(limits: Limits, p: int, q: int)
    requires p <= q
    ensures 0 <= DesiredTotal(limits, p) <= DesiredTotal(limits, q)
    ensures limits.maxPressure > 0 ==> DesiredTotal(limits, q) <= limits.maxPressure
    ensures limits.maxPressure <= 0 ==> DesiredTotal(limits, q) >= q
  {
  }

  /** The pressure if it lies between floor and cap, else the nearer of them; a cap below the floor wins. */
  predicate ClampsTo(minPressure: int, maxPressure: int, p: int, total: int) {
    || (total == p && 0 <= p && minPressure <= p && (p <= maxPressure || maxPressure <= 0))
    || (total == minPressure && p < minPressure && 0 <= minPressure && (minPressure <= maxPressure || maxPressure <= 0))
    || (total == 0 && p < 0 && minPressure < 0)
    || (total == maxPressure && maxPressure > 0 && (maxPressure < p || maxPressure < minPressure))
  }

  /** The desired total in numbers, for every configuration. */
  lemma {:induction false} TargetInNumbers(limits: Limits, p: int, total: int)
    ensures total == DesiredTotal(limits, p) <==> ClampsTo(limits.minPressure, limits.maxPressure, p, total)
  {
  }

  /**
   * However often the stream breaks, the target stays that of the last pressure received; the
   * pressure remembered is then the larger of that and the floor.
   */
  lemma {:induction false} InterruptionsKeepTheTarget(limits: Limits, events: seq<StreamEvent>)
    requires events != []
    ensures Remembered(limits, events).Some?
    ensures Remembered(limits, events).value ==
            if events[|events| - 1].Reading? then events[|events| - 1].pressure
            else Max(LastReading(events), limits.minPressure)
    ensures DesiredTotal(limits, Remembered(limits, events).value) == DesiredTotal(limits, LastReading(events))
  {
    var before := events[..|events| - 1];
    if before == [] {
    } else if events[|events| - 1].Interrupted? {
      InterruptionsKeepTheTarget(limits, before);
    }
  }
}
