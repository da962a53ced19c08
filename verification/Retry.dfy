/** The retry decorator (utilities.py): bounded calls with a growing, capped delay. */
module Retry {
  import opened Wrappers

  /** What one call of the decorated function does. */
  datatype Attempt<+V, +E> = Returns(value: V) | RaisesRetried(error: E) | RaisesOther(error: E)

  /** How the decorated call ends; sleeping for a negative time raises. */
  datatype Ending<+V, +E> = Value(value: V) | Reraised(error: E) | SleepRejected | Unreachable

  function Power(b: real, k: nat): real {
    if k == 0 then 1.0 else b * Power(b, k - 1)
  }

  function Times(x: real, y: real): real { x * y }

  function MinReal(a: real, b: real): real { if a < b then a else b }

  /** One update of the delay after a sleep. */
  function NextDelay(delay: real, backoff: real, maxDelay: Option<real>): real {
    var grown := Times(delay, backoff);
    if maxDelay.Some? then MinReal(grown, maxDelay.value) else grown
  }

  /** The delay slept after failure number k, as the loop computes it. */
  function DelayAt(delay: real, backoff: real, maxDelay: Option<real>, k: nat): real {
    if k == 0 then delay else NextDelay(DelayAt(delay, backoff, maxDelay, k - 1), backoff, maxDelay)
  }

  /** The inputs for which no sleep is ever negative. */
  predicate Sleepable(delay: real, backoff: real, maxDelay: Option<real>) {
    && delay >= 0.0
    && (maxDelay.Some? ==> maxDelay.value >= 0.0)
    && (backoff >= 0.0 || delay == 0.0)
  }

  lemma {:induction false} TimesKeepsSign(x: real, y: real)
    ensures x >= 0.0 && y >= 0.0 ==> Times(x, y) >= 0.0
    ensures x > 0.0 && y < 0.0 ==> Times(x, y) < 0.0
    ensures Times(0.0, y) == 0.0
  {}

  lemma {:induction false} SleepableKeeps(delay: real, backoff: real, maxDelay: Option<real>, k: nat)
    requires Sleepable(delay, backoff, maxDelay)
    ensures DelayAt(delay, backoff, maxDelay, k) >= 0.0
    ensures delay == 0.0 ==> DelayAt(delay, backoff, maxDelay, k) == 0.0
  {
    if k == 0 {
    } else {
      SleepableKeeps(delay, backoff, maxDelay, k - 1);
      TimesKeepsSign(DelayAt(delay, backoff, maxDelay, k - 1), backoff);
    }
  }

  /** Sleeping is rejected, at the first or second failure, for exactly the other inputs. */
  lemma {:induction false} SleepableIff(delay: real, backoff: real, maxDelay: Option<real>)
    ensures Sleepable(delay, backoff, maxDelay) <==> forall k: nat :: DelayAt(delay, backoff, maxDelay, k) >= 0.0
    ensures Sleepable(delay, backoff, maxDelay) <==>
            DelayAt(delay, backoff, maxDelay, 0) >= 0.0 && DelayAt(delay, backoff, maxDelay, 1) >= 0.0
  {
    TimesKeepsSign(delay, backoff);
    assert DelayAt(delay, backoff, maxDelay, 1) == NextDelay(delay, backoff, maxDelay);
    if Sleepable(delay, backoff, maxDelay) {
      forall k: nat ensures DelayAt(delay, backoff, maxDelay, k) >= 0.0 {
        SleepableKeeps(delay, backoff, maxDelay, k);
      }
    } else {
      var k: nat := if delay < 0.0 then 0 else 1;
      assert DelayAt(delay, backoff, maxDelay, k) < 0.0;
    }
  }

  /** Every delay is within the maximum exactly if the first one is: only that one is not capped. */
  lemma {:induction false} DelaysAreCappedIff(delay: real, backoff: real, cap: real)
    ensures (forall k: nat :: DelayAt(delay, backoff, Some(cap), k) <= cap) <==> delay <= cap
  {
    assert DelayAt(delay, backoff, Some(cap), 0) == delay;
  }

  /** delay * backoff^k. */
  function Uncapped(delay: real, backoff: real, k: nat): real {
    if k == 0 then delay else Times(Uncapped(delay, backoff, k - 1), backoff)
  }

  lemma {:induction false} Regroup(x: real, b: real, y: real)
    ensures x * (b * y) == Times(x * y, b)
  {
  }

  lemma {:induction false} UncappedIsPower(delay: real, backoff: real, k: nat)
    ensures Uncapped(delay, backoff, k) == delay * Power(backoff, k)
  {
    if k == 0 {
    } else {
      UncappedIsPower(delay, backoff, k - 1);
      Regroup(delay, backoff, Power(backoff, k - 1));
    }
  }

  /** What the maximum has become by failure number k: it shrinks along with a backoff below 1. */
  function Cap(cap: real, backoff: real, k: nat): real {
    if k == 0 || backoff >= 1.0 then cap else cap * Power(backoff, k - 1)
  }

  lemma {:induction false} TimesIsMonotone(x: real, y: real, b: real)
    requires b >= 0.0 && x <= y
    ensures Times(x, b) <= Times(y, b)
  {
    TimesKeepsSign(y - x, b);
    assert Times(y, b) - Times(x, b) == Times(y - x, b);
  }

  lemma {:induction false} PowerShrinks(backoff: real, k: nat)
    requires 0.0 <= backoff < 1.0
    ensures 0.0 <= Power(backoff, k) <= 1.0
  {
    if k == 0 {
    } else {
      PowerShrinks(backoff, k - 1);
      Regroup(1.0, backoff, Power(backoff, k - 1));
      TimesKeepsSign(Power(backoff, k - 1), backoff);
      TimesIsMonotone(Power(backoff, k - 1), 1.0, backoff);
    }
  }

  /** Growing commutes with capping. */
  lemma {:induction false} CapThenGrow(x: real, cap: real, b: real)
    requires b >= 0.0
    ensures Times(MinReal(x, cap), b) == MinReal(Times(x, b), Times(cap, b))
  {
    if x <= cap { TimesIsMonotone(x, cap, b); } else { TimesIsMonotone(cap, x, b); }
  }

  /** The cap after one more growth, capped again. */
  lemma {:induction false} NextCap(cap: real, b: real, k: nat)
    requires b >= 0.0 && cap >= 0.0 && k > 0
    ensures MinReal(Times(Cap(cap, b, k), b), cap) == Cap(cap, b, k + 1)
  {
    if b >= 1.0 {
      TimesIsMonotone(1.0, b, cap);
    } else {
      PowerShrinks(b, k);
      Regroup(cap, b, Power(b, k - 1));
      TimesIsMonotone(Power(b, k), 1.0, cap);
    }
  }

  lemma {:induction false} DelayIsCapped(delay: real, backoff: real, maxDelay: Option<real>, k: nat)
    requires Sleepable(delay, backoff, maxDelay) && backoff >= 0.0
    ensures DelayAt(delay, backoff, maxDelay, k) ==
            if k == 0 || maxDelay.None? then Uncapped(delay, backoff, k)
            else MinReal(Uncapped(delay, backoff, k), Cap(maxDelay.value, backoff, k))
  {
    if k == 0 {
    } else {
      DelayIsCapped(delay, backoff, maxDelay, k - 1);
      if maxDelay.Some? && k > 1 {
        CapThenGrow(Uncapped(delay, backoff, k - 1), Cap(maxDelay.value, backoff, k - 1), backoff);
        NextCap(maxDelay.value, backoff, k - 1);
      }
    }
  }

  /**
   * The k-th sleep in closed form, for every input that can be slept for. The first one is not
   * capped; a later one is the uncapped delay or what is left of the maximum, if that is less.
   */
  lemma {:induction false} DelayClosedForm(delay: real, backoff: real, maxDelay: Option<real>, k: nat)
    requires Sleepable(delay, backoff, maxDelay)
    ensures DelayAt(delay, backoff, maxDelay, k) ==
            if k == 0 || maxDelay.None? || delay == 0.0 then delay * Power(backoff, k)
            else MinReal(delay * Power(backoff, k), Cap(maxDelay.value, backoff, k))
    ensures backoff >= 1.0 && k > 0 && maxDelay.Some? ==>
              DelayAt(delay, backoff, maxDelay, k) == MinReal(delay * Power(backoff, k), maxDelay.value)
  {
    SleepableKeeps(delay, backoff, maxDelay, k);
    UncappedIsPower(delay, backoff, k);
    if delay != 0.0 {
      DelayIsCapped(delay, backoff, maxDelay, k);
    }
  }

  /**
   * The decorated call. `func(i)` is what the i-th call of the function does. With at least one
   * try, the first final attempt decides; else the last error is raised again, unless a negative
   * sleep ends the call before. The trailing RuntimeError is raised exactly when `tries` is not
   * positive. Sleeps are within the maximum exactly if there are none or the first delay is.
   */
  method CallWithRetry<V, E>(
    tries: int, delay: real, maxDelay: Option<real>, backoff: real, func: nat -> Attempt<V, E>)
    returns (ending: Ending<V, E>, calls: nat, sleeps: seq<real>)
    ensures ending.Unreachable? <==> tries <= 0
    ensures calls <= Max(tries, 0)
    ensures forall i :: 0 <= i < calls - 1 ==> func(i).RaisesRetried?
    ensures tries > 0 ==> calls > 0 &&
                          (match func(calls - 1)
                           case Returns(v) => ending == Value(v)
                           case RaisesOther(e) => ending == Reraised(e)
                           case RaisesRetried(e) =>
                             if calls == tries then ending == Reraised(e)
                             else ending.SleepRejected? && DelayAt(delay, backoff, maxDelay, calls - 1) < 0.0)
    ensures |sleeps| == Max(calls - 1, 0)
    ensures forall k :: 0 <= k < |sleeps| ==> sleeps[k] == DelayAt(delay, backoff, maxDelay, k) && sleeps[k] >= 0.0
    ensures maxDelay.Some? ==>
              ((forall k :: 0 <= k < |sleeps| ==> sleeps[k] <= maxDelay.value)
               <==> sleeps == [] || delay <= maxDelay.value)
  {
    var remaining, current := tries, delay;
    calls, sleeps := 0, [];
    if maxDelay.Some? { DelaysAreCappedIff(delay, backoff, maxDelay.value); }
    while calls < tries
      invariant calls <= Max(tries, 0)
      invariant remaining == tries - calls
      invariant tries > 0 ==> remaining > 0
      invariant forall i :: 0 <= i < calls ==> func(i).RaisesRetried?
      invariant |sleeps| == calls
      invariant current == DelayAt(delay, backoff, maxDelay, calls)
      invariant forall k :: 0 <= k < calls ==> sleeps[k] == DelayAt(delay, backoff, maxDelay, k) && sleeps[k] >= 0.0
    {
      var attempt := func(calls);
      calls := calls + 1;
      match attempt {
        case Returns(v) => return Value(v), calls, sleeps;
        case RaisesOther(e) => return Reraised(e), calls, sleeps;
        case RaisesRetried(e) =>
          remaining := remaining - 1;
          if remaining == 0 {
            return Reraised(e), calls, sleeps;
          }
          if current < 0.0 {
            return SleepRejected, calls, sleeps;
          }
          sleeps := sleeps + [current];
          current := Times(current, backoff);
          if maxDelay.Some? {
            current := MinReal(current, maxDelay.value);
          }
      }
    }
    ending := Unreachable;
  }

  /** Two tries, 10 s, at most 5 s: the one sleep is 10 s. */
  method SleepsBeyondTheMaximum() returns (sleeps: seq<real>)
    ensures sleeps == [10.0]
  {
    var ending, calls;
    ending, calls, sleeps := CallWithRetry<int, int>(2, 10.0, Some(5.0), 2.0, n => RaisesRetried(n));
    assert DelayAt(10.0, 2.0, Some(5.0), 0) == 10.0;
  }
}
