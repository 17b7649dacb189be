/** The budget of anonymous password attempts of src/database/identity-store.ts: the virtual
    scheduling form of the generic cell rate algorithm, Annex A of ITU-T Recommendation I.371. */
module PasswordBudget {
  import opened Numbers

  const BURST := 10
  const INTERVAL := 5_000

  datatype Budget = Budget(arrival: nat, updated: nat)

  /** `Refused` is a call that throws: a bad clock reading, or an arrival beyond the safe range. */
  datatype Answer = Admitted | Wait(seconds: nat) | Refused

  const FRESH := Budget(0, 0)

  /** The quotient rounded up, of a positive number. */
  function CeilDiv(a: nat, b: nat): nat
    requires b > 0
  {
    (a + b - 1) / b
  }

  function Effective(b: Budget, now: nat): nat {
    if now < b.updated then b.updated else now
  }

  function AllowedAt(b: Budget): int {
    b.arrival - (BURST - 1) * INTERVAL
  }

  function Answered(b: Budget, now: int): Answer {
    if now < 0 || now > MAX_SAFE then Refused
    else if Effective(b, now) < AllowedAt(b) then Wait(Max(1, CeilDiv(AllowedAt(b) - now, 1_000)))
    else if Max(b.arrival, Effective(b, now)) + INTERVAL > MAX_SAFE then Refused
    else Admitted
  }

  function After(b: Budget, now: int): Budget {
    if Answered(b, now).Admitted? then Budget(Max(b.arrival, Effective(b, now)) + INTERVAL, Effective(b, now)) else b
  }

  function Run(b: Budget, clocks: seq<int>): Budget {
    if clocks == [] then b else After(Run(b, clocks[..|clocks| - 1]), clocks[|clocks| - 1])
  }

  /** The effective times of the admitted calls. */
  function Times(b: Budget, clocks: seq<int>): seq<nat> {
    if clocks == [] then [] else
    var before := Run(b, clocks[..|clocks| - 1]);
    var now := clocks[|clocks| - 1];
    Times(b, clocks[..|clocks| - 1]) + if Answered(before, now).Admitted? then [Effective(before, now)] else []
  }

  /** `count` calls between two times are within the rate. */
  predicate Within(count: nat, first: nat, last: nat) {
    INTERVAL * (count - BURST) <= last - first
  }

  /** Any admitted calls in a row are within the rate, first to last. */
  predicate Limited(times: seq<nat>) {
    forall i, j | 0 <= i <= j < |times| :: Within(j - i + 1, times[i], times[j])
  }

  /** The stored arrival is the latest that any admitted call asks for. */
  predicate ArrivalIs(times: seq<nat>, arrival: nat) {
    && (forall i | 0 <= i < |times| :: times[i] + INTERVAL * (|times| - i) <= arrival)
    && (times != [] ==> exists i :: 0 <= i < |times| && arrival == times[i] + INTERVAL * (|times| - i))
  }

  predicate Increasing(times: seq<nat>) {
    forall i, j | 0 <= i <= j < |times| :: times[i] <= times[j]
  }

  /** A call at `t` joins the admitted ones without exceeding the rate over any of them. */
  predicate MayJoin(times: seq<nat>, t: nat) {
    forall i | 0 <= i < |times| :: Within(|times| - i + 1, times[i], t)
  }

  lemma JoinsExactly(times: seq<nat>, arrival: nat, t: nat)
    requires ArrivalIs(times, arrival) && (times == [] ==> arrival == 0)
    ensures MayJoin(times, t) <==> t >= arrival - (BURST - 1) * INTERVAL
  {
    if times != [] {
      var i :| 0 <= i < |times| && arrival == times[i] + INTERVAL * (|times| - i);
      assert Within(|times| - i + 1, times[i], t) <==> t >= arrival - (BURST - 1) * INTERVAL;
    }
  }

  lemma ArrivalAfter(times: seq<nat>, arrival: nat, t: nat)
    requires ArrivalIs(times, arrival) && (times == [] ==> arrival == 0)
    ensures ArrivalIs(times + [t], Max(arrival, t) + INTERVAL)
  {
    var after := times + [t];
    var next := Max(arrival, t) + INTERVAL;
    forall i | 0 <= i < |after| ensures after[i] + INTERVAL * (|after| - i) <= next {
      if i < |times| {
        assert times[i] + INTERVAL * (|times| - i) <= arrival;
      }
    }
    if t >= arrival {
      assert next == after[|times|] + INTERVAL * (|after| - |times|);
    } else {
      var i :| 0 <= i < |times| && arrival == times[i] + INTERVAL * (|times| - i);
      assert next == after[i] + INTERVAL * (|after| - i);
    }
  }

  /** What the two stored numbers say of the calls admitted so far. */
  lemma {:induction false} RunRemembers(clocks: seq<int>)
    ensures var times := Times(FRESH, clocks); var b := Run(FRESH, clocks);
      && ArrivalIs(times, b.arrival) && (times == [] ==> b == FRESH)
      && (times != [] ==> b.updated == times[|times| - 1]) && Increasing(times) && Limited(times)
  {
    if clocks != [] {
      var rest, now := clocks[..|clocks| - 1], clocks[|clocks| - 1];
      RunRemembers(rest);
      var b := Run(FRESH, rest);
      var times := Times(FRESH, rest);
      if Answered(b, now).Admitted? {
        var t := Effective(b, now);
        JoinsExactly(times, b.arrival, t);
        ArrivalAfter(times, b.arrival, t);
        assert Times(FRESH, clocks) == times + [t];
        forall i, j | 0 <= i <= j < |times| + 1 ensures Within(j - i + 1, (times + [t])[i], (times + [t])[j]) {
          if i < |times| && j == |times| {
            assert Within(|times| - i + 1, times[i], t);
          }
        }
      } else {
        assert Times(FRESH, clocks) == times;
      }
    }
  }

  /** Whatever the clock does, any k admitted calls with effective times from t1 to tk satisfy
      k <= 10 + (tk - t1) / 5000. */
  lemma RateBound(clocks: seq<int>, i: nat, j: nat)
    requires i <= j < |Times(FRESH, clocks)|
    ensures var times := Times(FRESH, clocks); j - i + 1 <= BURST + (times[j] - times[i]) / INTERVAL
  {
    RunRemembers(clocks);
    var times := Times(FRESH, clocks);
    assert Within(j - i + 1, times[i], times[j]);
  }

  /** The two numbers decide as the whole history would: a call has to wait exactly when joining it
      to the admitted calls would break the rate over some of them. */
  lemma DecidesExactly(clocks: seq<int>, now: int)
    requires 0 <= now <= MAX_SAFE
    ensures var b := Run(FRESH, clocks);
      Answered(b, now).Wait? <==> !MayJoin(Times(FRESH, clocks), Effective(b, now))
  {
    RunRemembers(clocks);
    JoinsExactly(Times(FRESH, clocks), Run(FRESH, clocks).arrival, Effective(Run(FRESH, clocks), now));
  }

  lemma CeilIsLeast(a: nat, b: nat, n: nat)
    requires b > 0
    ensures n >= CeilDiv(a, b) <==> n * b >= a
  {
    var q, r := (a + b - 1) / b, (a + b - 1) % b;
    assert a + b - 1 == q * b + r;
    if n >= q {
      Times3(n, q, b);
    } else {
      Times3(q - 1, n, b);
    }
  }

  lemma Times3(x: int, y: int, b: nat)
    requires x >= y
    ensures x * b >= y * b
  {
  }

  /** The next arrival of a call at `now` is a safe integer. */
  predicate ArrivalFits(b: Budget, now: nat) {
    Max(b.arrival, Effective(b, now)) + INTERVAL <= MAX_SAFE
  }

  /** The wait is the least whole number of seconds, from one, after which an undisturbed retry is
      admitted; only an arrival beyond the safe integers would still refuse it. */
  lemma WaitIsLeast(b: Budget, now: int, seconds: nat)
    requires Answered(b, now).Wait? && seconds >= 1 && now + 1_000 * seconds <= MAX_SAFE
    ensures Answered(b, now).seconds >= 1
    ensures var retry := Answered(b, now + 1_000 * seconds);
            if seconds < Answered(b, now).seconds then retry.Wait?
            else retry == if ArrivalFits(b, now + 1_000 * seconds) then Admitted else Refused
  {
    CeilIsLeast(AllowedAt(b) - now, 1_000, seconds);
  }

  class Store {
    var theoreticalArrivalAt: nat
    var updatedAt: nat

    ghost function View(): Budget
      reads this
    {
      Budget(theoreticalArrivalAt, updatedAt)
    }

    constructor ()
      ensures View() == FRESH
    {
      theoreticalArrivalAt, updatedAt := 0, 0;
    }

    /** takeAnonymousPasswordBudget: only an admitted call is written down. */
    method Take(now: int) returns (answer: Answer)
      modifies this
      ensures answer == Answered(old(View()), now) && View() == After(old(View()), now)
      ensures !answer.Admitted? ==> View() == old(View())
    {
      if now < 0 || now > MAX_SAFE {
        return Refused;
      }
      var effectiveNow := Max(now, updatedAt);
      var allowedAt := theoreticalArrivalAt - (BURST - 1) * INTERVAL;
      if effectiveNow < allowedAt {
        return Wait(Max(1, CeilDiv(allowedAt - now, 1_000)));
      }
      var nextArrival := Max(theoreticalArrivalAt, effectiveNow) + INTERVAL;
      if nextArrival > MAX_SAFE {
        return Refused;
      }
      theoreticalArrivalAt, updatedAt := nextArrival, effectiveNow;
      return Admitted;
    }
  }
}
