/** Spacing git commands out, so that a run stays under a cap per minute. */
module Pace {
  import opened Helpers
  import opened Text

  function Max(a: int, b: int): int {
    if a >= b then a else b
  }

  class GitPace {
    const interval: nat
    var next: Option<int>

    constructor (commands: nat)
      ensures interval == PerMinute(commands) && next == None
    {
      interval := PerMinute(commands);
      next := None;
    }

    /** Takes the next slot; the caller then waits until it comes. */
    method Turn(now: int) returns (at: int)
      modifies this`next
      ensures at == if old(next).None? then now else Max(old(next).value, now)
      ensures next == Some(at + interval)
    {
      at := if next.None? then now else Max(next.value, now);
      next := Some(at + interval);
    }

    /** The turns of a whole run, in the order the lock was taken. */
    method Turns(arrivals: seq<int>) returns (slots: seq<int>)
      requires next == None
      modifies this`next
      ensures slots == Slots(interval, arrivals)
    {
      slots := [];
      for i := 0 to |arrivals|
        invariant slots == Slots(interval, arrivals[..i])
        invariant next == if i == 0 then None else Some(slots[i - 1] + interval)
      {
        assert arrivals[..i + 1][..i] == arrivals[..i];
        var at := Turn(arrivals[i]);
        slots := slots + [at];
      }
      assert arrivals[..|arrivals|] == arrivals;
    }
  }

  function Slots(interval: nat, arrivals: seq<int>): (slots: seq<int>)
    ensures |slots| == |arrivals|
  {
    if arrivals == [] then []
    else
      var n := |arrivals| - 1;
      var earlier := Slots(interval, arrivals[..n]);
      earlier + [if n == 0 then arrivals[0] else Max(earlier[n - 1] + interval, arrivals[n])]
  }

  /** No slot comes before its caller, and any two are as many intervals apart as there are between them. */
  lemma {:induction false} SlotsAreSpaced(interval: nat, arrivals: seq<int>, i: nat, j: nat)
    requires i <= j < |arrivals|
    ensures Slots(interval, arrivals)[j] >= arrivals[j]
    ensures Slots(interval, arrivals)[j] - Slots(interval, arrivals)[i] >= (j - i) * interval
    decreases |arrivals|
  {
    var n := |arrivals| - 1;
    if j < n {
      SlotsAreSpaced(interval, arrivals[..n], i, j);
    } else if i < j {
      SlotsAreSpaced(interval, arrivals[..n], i, j - 1);
      assert (j - 1 - i) * interval + interval == (j - i) * interval;
    }
  }

  /** How many slots fall into the half-open window of length `m` from `t`. */
  function Within(slots: seq<int>, t: int, m: nat): (count: nat)
    ensures count <= |slots|
  {
    if slots == [] then 0
    else
      var n := |slots| - 1;
      Within(slots[..n], t, m) + if t <= slots[n] < t + m then 1 else 0
  }

  /** The most slots an interval of `m` may need: `m / interval`, rounded up. */
  function Ceil(m: nat, interval: nat): nat
    requires interval > 0
  {
    (m + interval - 1) / interval
  }

  lemma CeilBounds(m: nat, interval: nat, k: nat)
    requires interval > 0
    ensures k <= Ceil(m, interval) <==> k == 0 || (k - 1) * interval < m
  {
    var c := Ceil(m, interval);
    assert c * interval <= m + interval - 1 < (c + 1) * interval by {
      DivisionIs(m + interval - 1, interval);
    }
    if k <= c {
      MulKeeps(k, c, interval);
      assert k > 0 ==> (k - 1) * interval == k * interval - interval;
    } else {
      MulKeeps(c + 1, k, interval);
      assert (k - 1) * interval == k * interval - interval;
    }
  }

  lemma DivisionIs(x: nat, d: nat)
    requires d > 0
    ensures (x / d) * d <= x < (x / d + 1) * d
  {
    assert x == d * (x / d) + x % d;
  }

  predicate ApartBy(earlier: int, last: int, steps: nat, interval: nat) {
    last - earlier >= steps * interval
  }

  lemma SlotsAreApart(interval: nat, arrivals: seq<int>, i: nat, j: nat)
    requires i <= j < |arrivals|
    ensures ApartBy(Slots(interval, arrivals)[i], Slots(interval, arrivals)[j], j - i, interval)
  {
    SlotsAreSpaced(interval, arrivals, i, j);
  }

  lemma LastSlot(interval: nat, arrivals: seq<int>, t: int, m: nat)
    requires arrivals != []
    ensures
      var n, slots := |arrivals| - 1, Slots(interval, arrivals);
      && slots[..n] == Slots(interval, arrivals[..n])
      && Within(slots, t, m) == Within(slots[..n], t, m) + if t <= slots[n] < t + m then 1 else 0
  {
  }

  /** Late enough to be the k-th slot since `t`. */
  predicate LateEnough(slot: int, t: int, k: nat, interval: nat) {
    slot >= t + (k - 1) * interval
  }

  lemma FirstIsLateEnough(slot: int, t: int, interval: nat)
    requires slot >= t
    ensures LateEnough(slot, t, 1, interval)
  {
  }

  lemma NextIsLateEnough(last: int, earlier: int, t: int, steps: nat, k: nat, interval: nat)
    requires steps >= 1 && k >= 1 && ApartBy(earlier, last, steps, interval) && LateEnough(earlier, t, k, interval)
    ensures LateEnough(last, t, k + 1, interval)
  {
    MulKeeps(1, steps, interval);
    assert k * interval == (k - 1) * interval + interval;
  }

  /** If a window holds `k > 0` slots, one of them is late enough to be the k-th. */
  lemma {:induction false} WindowFills(interval: nat, arrivals: seq<int>, t: int, m: nat) returns (i: nat)
    requires Within(Slots(interval, arrivals), t, m) > 0
    ensures i < |arrivals| && t <= Slots(interval, arrivals)[i] < t + m
    ensures LateEnough(Slots(interval, arrivals)[i], t, Within(Slots(interval, arrivals), t, m), interval)
    decreases |arrivals|
  {
    hide LateEnough, ApartBy, Slots;
    var slots := Slots(interval, arrivals);
    assert slots != [] && |slots| == |arrivals|;
    var n := |arrivals| - 1;
    var k := Within(Slots(interval, arrivals[..n]), t, m);
    LastSlot(interval, arrivals, t, m);
    hide Within;
    if k > 0 {
      i := WindowFills(interval, arrivals[..n], t, m);
    }
    if t <= slots[n] < t + m {
      if k > 0 {
        assert slots[..n][i] == slots[i];
        SlotsAreApart(interval, arrivals, i, n);
        NextIsLateEnough(slots[n], slots[i], t, n - i, k, interval);
      } else {
        FirstIsLateEnough(slots[n], t, interval);
      }
      i := n;
    }
  }

  /** Whatever the arrivals, no window holds more slots than its length holds intervals, rounded up. */
  lemma WindowHoldsAtMost(interval: nat, arrivals: seq<int>, t: int, m: nat)
    requires interval > 0
    ensures Within(Slots(interval, arrivals), t, m) <= Ceil(m, interval)
  {
    hide Ceil, Slots, Within;
    var k := Within(Slots(interval, arrivals), t, m);
    CeilBounds(m, interval, k);
    if k > 0 {
      var i := WindowFills(interval, arrivals, t, m);
    }
  }

  function Burst(n: nat): seq<int> {
    seq(n, _ => 0)
  }

  lemma {:induction false} BurstSlots(interval: nat, n: nat, i: nat)
    requires i < n
    ensures Slots(interval, Burst(n))[i] == i * interval
  {
    assert Burst(n)[..n - 1] == Burst(n - 1);
    if i < n - 1 {
      BurstSlots(interval, n - 1, i);
    } else if n > 1 {
      BurstSlots(interval, n - 1, i - 1);
      assert i * interval == (i - 1) * interval + interval;
    }
  }

  lemma {:induction false} AllWithin(slots: seq<int>, t: int, m: nat)
    requires forall i :: 0 <= i < |slots| ==> t <= slots[i] < t + m
    ensures Within(slots, t, m) == |slots|
  {
    if slots != [] {
      AllWithin(slots[..|slots| - 1], t, m);
    }
  }

  /** And a burst of commands reaches that many. */
  lemma BurstReachesTheMost(interval: nat, m: nat)
    requires interval > 0
    ensures Within(Slots(interval, Burst(Ceil(m, interval))), 0, m) == Ceil(m, interval)
  {
    var n := Ceil(m, interval);
    var slots := Slots(interval, Burst(n));
    forall i | 0 <= i < n ensures 0 <= slots[i] < m {
      BurstSlots(interval, n, i);
      CeilBounds(m, interval, i + 1);
    }
    AllWithin(slots, 0, m);
  }

  // ------------------------------------------------------------ the cap that was asked for

  /** A minute, in nanoseconds. */
  const MINUTE: nat := 60_000_000_000

  function PerMinute(commands: nat): nat {
    MINUTE / if commands == 0 then 1 else commands
  }

  /** No run at this pace ever starts more than `most` commands in a minute. */
  ghost predicate NeverMoreThan(commands: nat, most: nat) {
    forall arrivals: seq<int>, t :: Within(Slots(PerMinute(commands), arrivals), t, MINUTE) <= most
  }

  lemma NeverMoreThanTheCeiling(commands: nat, most: nat)
    requires PerMinute(commands) > 0
    ensures NeverMoreThan(commands, most) <==> most * PerMinute(commands) >= MINUTE
  {
    var interval := PerMinute(commands);
    CeilBounds(MINUTE, interval, most + 1);
    if most * interval >= MINUTE {
      forall arrivals: seq<int>, t ensures Within(Slots(interval, arrivals), t, MINUTE) <= most {
        WindowHoldsAtMost(interval, arrivals, t, MINUTE);
      }
    } else {
      BurstReachesTheMost(interval, MINUTE);
    }
  }

  /** The cap itself is kept exactly when the minute divides evenly by it. */
  lemma CapIsKeptWhenItDivides(commands: nat)
    requires 0 < commands <= MINUTE
    ensures NeverMoreThan(commands, commands) <==> MINUTE % commands == 0
  {
    DividesToAtLeastOne(commands);
    NeverMoreThanTheCeiling(commands, commands);
    assert MINUTE == commands * (MINUTE / commands) + MINUTE % commands;
  }

  lemma DividesToAtLeastOne(commands: nat)
    requires 0 < commands <= MINUTE
    ensures PerMinute(commands) > 0
  {
    var q := MINUTE / commands;
    DivisionIs(MINUTE, commands);
    assert (q + 1) * commands == q * commands + commands;
  }

  /**
   * One more than the cap is kept as long as what the division leaves over fits into one interval:
   * for every cap up to the square root of the minute, but not for every cap.
   */
  lemma OneMoreThanTheCap(commands: nat)
    requires 0 < commands <= MINUTE
    ensures NeverMoreThan(commands, commands + 1) <==> MINUTE % commands <= MINUTE / commands
    ensures commands * commands <= MINUTE ==> NeverMoreThan(commands, commands + 1)
  {
    DividesToAtLeastOne(commands);
    NeverMoreThanTheCeiling(commands, commands + 1);
    hide NeverMoreThan;
    var q, r := MINUTE / commands, MINUTE % commands;
    assert MINUTE == commands * q + r;
    assert (commands + 1) * q == commands * q + q;
    if commands * commands <= MINUTE {
      LittleIsLeftOver(MINUTE, commands, q, r);
    }
  }

  lemma LittleIsLeftOver(m: nat, c: nat, q: nat, r: nat)
    requires m == c * q + r && r < c && c * c <= m
    ensures r <= q
  {
    assert c * c - c * q == (c - q) * c;
    AtLeastItself(c - q, c);
  }

  lemma AtLeastItself(x: int, c: nat)
    ensures x >= 1 ==> x * c >= c
  {
    if x >= 1 {
      MulKeeps(1, x, c);
    }
  }
}
