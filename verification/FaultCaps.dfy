/** How often the fault engine's rules fire over a run, counted by what happens, and what their conditions allow. */
module FaultCaps {
  import opened Helpers
  import opened Text
  import opened FaultRules
  import opened FaultEngine
  import opened FaultRuns

  // ------------------------------------------------------------ what happens on one request

  /** The rules from the i-th on are taken as far as the r-th: none before it has the last word. */
  ghost predicate Reaches(cfg: Config, i: nat, verb: string, path: string, counter: nat, now: real, mem: Mem, r: nat)
    requires i <= r < |cfg.rules| == |mem.states|
    decreases r - i
  {
    i == r ||
    var t := TurnOf(cfg, i, verb, path, counter, now, mem);
    t.action.None? && Reaches(cfg, i + 1, verb, path, counter, now, t.mem, r)
  }

  /** There is something to do once the rule's conditions hold: an answer to serve, or a fault to inject. */
  predicate HasEffect(rule: Rule, mem: Mem, path: string, now: real) {
    if rule.stale.Some? then StaleAnswer(mem, path, rule.stale.value, now).Some? else rule.inject.Some?
  }

  function UnitOf(cfg: Config, r: nat, verb: string, path: string, counter: nat): real
    requires r < |cfg.rules|
  {
    cfg.unit(Draw(cfg.seed, cfg.rules[r].name, verb, path, counter))
  }

  /** This event is a request that the r-th rule is taken for and covers. */
  ghost predicate Looks(cfg: Config, mem: Mem, e: Event, r: nat)
    requires r < |cfg.rules| == |mem.states|
  {
    && e.Ask? && Covers(cfg.rules[r], e.verb, e.path)
    && Reaches(cfg, 0, e.verb, e.path, Count(mem.perPath, Key(e.verb, e.path)), e.now, Counted(mem, e.verb, e.path), r)
  }

  /** And its conditions hold, and it does something. */
  ghost predicate Fires(cfg: Config, mem: Mem, e: Event, r: nat)
    requires r < |cfg.rules| == |mem.states|
  {
    && Looks(cfg, mem, e, r)
    && WhenHolds(cfg.rules[r].when, mem.states[r].(matched := mem.states[r].matched + 1), Key(e.verb, e.path),
                 UnitOf(cfg, r, e.verb, e.path, Count(mem.perPath, Key(e.verb, e.path))))
    && HasEffect(cfg.rules[r], mem, e.path, e.now)
  }

  predicate HasLastWord(rule: Rule) {
    rule.stale.Some? || (rule.inject.Some? && (rule.inject.value.reset || rule.inject.value.status.Some?))
  }

  /** What one rule's turn leaves of its own counters. */
  ghost function Touched(cfg: Config, r: nat, verb: string, path: string, counter: nat, now: real, mem: Mem): RuleState
    requires r < |cfg.rules| == |mem.states|
  {
    var s, key := mem.states[r], Key(verb, path);
    var looked := s.(matched := s.matched + 1);
    if !Covers(cfg.rules[r], verb, path) then s
    else if !(WhenHolds(cfg.rules[r].when, looked, key, UnitOf(cfg, r, verb, path, counter))
              && HasEffect(cfg.rules[r], mem, path, now)) then looked
    else looked.(firedTotal := s.firedTotal + 1,
                 firedPerPath := s.firedPerPath[key := Count(s.firedPerPath, key) + 1])
  }

  lemma TurnTouches(cfg: Config, i: nat, verb: string, path: string, counter: nat, now: real, mem: Mem)
    requires i < |cfg.rules| == |mem.states|
    ensures
      var t := TurnOf(cfg, i, verb, path, counter, now, mem);
      && t.mem.snapshots == mem.snapshots && t.mem.mutated == mem.mutated && t.mem.perPath == mem.perPath
      && t.mem.states == mem.states[i := Touched(cfg, i, verb, path, counter, now, mem)]
  {
    hide Covers, WhenHolds, Open;
    var s := mem.states[i];
    var counted := Matched(mem, i);
    assert counted.states == mem.states[i := s.(matched := s.matched + 1)];
    assert counted.states[i].firedTotal == s.firedTotal && counted.states[i].firedPerPath == s.firedPerPath;
  }

  lemma {:induction false} DecisionTouches(cfg: Config, i: nat, verb: string, path: string, counter: nat, now: real,
        latency: nat, mem: Mem, r: nat)
    requires i <= |cfg.rules| == |mem.states| && r < |cfg.rules|
    ensures DecideFrom(cfg, i, verb, path, counter, now, latency, mem).1.states[r] ==
      if i <= r && Reaches(cfg, i, verb, path, counter, now, mem, r)
      then Touched(cfg, r, verb, path, counter, now, mem) else mem.states[r]
    decreases |cfg.rules| - i
  {
    hide TurnOf, Covers, WhenHolds, HasEffect;
    if i < |cfg.rules| {
      var t := TurnOf(cfg, i, verb, path, counter, now, mem);
      TurnTouches(cfg, i, verb, path, counter, now, mem);
      if i < r {
        SameEffect(cfg.rules[r], mem, t.mem, path, now);
      }
      if t.action.None? {
        DecisionTouches(cfg, i + 1, verb, path, counter, now, latency + t.latency, t.mem, r);
      }
    }
  }

  lemma SameEffect(rule: Rule, a: Mem, b: Mem, path: string, now: real)
    requires a.snapshots == b.snapshots && a.mutated == b.mutated
    ensures HasEffect(rule, a, path, now) == HasEffect(rule, b, path, now)
  {
  }

  lemma OnlyTheLastWordEnds(cfg: Config, i: nat, verb: string, path: string, counter: nat, now: real, mem: Mem)
    requires i < |cfg.rules| == |mem.states|
    ensures
      var s := mem.states[i];
      TurnOf(cfg, i, verb, path, counter, now, mem).action.Some? <==>
        && Covers(cfg.rules[i], verb, path) && HasEffect(cfg.rules[i], mem, path, now) && HasLastWord(cfg.rules[i])
        && WhenHolds(cfg.rules[i].when, s.(matched := s.matched + 1), Key(verb, path),
                     UnitOf(cfg, i, verb, path, counter))
    ensures var a := TurnOf(cfg, i, verb, path, counter, now, mem).action; a.Some? ==> a.value != Pass
  {
    hide Covers, WhenHolds, Open;
  }

  /** One event moves the counters of a rule by what it made of that event. */
  lemma OneEventCounts(cfg: Config, mem: Mem, e: Event, r: nat)
    requires r < |cfg.rules| == |mem.states|
    ensures
      var a, b := mem.states[r], Next(cfg, mem, e).states[r];
      && b.matched == a.matched + (if Looks(cfg, mem, e, r) then 1 else 0)
      && b.firedTotal == a.firedTotal + (if Fires(cfg, mem, e, r) then 1 else 0)
      && forall key :: Count(b.firedPerPath, key) ==
           Count(a.firedPerPath, key) + if Fires(cfg, mem, e, r) && key == Key(e.verb, e.path) then 1 else 0
  {
    hide Reaches, DecideFrom, WhenHolds, Covers, StaleAnswer, Mutated, WindowOpen, Key;
    if e.Ask? {
      DecisionTouches(cfg, 0, e.verb, e.path, Count(mem.perPath, Key(e.verb, e.path)), e.now, 0,
                      Counted(mem, e.verb, e.path), r);
      SameEffect(cfg.rules[r], mem, Counted(mem, e.verb, e.path), e.path, e.now);
    }
  }

  // ------------------------------------------------------------ what happens over a run

  /** How many requests of a run the r-th rule looks at. */
  ghost function Lookings(cfg: Config, mem: Mem, events: seq<Event>, r: nat): nat
    requires r < |cfg.rules| == |mem.states|
    decreases |events|
  {
    if events == [] then 0
    else (if Looks(cfg, mem, events[0], r) then 1 else 0) + Lookings(cfg, Next(cfg, mem, events[0]), events[1..], r)
  }

  /** How many it fires on: all of them, or those of one method and path. */
  ghost function Firings(cfg: Config, mem: Mem, events: seq<Event>, r: nat, on: Option<string>): nat
    requires r < |cfg.rules| == |mem.states|
    decreases |events|
  {
    if events == [] then 0
    else
      (if Fires(cfg, mem, events[0], r) && (on.Some? ==> on.value == Key(events[0].verb, events[0].path)) then 1 else 0)
      + Firings(cfg, Next(cfg, mem, events[0]), events[1..], r, on)
  }

  lemma {:induction false} CountersCount(cfg: Config, mem: Mem, events: seq<Event>, r: nat)
    requires r < |cfg.rules| == |mem.states|
    ensures
      var a, b := mem.states[r], After(cfg, mem, events).states[r];
      && b.matched == a.matched + Lookings(cfg, mem, events, r)
      && b.firedTotal == a.firedTotal + Firings(cfg, mem, events, r, None)
      && forall key :: Count(b.firedPerPath, key) ==
           Count(a.firedPerPath, key) + Firings(cfg, mem, events, r, Some(key))
    decreases |events|
  {
    hide Next, Looks, Fires, Key, Count;
    if events != [] {
      OneEventCounts(cfg, mem, events[0], r);
      CountersCount(cfg, Next(cfg, mem, events[0]), events[1..], r);
    }
  }

  /** The engine's counters are right: they are the requests looked at and fired on since it was made. */
  lemma CountersAreRight(cfg: Config, events: seq<Event>, r: nat)
    requires r < |cfg.rules|
    ensures
      var s := After(cfg, Fresh(cfg), events).states[r];
      && s.matched == Lookings(cfg, Fresh(cfg), events, r)
      && s.firedTotal == Firings(cfg, Fresh(cfg), events, r, None)
      && forall key :: Count(s.firedPerPath, key) == Firings(cfg, Fresh(cfg), events, r, Some(key))
  {
    hide After, Lookings, Firings;
    CountersCount(cfg, Fresh(cfg), events, r);
  }

  /** The conditions, read of real counts: the request is the `seen`-th looked at, after `fired` firings. */
  predicate Allows(when: Option<When>, seen: nat, fired: nat, firedHere: nat, unit: real) {
    when.Some? ==>
      && (when.value.maxTotal.Some? ==> fired < when.value.maxTotal.value)
      && (when.value.maxPerPath.Some? ==> firedHere < when.value.maxPerPath.value)
      && (when.value.firstN.Some? ==> seen <= when.value.firstN.value)
      && (when.value.everyNth.Some? ==> IsMultipleOf(seen, when.value.everyNth.value))
      && (when.value.probability.Some? ==> unit < when.value.probability.value)
  }

  /**
   * In every run a rule fires on exactly the requests it looks at that its conditions allow, given how
   * many it has looked at and fired on before, in all and on that method and path, and what is drawn
   * at the number of times that method and path was asked for before.
   */
  lemma FiresExactlyWhenAllowed(cfg: Config, events: seq<Event>, e: Event, r: nat)
    requires r < |cfg.rules| && e.Ask? && TokenVerbs(events) && ' ' !in e.verb
    ensures
      var mem := After(cfg, Fresh(cfg), events);
      Fires(cfg, mem, e, r) <==>
        && Looks(cfg, mem, e, r) && HasEffect(cfg.rules[r], mem, e.path, e.now)
        && Allows(cfg.rules[r].when, Lookings(cfg, Fresh(cfg), events, r) + 1,
                  Firings(cfg, Fresh(cfg), events, r, None),
                  Firings(cfg, Fresh(cfg), events, r, Some(Key(e.verb, e.path))),
                  UnitOf(cfg, r, e.verb, e.path, Asked(events, e.verb, e.path)))
  {
    hide After, Lookings, Firings, Looks, HasEffect, Key;
    CountersAreRight(cfg, events, r);
    PathCountersAreRight(cfg, events, e.verb, e.path);
  }

  lemma {:induction false} LastWordIsAFiring(cfg: Config, i: nat, verb: string, path: string, counter: nat, now: real,
        latency: nat, mem: Mem)
    requires i <= |cfg.rules| == |mem.states|
    ensures DecideFrom(cfg, i, verb, path, counter, now, latency, mem).0.action != Pass <==>
      exists r :: i <= r < |cfg.rules| && Ends(cfg, i, verb, path, counter, now, mem, r)
    decreases |cfg.rules| - i
  {
    hide TurnOf, Touched, Covers, WhenHolds, HasEffect, Ends;
    if i < |cfg.rules| {
      var t := TurnOf(cfg, i, verb, path, counter, now, mem);
      OnlyTheLastWordEnds(cfg, i, verb, path, counter, now, mem);
      TurnTouches(cfg, i, verb, path, counter, now, mem);
      EndsHere(cfg, i, verb, path, counter, now, mem);
      if t.action.None? {
        var next := i + 1;
        LastWordIsAFiring(cfg, next, verb, path, counter, now, latency + t.latency, t.mem);
        forall r | i < r < |cfg.rules|
          ensures Ends(cfg, i, verb, path, counter, now, mem, r)
            <==> Ends(cfg, next, verb, path, counter, now, t.mem, r)
        {
          EndsLater(cfg, i, verb, path, counter, now, mem, r);
        }
        if r :| i < r < |cfg.rules| && Ends(cfg, next, verb, path, counter, now, t.mem, r) {
          assert Ends(cfg, i, verb, path, counter, now, mem, r);
        }
        if r :| i <= r < |cfg.rules| && Ends(cfg, i, verb, path, counter, now, mem, r) {
          assert Ends(cfg, next, verb, path, counter, now, t.mem, r);
        }
      }
    }
  }

  /** Taken from the i-th on, the r-th rule is reached and fires. */
  ghost predicate FiresFrom(cfg: Config, i: nat, verb: string, path: string, counter: nat, now: real, mem: Mem, r: nat)
    requires i <= r < |cfg.rules| == |mem.states|
  {
    var s := mem.states[r];
    && Reaches(cfg, i, verb, path, counter, now, mem, r) && Covers(cfg.rules[r], verb, path)
    && HasEffect(cfg.rules[r], mem, path, now)
    && WhenHolds(cfg.rules[r].when, s.(matched := s.matched + 1), Key(verb, path), UnitOf(cfg, r, verb, path, counter))
  }

  /** And is the one with the last word. */
  ghost predicate Ends(cfg: Config, i: nat, verb: string, path: string, counter: nat, now: real, mem: Mem, r: nat)
    requires i <= r < |cfg.rules| == |mem.states|
  {
    FiresFrom(cfg, i, verb, path, counter, now, mem, r) && HasLastWord(cfg.rules[r])
  }

  lemma EndsHere(cfg: Config, i: nat, verb: string, path: string, counter: nat, now: real, mem: Mem)
    requires i < |cfg.rules| == |mem.states|
    ensures Ends(cfg, i, verb, path, counter, now, mem, i) <==>
      TurnOf(cfg, i, verb, path, counter, now, mem).action.Some?
  {
    hide TurnOf, Covers, WhenHolds, HasEffect;
    OnlyTheLastWordEnds(cfg, i, verb, path, counter, now, mem);
  }

  lemma EndsLater(cfg: Config, i: nat, verb: string, path: string, counter: nat, now: real, mem: Mem, r: nat)
    requires i < r < |cfg.rules| == |mem.states|
    ensures
      var t := TurnOf(cfg, i, verb, path, counter, now, mem);
      && |t.mem.states| == |cfg.rules|
      && (FiresFrom(cfg, i, verb, path, counter, now, mem, r) <==>
            t.action.None? && FiresFrom(cfg, i + 1, verb, path, counter, now, t.mem, r))
      && (Ends(cfg, i, verb, path, counter, now, mem, r) <==>
            t.action.None? && Ends(cfg, i + 1, verb, path, counter, now, t.mem, r))
  {
    hide TurnOf, Covers, WhenHolds, HasEffect;
    TurnTouches(cfg, i, verb, path, counter, now, mem);
    SameEffect(cfg.rules[r], mem, TurnOf(cfg, i, verb, path, counter, now, mem).mem, path, now);
  }

  /** And firings are what a client meets: a request is not passed on exactly when a rule with a last word fires. */
  lemma FiringsAreFelt(cfg: Config, mem: Mem, e: Event)
    requires |mem.states| == |cfg.rules| && e.Ask?
    ensures Decided(cfg, e.verb, e.path, e.now, mem).0.action != Pass <==>
      exists r :: 0 <= r < |cfg.rules| && Fires(cfg, mem, e, r) && HasLastWord(cfg.rules[r])
  {
    hide DecideFrom, Reaches, Covers, WhenHolds, HasLastWord, StaleAnswer;
    var counter, counted := Count(mem.perPath, Key(e.verb, e.path)), Counted(mem, e.verb, e.path);
    LastWordIsAFiring(cfg, 0, e.verb, e.path, counter, e.now, 0, counted);
    forall r | 0 <= r < |cfg.rules|
      ensures Ends(cfg, 0, e.verb, e.path, counter, e.now, counted, r) <==>
        Fires(cfg, mem, e, r) && HasLastWord(cfg.rules[r])
    {
      SameEffect(cfg.rules[r], mem, counted, e.path, e.now);
    }
  }

  // ------------------------------------------------------------ no more than the conditions allow

  /** The engine's own counters are within what the conditions allow, in all and on any one path. */
  ghost predicate WithinCaps(when: Option<When>, s: RuleState) {
    && s.firedTotal <= s.matched
    && (when.Some? ==>
          && (when.value.maxTotal.Some? ==> s.firedTotal <= when.value.maxTotal.value)
          && (when.value.firstN.Some? ==> s.firedTotal <= when.value.firstN.value)
          && (when.value.everyNth.Some? ==> s.firedTotal * when.value.everyNth.value <= s.matched)
          && (when.value.everyNth == Some(0) ==> s.firedTotal == 0)
          && (when.value.maxPerPath.Some? ==>
                forall key :: Count(s.firedPerPath, key) <= when.value.maxPerPath.value))
  }

  ghost predicate AllWithinCaps(cfg: Config, mem: Mem) {
    |mem.states| == |cfg.rules| && forall i :: 0 <= i < |cfg.rules| ==> WithinCaps(cfg.rules[i].when, mem.states[i])
  }

  lemma NextMultiple(fired: nat, n: nat, m: nat)
    requires n > 0 && fired * n <= m && (m + 1) % n == 0
    ensures (fired + 1) * n <= m + 1
  {
    var k := (m + 1) / n;
    assert m + 1 == n * k + (m + 1) % n;
    if k < fired + 1 {
      MulKeeps(k, fired, n);
    } else {
      MulKeeps(fired + 1, k, n);
    }
  }

  lemma FiringKeepsCaps(when: Option<When>, s: RuleState, key: string, unit: real)
    requires WithinCaps(when, s) && WhenHolds(when, s.(matched := s.matched + 1), key, unit)
    ensures
      WithinCaps(when, s.(matched := s.matched + 1, firedTotal := s.firedTotal + 1,
                          firedPerPath := s.firedPerPath[key := Count(s.firedPerPath, key) + 1]))
  {
    var next := s.(matched := s.matched + 1, firedTotal := s.firedTotal + 1,
                   firedPerPath := s.firedPerPath[key := Count(s.firedPerPath, key) + 1]);
    if when.Some? {
      var w := when.value;
      if w.everyNth.Some? && w.everyNth.value > 0 {
        NextMultiple(s.firedTotal, w.everyNth.value, s.matched);
      }
      assert w.everyNth.Some? ==> next.firedTotal * w.everyNth.value <= next.matched;
      if w.maxPerPath.Some? {
        forall k ensures Count(next.firedPerPath, k) <= w.maxPerPath.value {
          assert Count(next.firedPerPath, k) == Count(s.firedPerPath, k) + if k == key then 1 else 0;
        }
      }
    }
  }

  lemma MatchingKeepsCaps(when: Option<When>, s: RuleState)
    requires WithinCaps(when, s)
    ensures WithinCaps(when, s.(matched := s.matched + 1))
  {
  }

  lemma TurnKeepsCaps(cfg: Config, i: nat, verb: string, path: string, counter: nat, now: real, mem: Mem)
    requires i < |cfg.rules| && AllWithinCaps(cfg, mem)
    ensures AllWithinCaps(cfg, TurnOf(cfg, i, verb, path, counter, now, mem).mem)
  {
    hide Covers, StaleAnswer, WhenHolds, WithinCaps;
    var key := Key(verb, path);
    var unit := cfg.unit(Draw(cfg.seed, cfg.rules[i].name, verb, path, counter));
    MatchingKeepsCaps(cfg.rules[i].when, mem.states[i]);
    if WhenHolds(cfg.rules[i].when, Matched(mem, i).states[i], key, unit) {
      FiringKeepsCaps(cfg.rules[i].when, mem.states[i], key, unit);
    }
  }

  lemma {:induction false} DecisionKeepsCaps(cfg: Config, i: nat, verb: string, path: string, counter: nat, now: real,
        latency: nat, mem: Mem)
    requires i <= |cfg.rules| && AllWithinCaps(cfg, mem)
    ensures AllWithinCaps(cfg, DecideFrom(cfg, i, verb, path, counter, now, latency, mem).1)
    decreases |cfg.rules| - i
  {
    hide TurnOf, WithinCaps;
    if i < |cfg.rules| {
      TurnKeepsCaps(cfg, i, verb, path, counter, now, mem);
      var t := TurnOf(cfg, i, verb, path, counter, now, mem);
      if t.action.None? {
        DecisionKeepsCaps(cfg, i + 1, verb, path, counter, now, latency + t.latency, t.mem);
      }
    }
  }

  lemma {:induction false} RunKeepsCaps(cfg: Config, mem: Mem, events: seq<Event>)
    requires AllWithinCaps(cfg, mem)
    ensures AllWithinCaps(cfg, After(cfg, mem, events))
    decreases |events|
  {
    hide DecideFrom, WithinCaps, WindowOpen, Mutated;
    if events != [] {
      var e := events[0];
      if e.Ask? {
        DecisionKeepsCaps(cfg, 0, e.verb, e.path, Count(mem.perPath, Key(e.verb, e.path)), e.now, 0,
                          Counted(mem, e.verb, e.path));
      }
      RunKeepsCaps(cfg, Next(cfg, mem, e), events[1..]);
    }
  }

  /**
   * So over every run a rule fires no more often than its `when` says: in all, on any one method and
   * path, among the first it looks at, and on no more than one in so many of them.
   */
  lemma CapsAreKept(cfg: Config, events: seq<Event>, r: nat)
    requires r < |cfg.rules| && cfg.rules[r].when.Some?
    ensures
      var when, fired := cfg.rules[r].when.value, Firings(cfg, Fresh(cfg), events, r, None);
      && (when.maxTotal.Some? ==> fired <= when.maxTotal.value)
      && (when.firstN.Some? ==> fired <= when.firstN.value)
      && (when.everyNth.Some? ==> fired * when.everyNth.value <= Lookings(cfg, Fresh(cfg), events, r))
      && (when.everyNth == Some(0) ==> fired == 0)
      && (when.maxPerPath.Some? ==>
            forall key :: Firings(cfg, Fresh(cfg), events, r, Some(key)) <= when.maxPerPath.value)
  {
    hide After, Lookings, Firings;
    CountersAreRight(cfg, events, r);
    assert AllWithinCaps(cfg, Fresh(cfg));
    RunKeepsCaps(cfg, Fresh(cfg), events);
    assert WithinCaps(cfg.rules[r].when, After(cfg, Fresh(cfg), events).states[r]);
  }
}
