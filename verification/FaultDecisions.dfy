/** What the fault engine decides, rule by rule: the last word, the time added, and what the log says of it. */
module FaultDecisions {
  import opened Helpers
  import opened Text
  import opened FaultRules
  import opened FaultEngine
  import opened FaultRuns
  import opened FaultCaps

  /** What a rule with a last word says: the stale answer, a reset, or its own status, headers and body. */
  predicate Says(rule: Rule, mem: Mem, path: string, now: real, action: Action)
    requires HasEffect(rule, mem, path, now) && HasLastWord(rule)
  {
    if rule.stale.Some? then action.ServeStale? && StaleAnswer(mem, path, rule.stale.value, now) == Some(action.answer)
    else if rule.inject.value.reset then action == Reset
    else
      && action.Injected?
      && action.answer.status == rule.inject.value.status.value
      && action.answer.headers == rule.inject.value.headers
      && action.answer.body == if rule.inject.value.body.Some? then rule.inject.value.body.value else ""
  }

  /** The time a firing rule adds: what it draws from its range, if it injects any latency. */
  function Adds(cfg: Config, r: nat, verb: string, path: string, counter: nat): nat
    requires r < |cfg.rules|
  {
    var rule := cfg.rules[r];
    if rule.stale.Some? || rule.inject.None? || rule.inject.value.latency.None? then 0
    else
      cfg.pick(Draw(cfg.seed, rule.name, verb, path, counter), rule.inject.value.latency.value.0,
               rule.inject.value.latency.value.1)
  }

  /** What the firings of the rules from the r-th on add, the request being taken from the i-th. */
  ghost function Added(cfg: Config, i: nat, verb: string, path: string, counter: nat, now: real, mem: Mem, r: nat): nat
    requires i <= r <= |cfg.rules| == |mem.states|
    decreases |cfg.rules| - r
  {
    if r == |cfg.rules| then 0
    else
      (if FiresFrom(cfg, i, verb, path, counter, now, mem, r) then Adds(cfg, r, verb, path, counter) else 0)
      + Added(cfg, i, verb, path, counter, now, mem, r + 1)
  }

  /** And what they leave in the log: one entry each, in order. */
  ghost function Logged(cfg: Config, i: nat, verb: string, path: string, counter: nat, now: real, mem: Mem, r: nat)
    : seq<Fired>
    requires i <= r <= |cfg.rules| == |mem.states|
    decreases |cfg.rules| - r
  {
    if r == |cfg.rules| then []
    else
      (if FiresFrom(cfg, i, verb, path, counter, now, mem, r) then [Fired(cfg.rules[r].name, verb, path, counter)]
       else [])
      + Logged(cfg, i, verb, path, counter, now, mem, r + 1)
  }

  /** One turn: whether it fires, what it adds and logs, and what it says if it has the last word. */
  lemma OneTurn(cfg: Config, i: nat, verb: string, path: string, counter: nat, now: real, mem: Mem)
    requires i < |cfg.rules| == |mem.states|
    ensures
      var t := TurnOf(cfg, i, verb, path, counter, now, mem);
      var fires := FiresFrom(cfg, i, verb, path, counter, now, mem, i);
      && t.latency == (if fires then Adds(cfg, i, verb, path, counter) else 0)
      && t.mem.fired == mem.fired + (if fires then [Fired(cfg.rules[i].name, verb, path, counter)] else [])
      && (t.action.Some? <==> fires && HasLastWord(cfg.rules[i]))
      && (t.action.Some? ==> Says(cfg.rules[i], mem, path, now, t.action.value))
  {
    hide Covers, WhenHolds, Open;
    var counted := Matched(mem, i);
    SameEffect(cfg.rules[i], mem, counted, path, now);
    OnlyTheLastWordEnds(cfg, i, verb, path, counter, now, mem);
    assert counted.fired == mem.fired;
    assert mem.fired + [] == mem.fired;
  }

  /** Seen from the next rule on, the firings are the same, unless this one has ended it. */
  lemma {:induction false} AddedLater(cfg: Config, i: nat, verb: string, path: string, counter: nat, now: real,
        mem: Mem, r: nat)
    requires i < r <= |cfg.rules| == |mem.states|
    ensures
      var t := TurnOf(cfg, i, verb, path, counter, now, mem);
      && |t.mem.states| == |cfg.rules|
      && Added(cfg, i, verb, path, counter, now, mem, r)
         == (if t.action.Some? then 0 else Added(cfg, i + 1, verb, path, counter, now, t.mem, r))
      && Logged(cfg, i, verb, path, counter, now, mem, r)
         == (if t.action.Some? then [] else Logged(cfg, i + 1, verb, path, counter, now, t.mem, r))
    decreases |cfg.rules| - r
  {
    hide TurnOf, FiresFrom, Adds, Ends;
    TurnTouches(cfg, i, verb, path, counter, now, mem);
    if r < |cfg.rules| {
      EndsLater(cfg, i, verb, path, counter, now, mem, r);
      AddedLater(cfg, i, verb, path, counter, now, mem, r + 1);
    }
  }

  lemma AddedUnfolds(cfg: Config, i: nat, verb: string, path: string, counter: nat, now: real, mem: Mem)
    requires i < |cfg.rules| == |mem.states|
    ensures
      var fires := FiresFrom(cfg, i, verb, path, counter, now, mem, i);
      && Added(cfg, i, verb, path, counter, now, mem, i)
         == (if fires then Adds(cfg, i, verb, path, counter) else 0)
            + Added(cfg, i, verb, path, counter, now, mem, i + 1)
      && Logged(cfg, i, verb, path, counter, now, mem, i)
         == (if fires then [Fired(cfg.rules[i].name, verb, path, counter)] else [])
            + Logged(cfg, i, verb, path, counter, now, mem, i + 1)
  {
    hide FiresFrom, Adds;
  }

  lemma NoneAdded(cfg: Config, verb: string, path: string, counter: nat, now: real, mem: Mem)
    requires |cfg.rules| == |mem.states|
    ensures Added(cfg, |cfg.rules|, verb, path, counter, now, mem, |cfg.rules|) == 0
    ensures Logged(cfg, |cfg.rules|, verb, path, counter, now, mem, |cfg.rules|) == []
  {
  }

  /** One rule at a time: what the firings add and log begins with what the first of them does. */
  lemma AddedHere(cfg: Config, i: nat, verb: string, path: string, counter: nat, now: real, mem: Mem)
    requires i < |cfg.rules| == |mem.states|
    ensures
      var t := TurnOf(cfg, i, verb, path, counter, now, mem);
      var later := if t.action.Some? then 0 else Added(cfg, i + 1, verb, path, counter, now, t.mem, i + 1);
      var entries := if t.action.Some? then [] else Logged(cfg, i + 1, verb, path, counter, now, t.mem, i + 1);
      && |t.mem.states| == |cfg.rules|
      && Added(cfg, i, verb, path, counter, now, mem, i) == t.latency + later
      && mem.fired + Logged(cfg, i, verb, path, counter, now, mem, i) == t.mem.fired + entries
  {
    hide TurnOf, FiresFrom, Adds, Says, HasLastWord, Added, Logged;
    OneTurn(cfg, i, verb, path, counter, now, mem);
    AddedUnfolds(cfg, i, verb, path, counter, now, mem);
    AddedLater(cfg, i, verb, path, counter, now, mem, i + 1);
    var here := if FiresFrom(cfg, i, verb, path, counter, now, mem, i)
      then [Fired(cfg.rules[i].name, verb, path, counter)] else [];
    var rest := Logged(cfg, i, verb, path, counter, now, mem, i + 1);
    assert mem.fired + (here + rest) == mem.fired + here + rest;
  }

  lemma {:induction false} DecidedFrom(cfg: Config, i: nat, verb: string, path: string, counter: nat, now: real,
        latency: nat, mem: Mem)
    requires i <= |cfg.rules| == |mem.states|
    ensures
      var d := DecideFrom(cfg, i, verb, path, counter, now, latency, mem);
      && d.0.latency == latency + Added(cfg, i, verb, path, counter, now, mem, i)
      && d.1.fired == mem.fired + Logged(cfg, i, verb, path, counter, now, mem, i)
    decreases |cfg.rules| - i
  {
    hide TurnOf, Added, Logged;
    if i == |cfg.rules| {
      NoneAdded(cfg, verb, path, counter, now, mem);
    } else {
      AddedHere(cfg, i, verb, path, counter, now, mem);
      var t := TurnOf(cfg, i, verb, path, counter, now, mem);
      if t.action.None? {
        DecidedFrom(cfg, i + 1, verb, path, counter, now, latency + t.latency, t.mem);
      }
    }
  }

  lemma {:induction false} LastWordFrom(cfg: Config, i: nat, verb: string, path: string, counter: nat, now: real,
        latency: nat, mem: Mem, r: nat)
    requires i <= r < |cfg.rules| == |mem.states| && Ends(cfg, i, verb, path, counter, now, mem, r)
    ensures HasEffect(cfg.rules[r], mem, path, now) && HasLastWord(cfg.rules[r])
    ensures Says(cfg.rules[r], mem, path, now, DecideFrom(cfg, i, verb, path, counter, now, latency, mem).0.action)
    decreases |cfg.rules| - i
  {
    hide TurnOf, Covers, WhenHolds;
    var t := TurnOf(cfg, i, verb, path, counter, now, mem);
    if i == r {
      OneTurn(cfg, i, verb, path, counter, now, mem);
    } else {
      EndsLater(cfg, i, verb, path, counter, now, mem, r);
      TurnTouches(cfg, i, verb, path, counter, now, mem);
      LastWordFrom(cfg, i + 1, verb, path, counter, now, latency + t.latency, t.mem, r);
    }
  }

  /** The r-th rule fires on this event and has the last word on it. */
  ghost predicate Decides(cfg: Config, mem: Mem, e: Event, r: nat)
    requires r < |cfg.rules| == |mem.states|
  {
    Fires(cfg, mem, e, r) && HasLastWord(cfg.rules[r])
  }

  lemma FiresIsFiresFrom(cfg: Config, mem: Mem, e: Event, r: nat)
    requires r < |cfg.rules| == |mem.states| && e.Ask?
    ensures Fires(cfg, mem, e, r) <==>
      FiresFrom(cfg, 0, e.verb, e.path, Count(mem.perPath, Key(e.verb, e.path)), e.now, Counted(mem, e.verb, e.path), r)
  {
    hide Reaches, Covers, WhenHolds, HasEffect;
    SameEffect(cfg.rules[r], mem, Counted(mem, e.verb, e.path), e.path, e.now);
  }

  /**
   * What is decided, of every request in every state: it is passed on exactly when no rule with a last
   * word fires, and otherwise that rule's own word is what the client gets, whatever comes after it.
   */
  lemma TheLastWordIsTheRules(cfg: Config, mem: Mem, e: Event)
    requires |mem.states| == |cfg.rules| && e.Ask?
    ensures
      var action := Decided(cfg, e.verb, e.path, e.now, mem).0.action;
      && (action == Pass <==> forall r :: 0 <= r < |cfg.rules| ==> !Decides(cfg, mem, e, r))
      && forall r :: 0 <= r < |cfg.rules| && Decides(cfg, mem, e, r) ==>
           Says(cfg.rules[r], mem, e.path, e.now, action)
  {
    hide DecideFrom, Fires, FiresFrom, HasLastWord, HasEffect;
    var counter, counted := Count(mem.perPath, Key(e.verb, e.path)), Counted(mem, e.verb, e.path);
    FiringsAreFelt(cfg, mem, e);
    if Decided(cfg, e.verb, e.path, e.now, mem).0.action != Pass {
      var r :| 0 <= r < |cfg.rules| && Fires(cfg, mem, e, r) && HasLastWord(cfg.rules[r]);
      assert Decides(cfg, mem, e, r);
    }
    if r :| 0 <= r < |cfg.rules| && Decides(cfg, mem, e, r) {
      assert Fires(cfg, mem, e, r) && HasLastWord(cfg.rules[r]);
    }
    forall r | 0 <= r < |cfg.rules| && Decides(cfg, mem, e, r)
      ensures HasEffect(cfg.rules[r], mem, e.path, e.now)
      ensures Says(cfg.rules[r], mem, e.path, e.now, Decided(cfg, e.verb, e.path, e.now, mem).0.action)
    {
      FiresIsFiresFrom(cfg, mem, e, r);
      LastWordFrom(cfg, 0, e.verb, e.path, counter, e.now, 0, counted, r);
      SameEffect(cfg.rules[r], mem, counted, e.path, e.now);
    }
  }

  /** What the rules that fire from the r-th on add to a request, and what they leave in the log. */
  ghost function TimeAdded(cfg: Config, mem: Mem, e: Event, counter: nat, r: nat): nat
    requires r <= |cfg.rules| == |mem.states|
    decreases |cfg.rules| - r
  {
    if r == |cfg.rules| then 0
    else
      (if Fires(cfg, mem, e, r) then Adds(cfg, r, e.verb, e.path, counter) else 0)
      + TimeAdded(cfg, mem, e, counter, r + 1)
  }

  ghost function EntriesOf(cfg: Config, mem: Mem, e: Event, counter: nat, r: nat): seq<Fired>
    requires r <= |cfg.rules| == |mem.states|
    decreases |cfg.rules| - r
  {
    if r == |cfg.rules| then []
    else
      (if Fires(cfg, mem, e, r) then [Fired(cfg.rules[r].name, e.verb, e.path, counter)] else [])
      + EntriesOf(cfg, mem, e, counter, r + 1)
  }

  lemma {:induction false} SameSums(cfg: Config, mem: Mem, e: Event, r: nat)
    requires r <= |cfg.rules| == |mem.states| && e.Ask?
    ensures
      var counter, counted := Count(mem.perPath, Key(e.verb, e.path)), Counted(mem, e.verb, e.path);
      && TimeAdded(cfg, mem, e, counter, r) == Added(cfg, 0, e.verb, e.path, counter, e.now, counted, r)
      && EntriesOf(cfg, mem, e, counter, r) == Logged(cfg, 0, e.verb, e.path, counter, e.now, counted, r)
    decreases |cfg.rules| - r
  {
    hide Fires, FiresFrom, Adds;
    if r < |cfg.rules| {
      FiresIsFiresFrom(cfg, mem, e, r);
      SameSums(cfg, mem, e, r + 1);
    }
  }

  /**
   * In every run the time added to a request is what the rules that fire on it draw, and the log grows by
   * one entry for each of them, in order, with the number of times that method and path was asked for
   * before.
   */
  lemma FiringsAddUp(cfg: Config, events: seq<Event>, e: Event)
    requires e.Ask? && TokenVerbs(events) && ' ' !in e.verb
    ensures
      var mem, before := After(cfg, Fresh(cfg), events), Asked(events, e.verb, e.path);
      && Decided(cfg, e.verb, e.path, e.now, mem).0.latency == TimeAdded(cfg, mem, e, before, 0)
      && Next(cfg, mem, e).fired == mem.fired + EntriesOf(cfg, mem, e, before, 0)
  {
    hide DecideFrom, After, TimeAdded, EntriesOf, Added, Logged;
    var mem := After(cfg, Fresh(cfg), events);
    PathCountersAreRight(cfg, events, e.verb, e.path);
    SameSums(cfg, mem, e, 0);
    DecidedFrom(cfg, 0, e.verb, e.path, Count(mem.perPath, Key(e.verb, e.path)), e.now, 0,
                Counted(mem, e.verb, e.path));
  }
}
