/** The fault engine: one decision per request, and a store of what reads looked like before a write. */
module FaultEngine {
  import opened Helpers
  import opened Text
  import opened FaultRules

  datatype Answer = Answer(status: nat, headers: seq<(string, string)>, body: string)

  datatype Action = Pass | Injected(answer: Answer) | Reset | ServeStale(answer: Answer)

  datatype Decision = Decision(latency: nat, action: Action)

  datatype Fired = Fired(rule: string, verb: string, path: string, counter: nat)

  /** What the generator is seeded with for one rule and one request. */
  datatype Draw = Draw(seed: nat, rule: string, verb: string, path: string, counter: nat)

  /** The generator itself is any function of its seed. */
  datatype Config = Config(rules: seq<Rule>, seed: nat, unit: Draw -> real, pick: (Draw, nat, nat) -> nat)

  datatype RuleState = RuleState(matched: nat, firedTotal: nat, firedPerPath: map<string, nat>)

  datatype Mem = Mem(
    perPath: map<string, nat>,
    states: seq<RuleState>,
    snapshots: map<string, Answer>,
    mutated: map<(Trigger, string), real>,
    fired: seq<Fired>)

  const NO_STATE := RuleState(0, 0, map[])

  function Fresh(cfg: Config): Mem {
    Mem(map[], seq(|cfg.rules|, _ => NO_STATE), map[], map[], [])
  }

  function Key(verb: string, path: string): string {
    verb + " " + path
  }

  function Count(m: map<string, nat>, key: string): nat {
    if key in m then m[key] else 0
  }

  // ------------------------------------------------------------ one rule and one request

  /** Whether a rule fires, `state` having counted this request already. */
  predicate WhenHolds(when: Option<When>, state: RuleState, key: string, unit: real) {
    when.None? ||
    var w := when.value;
    && (w.maxTotal.Some? ==> state.firedTotal < w.maxTotal.value)
    && (w.maxPerPath.Some? ==> Count(state.firedPerPath, key) < w.maxPerPath.value)
    && (w.firstN.Some? ==> state.matched <= w.firstN.value)
    && (w.everyNth.Some? ==> IsMultipleOf(state.matched, w.everyNth.value))
    && (w.probability.Some? ==> unit < w.probability.value)
  }

  /** Zero has no multiple but zero. */
  predicate IsMultipleOf(x: nat, n: nat) {
    if n == 0 then x == 0 else x % n == 0
  }

  function StaleKey(on: Trigger, path: string): Option<string> {
    if on.SamePath? then Some(path) else RepoPrefix(path)
  }

  /** A window this rule opened for the path has not elapsed yet. */
  predicate Open(mutated: map<(Trigger, string), real>, stale: Stale, path: string, now: real) {
    var key := StaleKey(stale.on, path);
    key.Some? && (stale.on, key.value) in mutated && now - mutated[(stale.on, key.value)] < stale.forSecs
  }

  const JSON := [("content-type", "application/json")]
  const STALE_NOT_FOUND := Answer(404, JSON, "{\"message\":\"not found (stale)\"}")

  function StaleAnswer(mem: Mem, path: string, stale: Stale, now: real): Option<Answer> {
    if !Open(mem.mutated, stale, path, now) then None
    else if stale.body.Some? then Some(Answer(200, JSON, stale.body.value))
    else if path in mem.snapshots then Some(mem.snapshots[path])
    else if stale.missingAs.NotFound? then Some(STALE_NOT_FOUND)
    else None
  }

  function InjectedAnswer(inject: Inject): Answer
    requires inject.status.Some?
  {
    Answer(inject.status.value, inject.headers, if inject.body.Some? then inject.body.value else "")
  }

  function Recorded(mem: Mem, i: nat, rule: Rule, verb: string, path: string, counter: nat): Mem
    requires i < |mem.states|
  {
    var s, key := mem.states[i], Key(verb, path);
    mem.(states := mem.states[i := s.(firedTotal := s.firedTotal + 1,
                                      firedPerPath := s.firedPerPath[key := Count(s.firedPerPath, key) + 1])],
         fired := mem.fired + [Fired(rule.name, verb, path, counter)])
  }

  function Matched(mem: Mem, i: nat): Mem
    requires i < |mem.states|
  {
    mem.(states := mem.states[i := mem.states[i].(matched := mem.states[i].matched + 1)])
  }

  /** What one rule makes of a request: time to add, perhaps the last word, and what it remembers. */
  datatype Turn = Turn(latency: nat, action: Option<Action>, mem: Mem)

  function FiringTurn(cfg: Config, i: nat, verb: string, path: string, counter: nat, now: real, mem: Mem): Turn
    requires i < |cfg.rules| == |mem.states|
  {
    var rule := cfg.rules[i];
    if rule.stale.Some? then
      var answer := StaleAnswer(mem, path, rule.stale.value, now);
      if answer.None? then Turn(0, None, mem)
      else Turn(0, Some(ServeStale(answer.value)), Recorded(mem, i, rule, verb, path, counter))
    else if rule.inject.None? then Turn(0, None, mem)
    else
      var inject := rule.inject.value;
      var latency := if inject.latency.None? then 0
        else cfg.pick(Draw(cfg.seed, rule.name, verb, path, counter), inject.latency.value.0, inject.latency.value.1);
      var action := if inject.reset then Some(Reset)
        else if inject.status.Some? then Some(Injected(InjectedAnswer(inject))) else None;
      Turn(latency, action, Recorded(mem, i, rule, verb, path, counter))
  }

  ghost function TurnOf(cfg: Config, i: nat, verb: string, path: string, counter: nat, now: real, mem: Mem): Turn
    requires i < |cfg.rules| == |mem.states|
  {
    var rule := cfg.rules[i];
    if !Covers(rule, verb, path) then Turn(0, None, mem)
    else
      var counted := Matched(mem, i);
      var unit := cfg.unit(Draw(cfg.seed, rule.name, verb, path, counter));
      if WhenHolds(rule.when, counted.states[i], Key(verb, path), unit)
      then FiringTurn(cfg, i, verb, path, counter, now, counted)
      else Turn(0, None, counted)
  }

  /** The rules from the i-th on, in order: time adds up, and the first last word ends it. */
  ghost function DecideFrom(cfg: Config, i: nat, verb: string, path: string, counter: nat, now: real, latency: nat,
        mem: Mem)
    : (r: (Decision, Mem))
    requires i <= |cfg.rules| == |mem.states|
    ensures |r.1.states| == |cfg.rules|
    decreases |cfg.rules| - i
  {
    if i == |cfg.rules| then (Decision(latency, Pass), mem)
    else
      var t := TurnOf(cfg, i, verb, path, counter, now, mem);
      if t.action.Some? then (Decision(latency + t.latency, t.action.value), t.mem)
      else DecideFrom(cfg, i + 1, verb, path, counter, now, latency + t.latency, t.mem)
  }

  function Counted(mem: Mem, verb: string, path: string): Mem {
    var key := Key(verb, path);
    mem.(perPath := mem.perPath[key := Count(mem.perPath, key) + 1])
  }

  ghost function Decided(cfg: Config, verb: string, path: string, now: real, mem: Mem): (r: (Decision, Mem))
    requires |mem.states| == |cfg.rules|
    ensures |r.1.states| == |cfg.rules|
  {
    DecideFrom(cfg, 0, verb, path, Count(mem.perPath, Key(verb, path)), now, 0, Counted(mem, verb, path))
  }

  // ------------------------------------------------------------ what is observed

  predicate IsRead(verb: string) {
    verb == "GET" || verb == "HEAD"
  }

  /** Some rule's window covers the path. */
  predicate WindowOpen(rules: seq<Rule>, mutated: map<(Trigger, string), real>, path: string, now: real) {
    exists i :: 0 <= i < |rules| && rules[i].stale.Some? && Open(mutated, rules[i].stale.value, path, now)
  }

  function Mutated(mutated: map<(Trigger, string), real>, path: string, now: real): map<(Trigger, string), real> {
    var m, prefix := mutated[(SamePath, path) := now], RepoPrefix(path);
    if prefix.None? then m
    else
      var m2 := m[(SameRepo, prefix.value) := now];
      if EndsWith(path, "/git-receive-pack") then m2[(PushSameRepo, prefix.value) := now] else m2
  }

  /** A forwarded answer, hop-by-hop headers aside. */
  function Observed(rules: seq<Rule>, mem: Mem, verb: string, path: string, answer: Answer, now: real): Mem {
    if !Good(answer.status) then mem
    else if IsRead(verb) then
      (if WindowOpen(rules, mem.mutated, path, now) then mem
       else mem.(snapshots := mem.snapshots[path := answer]))
    else mem.(mutated := Mutated(mem.mutated, path, now))
  }

  class FaultEngine {
    const cfg: Config
    var perPath: map<string, nat>
    var states: seq<RuleState>
    var snapshots: map<string, Answer>
    var mutated: map<(Trigger, string), real>
    var fired: seq<Fired>

    ghost predicate Valid()
      reads this
    {
      |states| == |cfg.rules|
    }

    function Memory(): Mem
      reads this
    {
      Mem(perPath, states, snapshots, mutated, fired)
    }

    constructor (cfg: Config)
      ensures this.cfg == cfg && Valid() && Memory() == Fresh(cfg)
    {
      this.cfg := cfg;
      perPath, snapshots, mutated, fired := map[], map[], map[], [];
      states := seq(|cfg.rules|, _ => NO_STATE);
    }

    method Record(i: nat, verb: string, path: string, counter: nat)
      requires Valid() && i < |states|
      modifies this`states, this`fired
      ensures Valid() && Memory() == Recorded(old(Memory()), i, cfg.rules[i], verb, path, counter)
    {
      var s, key := states[i], Key(verb, path);
      states := states[i := s.(firedTotal := s.firedTotal + 1,
                               firedPerPath := s.firedPerPath[key := Count(s.firedPerPath, key) + 1])];
      fired := fired + [Fired(cfg.rules[i].name, verb, path, counter)];
    }

    /** One rule's turn. */
    method Consider(i: nat, verb: string, path: string, counter: nat, now: real)
      returns (latency: nat, action: Option<Action>)
      requires Valid() && i < |states|
      modifies this`states, this`fired
      ensures Valid()
      ensures Turn(latency, action, Memory()) == TurnOf(cfg, i, verb, path, counter, now, old(Memory()))
    {
      hide Covers, Open;
      var rule, key := cfg.rules[i], Key(verb, path);
      latency, action := 0, None;
      var matches := Matches(rule, verb, path);
      if !matches {
        return;
      }
      var draw := Draw(cfg.seed, rule.name, verb, path, counter);
      states := states[i := states[i].(matched := states[i].matched + 1)];
      if !WhenHolds(rule.when, states[i], key, cfg.unit(draw)) {
        return;
      }
      if rule.stale.Some? {
        var answer := StaleAnswer(Memory(), path, rule.stale.value, now);
        if answer.Some? {
          Record(i, verb, path, counter);
          action := Some(ServeStale(answer.value));
        }
        return;
      }
      if rule.inject.Some? {
        var inject := rule.inject.value;
        if inject.latency.Some? {
          latency := cfg.pick(draw, inject.latency.value.0, inject.latency.value.1);
        }
        Record(i, verb, path, counter);
        if inject.reset {
          action := Some(Reset);
        } else if inject.status.Some? {
          action := Some(Injected(InjectedAnswer(inject)));
        }
      }
    }

    method Decide(verb: string, path: string, now: real) returns (d: Decision)
      requires Valid()
      modifies this`perPath, this`states, this`fired
      ensures Valid() && (d, Memory()) == Decided(cfg, verb, path, now, old(Memory()))
    {
      hide TurnOf;
      var key := Key(verb, path);
      var counter := Count(perPath, key);
      perPath := perPath[key := counter + 1];
      var latency := 0;
      for i := 0 to |cfg.rules|
        invariant Valid()
        invariant DecideFrom(cfg, i, verb, path, counter, now, latency, Memory())
          == Decided(cfg, verb, path, now, old(Memory()))
      {
        var more, action := Consider(i, verb, path, counter, now);
        latency := latency + more;
        if action.Some? {
          return Decision(latency, action.value);
        }
      }
      d := Decision(latency, Pass);
    }

    method Observe(verb: string, path: string, answer: Answer, now: real)
      requires Valid()
      modifies this`snapshots, this`mutated
      ensures Valid() && Memory() == Observed(cfg.rules, old(Memory()), verb, path, answer, now)
    {
      if !Good(answer.status) {
        return;
      }
      if IsRead(verb) {
        if !WindowOpen(cfg.rules, mutated, path, now) {
          snapshots := snapshots[path := answer];
        }
        return;
      }
      ObserveMutation(verb, path, answer.status, now);
    }

    /** The half that streamed traffic needs: a good write opens its windows. */
    method ObserveMutation(verb: string, path: string, status: nat, now: real)
      requires Valid()
      modifies this`mutated
      ensures Valid()
      ensures Memory() ==
        if IsRead(verb) || !Good(status) then old(Memory())
        else old(Memory()).(mutated := Mutated(old(mutated), path, now))
    {
      if IsRead(verb) || !Good(status) {
        return;
      }
      mutated := mutated[(SamePath, path) := now];
      var prefix := RepoPrefix(path);
      if prefix.Some? {
        mutated := mutated[(SameRepo, prefix.value) := now];
        if EndsWith(path, "/git-receive-pack") {
          mutated := mutated[(PushSameRepo, prefix.value) := now];
        }
      }
    }
  }
}
