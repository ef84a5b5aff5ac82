/** Whole runs of the fault engine: what one path's history decides, and what a stale answer is. */
module FaultRuns {
  import opened Helpers
  import opened Text
  import opened FaultRules
  import opened FaultEngine

  datatype Event =
    | Ask(verb: string, path: string, now: real)
    | Seen(verb: string, path: string, answer: Answer, now: real)

  ghost function Next(cfg: Config, mem: Mem, e: Event): (r: Mem)
    requires |mem.states| == |cfg.rules|
    ensures |r.states| == |cfg.rules|
  {
    match e
    case Ask(verb, path, now) => Decided(cfg, verb, path, now, mem).1
    case Seen(verb, path, answer, now) => Observed(cfg.rules, mem, verb, path, answer, now)
  }

  ghost function After(cfg: Config, mem: Mem, events: seq<Event>): (r: Mem)
    requires |mem.states| == |cfg.rules|
    ensures |r.states| == |cfg.rules|
    decreases |events|
  {
    if events == [] then mem else After(cfg, Next(cfg, mem, events[0]), events[1..])
  }

  /** What was decided for the requests of one verb and path, in order. */
  ghost function Decisions(cfg: Config, mem: Mem, events: seq<Event>, verb: string, path: string): seq<Decision>
    requires |mem.states| == |cfg.rules|
    decreases |events|
  {
    if events == [] then []
    else
      (if events[0].Ask? && events[0].verb == verb && events[0].path == path
       then [Decided(cfg, verb, path, events[0].now, mem).0] else [])
      + Decisions(cfg, Next(cfg, mem, events[0]), events[1..], verb, path)
  }

  function Asked(events: seq<Event>, verb: string, path: string): nat {
    if events == [] then 0
    else
      (if events[0].Ask? && events[0].verb == verb && events[0].path == path then 1 else 0)
      + Asked(events[1..], verb, path)
  }

  function Repeat(verb: string, path: string, n: nat): seq<Event> {
    if n == 0 then [] else [Ask(verb, path, 0.0)] + Repeat(verb, path, n - 1)
  }

  // ------------------------------------------------------------ decided by the path's own history

  /** Conditions that count across paths, unless they are such that they never or always hold. */
  predicate LocalWhen(w: When) {
    && (w.firstN.Some? ==> w.firstN.value == 0)
    && (w.everyNth.Some? ==> w.everyNth.value <= 1)
    && (w.maxTotal.Some? ==> w.maxTotal.value == 0)
  }

  predicate LocalRule(rule: Rule) {
    rule.stale.None? && (rule.when.Some? ==> LocalWhen(rule.when.value))
  }

  predicate LocalRules(rules: seq<Rule>) {
    forall i :: 0 <= i < |rules| ==> LocalRule(rules[i])
  }

  /** Two memories that a local rule cannot tell apart on this key. */
  predicate Agree(cfg: Config, key: string, a: Mem, b: Mem) {
    && |a.states| == |b.states| == |cfg.rules|
    && Count(a.perPath, key) == Count(b.perPath, key)
    && forall i :: 0 <= i < |cfg.rules| ==>
         Count(a.states[i].firedPerPath, key) == Count(b.states[i].firedPerPath, key)
  }

  lemma LocalWhenIsLocal(when: Option<When>, a: RuleState, b: RuleState, key: string, unit: real)
    requires when.Some? ==> LocalWhen(when.value)
    requires a.matched > 0 && b.matched > 0 && Count(a.firedPerPath, key) == Count(b.firedPerPath, key)
    ensures WhenHolds(when, a, key, unit) == WhenHolds(when, b, key, unit)
  {
  }

  lemma MatchedAgree(cfg: Config, i: nat, key: string, a: Mem, b: Mem)
    requires i < |cfg.rules| && Agree(cfg, key, a, b)
    ensures Agree(cfg, key, Matched(a, i), Matched(b, i))
  {
  }

  lemma RecordedAgree(cfg: Config, i: nat, verb: string, path: string, counter: nat, a: Mem, b: Mem)
    requires i < |cfg.rules| && Agree(cfg, Key(verb, path), a, b)
    ensures Agree(cfg, Key(verb, path), Recorded(a, i, cfg.rules[i], verb, path, counter),
                  Recorded(b, i, cfg.rules[i], verb, path, counter))
  {
  }

  lemma LocalTurn(cfg: Config, i: nat, verb: string, path: string, counter: nat, t: real, u: real, a: Mem, b: Mem)
    requires i < |cfg.rules| && LocalRule(cfg.rules[i]) && Agree(cfg, Key(verb, path), a, b)
    ensures |a.states| == |b.states| == |cfg.rules|
    ensures
      var x, y := TurnOf(cfg, i, verb, path, counter, t, a), TurnOf(cfg, i, verb, path, counter, u, b);
      x.latency == y.latency && x.action == y.action && Agree(cfg, Key(verb, path), x.mem, y.mem)
  {
    hide Covers, StaleAnswer, Agree, WhenHolds, Recorded, Key, InjectedAnswer;
    SameLength(cfg, Key(verb, path), a, b);
    if Covers(cfg.rules[i], verb, path) {
      var key, c, d := Key(verb, path), Matched(a, i), Matched(b, i);
      var unit := cfg.unit(Draw(cfg.seed, cfg.rules[i].name, verb, path, counter));
      MatchedAgree(cfg, i, key, a, b);
      AgreeAt(cfg, i, key, c, d);
      LocalWhenIsLocal(cfg.rules[i].when, c.states[i], d.states[i], key, unit);
      RecordedAgree(cfg, i, verb, path, counter, c, d);
    }
  }

  lemma AgreeAt(cfg: Config, i: nat, key: string, a: Mem, b: Mem)
    requires i < |cfg.rules| && Agree(cfg, key, a, b)
    ensures |a.states| == |b.states| == |cfg.rules|
    ensures Count(a.states[i].firedPerPath, key) == Count(b.states[i].firedPerPath, key)
  {
  }

  lemma {:induction false} LocalDecision(cfg: Config, i: nat, verb: string, path: string, counter: nat, t: real,
        u: real, latency: nat, a: Mem, b: Mem)
    requires i <= |cfg.rules| && LocalRules(cfg.rules) && Agree(cfg, Key(verb, path), a, b)
    ensures
      var x := DecideFrom(cfg, i, verb, path, counter, t, latency, a);
      var y := DecideFrom(cfg, i, verb, path, counter, u, latency, b);
      x.0 == y.0 && Agree(cfg, Key(verb, path), x.1, y.1)
    decreases |cfg.rules| - i
  {
    hide TurnOf, LocalRule, Agree;
    if i < |cfg.rules| {
      LocalTurn(cfg, i, verb, path, counter, t, u, a, b);
      var x, y := TurnOf(cfg, i, verb, path, counter, t, a), TurnOf(cfg, i, verb, path, counter, u, b);
      if x.action.None? {
        assert |x.mem.states| == |y.mem.states| == |cfg.rules| by {
          SameLength(cfg, Key(verb, path), x.mem, y.mem);
        }
        LocalDecision(cfg, i + 1, verb, path, counter, t, u, latency + x.latency, x.mem, y.mem);
      }
    }
  }

  lemma SameLength(cfg: Config, key: string, a: Mem, b: Mem)
    requires Agree(cfg, key, a, b)
    ensures |a.states| == |b.states| == |cfg.rules|
  {
  }

  lemma OtherTurn(cfg: Config, i: nat, verb: string, path: string, counter: nat, now: real, key: string, a: Mem, b: Mem)
    requires i < |cfg.rules| && Agree(cfg, key, a, b) && key != Key(verb, path)
    ensures Agree(cfg, key, TurnOf(cfg, i, verb, path, counter, now, a).mem, b)
  {
    hide Covers, StaleAnswer, WhenHolds;
  }

  lemma {:induction false} OtherDecision(cfg: Config, i: nat, verb: string, path: string, counter: nat, now: real,
        latency: nat, key: string, a: Mem, b: Mem)
    requires i <= |cfg.rules| == |a.states| && Agree(cfg, key, a, b) && key != Key(verb, path)
    ensures Agree(cfg, key, DecideFrom(cfg, i, verb, path, counter, now, latency, a).1, b)
    decreases |cfg.rules| - i
  {
    hide TurnOf, Agree;
    if i < |cfg.rules| {
      OtherTurn(cfg, i, verb, path, counter, now, key, a, b);
      var t := TurnOf(cfg, i, verb, path, counter, now, a);
      if t.action.None? {
        SameLength(cfg, key, t.mem, b);
        OtherDecision(cfg, i + 1, verb, path, counter, now, latency + t.latency, key, t.mem, b);
      }
    }
  }

  /** A method is a token (RFC 9110, section 9.1): it holds no space, so a key is one verb and one path. */
  lemma {:induction false} KeyIsInjective(v: string, p: string, w: string, q: string)
    requires ' ' !in v && ' ' !in w && Key(v, p) == Key(w, q)
    ensures v == w && p == q
  {
    if v == [] || w == [] {
      assert Key(v, p)[0] == Key(w, q)[0];
      FirstIsIn(v);
      FirstIsIn(w);
      assert Key(v, p)[1..] == p && Key(w, q)[1..] == q;
    } else {
      assert Key(v, p)[0] == v[0] && Key(w, q)[0] == w[0];
      assert Key(v, p)[1..] == Key(v[1..], p) && Key(w, q)[1..] == Key(w[1..], q);
      KeyIsInjective(v[1..], p, w[1..], q);
      assert [v[0]] + v[1..] == v && [w[0]] + w[1..] == w;
    }
  }

  predicate TokenVerbs(events: seq<Event>) {
    forall i :: 0 <= i < |events| ==> ' ' !in events[i].verb
  }

  lemma OtherEvent(cfg: Config, e: Event, verb: string, path: string, a: Mem, b: Mem)
    requires Agree(cfg, Key(verb, path), a, b) && ' ' !in e.verb && ' ' !in verb
    requires !(e.Ask? && e.verb == verb && e.path == path)
    ensures Agree(cfg, Key(verb, path), Next(cfg, a, e), b)
  {
    hide DecideFrom, Mutated, WindowOpen;
    if e.Ask? {
      if Key(e.verb, e.path) == Key(verb, path) {
        KeyIsInjective(e.verb, e.path, verb, path);
      }
      OtherDecision(cfg, 0, e.verb, e.path, Count(a.perPath, Key(e.verb, e.path)), e.now, 0, Key(verb, path),
                    Counted(a, e.verb, e.path), b);
    }
  }

  lemma OwnEvent(cfg: Config, verb: string, path: string, t: real, u: real, a: Mem, b: Mem)
    requires LocalRules(cfg.rules) && Agree(cfg, Key(verb, path), a, b)
    ensures Decided(cfg, verb, path, t, a).0 == Decided(cfg, verb, path, u, b).0
    ensures Agree(cfg, Key(verb, path), Decided(cfg, verb, path, t, a).1, Decided(cfg, verb, path, u, b).1)
  {
    hide DecideFrom, LocalRules;
    var key := Key(verb, path);
    LocalDecision(cfg, 0, verb, path, Count(a.perPath, key), t, u, 0, Counted(a, verb, path), Counted(b, verb, path));
  }

  lemma {:induction false} LocalFrom(cfg: Config, events: seq<Event>, verb: string, path: string, a: Mem, b: Mem)
    requires LocalRules(cfg.rules) && TokenVerbs(events) && ' ' !in verb && Agree(cfg, Key(verb, path), a, b)
    ensures Decisions(cfg, a, events, verb, path)
      == Decisions(cfg, b, Repeat(verb, path, Asked(events, verb, path)), verb, path)
  {
    hide Decided, Agree, LocalRules;
    if events != [] {
      var e := events[0];
      SameLength(cfg, Key(verb, path), a, b);
      if e.Ask? && e.verb == verb && e.path == path {
        var n := Asked(events[1..], verb, path);
        var alone := Repeat(verb, path, n + 1);
        assert alone[0] == Ask(verb, path, 0.0) && alone[1..] == Repeat(verb, path, n);
        OwnEvent(cfg, verb, path, e.now, 0.0, a, b);
        LocalFrom(cfg, events[1..], verb, path, Next(cfg, a, e), Next(cfg, b, alone[0]));
      } else {
        OtherEvent(cfg, e, verb, path, a, b);
        LocalFrom(cfg, events[1..], verb, path, Next(cfg, a, e), b);
      }
    }
  }

  /** What is decided for a verb and path is what would be if nothing else had ever happened. */
  ghost predicate IsLocal(cfg: Config) {
    forall events: seq<Event>, verb, path | TokenVerbs(events) && ' ' !in verb ::
      Decisions(cfg, Fresh(cfg), events, verb, path)
        == Decisions(cfg, Fresh(cfg), Repeat(verb, path, Asked(events, verb, path)), verb, path)
  }

  /**
   * Where no rule is stale and no condition counts across paths, every decision depends on the
   * seed and the path's own history alone: other requests, other answers and the clock are nothing.
   */
  lemma LocalRulesAreLocal(cfg: Config)
    requires LocalRules(cfg.rules)
    ensures IsLocal(cfg)
  {
    forall events: seq<Event>, verb, path | TokenVerbs(events) && ' ' !in verb
      ensures Decisions(cfg, Fresh(cfg), events, verb, path)
        == Decisions(cfg, Fresh(cfg), Repeat(verb, path, Asked(events, verb, path)), verb, path)
    {
      LocalFrom(cfg, events, verb, path, Fresh(cfg), Fresh(cfg));
    }
  }

  // ------------------------------------------------------------ conditions that count across paths

  /** A rule with a last word of its own: a status or a dropped connection. */
  predicate Faulting(rule: Rule) {
    rule.stale.None? && rule.inject.Some? && (rule.inject.value.reset || rule.inject.value.status.Some?)
  }

  predicate Holds(cfg: Config, mem: Mem, verb: string, path: string)
    requires |mem.states| == |cfg.rules| == 1
  {
    WhenHolds(cfg.rules[0].when, Matched(mem, 0).states[0], Key(verb, path),
              cfg.unit(Draw(cfg.seed, cfg.rules[0].name, verb, path, Count(mem.perPath, Key(verb, path)))))
  }

  lemma SoloDecision(cfg: Config, mem: Mem, verb: string, path: string, now: real)
    requires |mem.states| == |cfg.rules| == 1 && Faulting(cfg.rules[0]) && Covers(cfg.rules[0], verb, path)
    ensures
      var d := Decided(cfg, verb, path, now, mem);
      && (d.0.action == Pass <==> !Holds(cfg, mem, verb, path))
      && d.1.states[0].matched == mem.states[0].matched + 1
      && d.1.states[0].firedTotal == mem.states[0].firedTotal + if Holds(cfg, mem, verb, path) then 1 else 0
  {
    hide Covers, WhenHolds;
    var counter := Count(mem.perPath, Key(verb, path));
    var t := TurnOf(cfg, 0, verb, path, counter, now, Counted(mem, verb, path));
    assert DecideFrom(cfg, 1, verb, path, counter, now, t.latency, t.mem) == (Decision(t.latency, Pass), t.mem);
  }

  lemma {:induction false} DecisionsAppend(cfg: Config, mem: Mem, a: seq<Event>, b: seq<Event>, verb: string,
        path: string)
    requires |mem.states| == |cfg.rules|
    ensures Decisions(cfg, mem, a + b, verb, path)
      == Decisions(cfg, mem, a, verb, path) + Decisions(cfg, After(cfg, mem, a), b, verb, path)
    ensures Asked(a + b, verb, path) == Asked(a, verb, path) + Asked(b, verb, path)
    decreases |a|
  {
    hide Next, Decided;
    if a == [] {
      assert a + b == b;
    } else {
      assert (a + b)[1..] == a[1..] + b;
      DecisionsAppend(cfg, Next(cfg, mem, a[0]), a[1..], b, verb, path);
    }
  }

  lemma {:induction false} NoneAsked(cfg: Config, mem: Mem, verb: string, p: string, q: string, n: nat)
    requires |mem.states| == |cfg.rules| && p != q
    ensures Decisions(cfg, mem, Repeat(verb, p, n), verb, q) == [] && Asked(Repeat(verb, p, n), verb, q) == 0
    ensures TokenVerbs(Repeat(verb, p, n)) || ' ' in verb
    decreases n
  {
    hide Next, Decided;
    if n > 0 {
      NoneAsked(cfg, Next(cfg, mem, Ask(verb, p, 0.0)), verb, p, q, n - 1);
      assert Repeat(verb, p, n)[1..] == Repeat(verb, p, n - 1);
    }
  }

  /** After `n` requests on one path, a first request on another meets whatever they left behind. */
  lemma OneAmongMany(cfg: Config, verb: string, p: string, q: string, n: nat)
    requires p != q && ' ' !in verb && IsLocal(cfg)
    ensures Decided(cfg, verb, q, 0.0, After(cfg, Fresh(cfg), Repeat(verb, p, n))).0
      == Decided(cfg, verb, q, 0.0, Fresh(cfg)).0
  {
    hide Decided, Next;
    var before, last := Repeat(verb, p, n), [Ask(verb, q, 0.0)];
    DecisionsAppend(cfg, Fresh(cfg), before, last, verb, q);
    NoneAsked(cfg, Fresh(cfg), verb, p, q, n);
    assert TokenVerbs(before + last);
    var mem := After(cfg, Fresh(cfg), before);
    assert last[1..] == [];
    assert Decisions(cfg, mem, last, verb, q) == [Decided(cfg, verb, q, 0.0, mem).0];
    assert Asked(last, verb, q) == 1 && Repeat(verb, q, 1) == last;
    assert Decisions(cfg, Fresh(cfg), last, verb, q) == [Decided(cfg, verb, q, 0.0, Fresh(cfg)).0];
    assert Decisions(cfg, Fresh(cfg), before + last, verb, q) == Decisions(cfg, Fresh(cfg), last, verb, q);
    var met, alone := Decided(cfg, verb, q, 0.0, mem).0, Decided(cfg, verb, q, 0.0, Fresh(cfg)).0;
    assert [met] == [] + [met] == [alone];
    assert [met][0] == [alone][0];
  }

  lemma {:induction false} MatchedAfter(cfg: Config, mem: Mem, verb: string, p: string, n: nat)
    requires |mem.states| == |cfg.rules| == 1 && Faulting(cfg.rules[0]) && Covers(cfg.rules[0], verb, p)
    ensures After(cfg, mem, Repeat(verb, p, n)).states[0].matched == mem.states[0].matched + n
    decreases n
  {
    hide Decided, Holds, Covers;
    if n > 0 {
      SoloDecision(cfg, mem, verb, p, 0.0);
      MatchedAfter(cfg, Next(cfg, mem, Ask(verb, p, 0.0)), verb, p, n - 1);
      assert Repeat(verb, p, n)[1..] == Repeat(verb, p, n - 1);
    }
  }

  const ALWAYS := When(None, None, None, None, None)

  /** `first_n` counts a rule's matches on every path: it is local only when it never fires at all. */
  lemma FirstNIsLocalOnlyAtZero(cfg: Config, n: nat, verb: string, p: string, q: string)
    requires |cfg.rules| == 1 && Faulting(cfg.rules[0]) && cfg.rules[0].when == Some(ALWAYS.(firstN := Some(n)))
    requires Covers(cfg.rules[0], verb, p) && Covers(cfg.rules[0], verb, q) && p != q && ' ' !in verb
    ensures IsLocal(cfg) <==> n == 0
  {
    hide Covers, Decided;
    if n == 0 {
      LocalRulesAreLocal(cfg);
    } else if IsLocal(cfg) {
      OneAmongMany(cfg, verb, p, q, n);
      MatchedAfter(cfg, Fresh(cfg), verb, p, n);
      SoloDecision(cfg, After(cfg, Fresh(cfg), Repeat(verb, p, n)), verb, q, 0.0);
      SoloDecision(cfg, Fresh(cfg), verb, q, 0.0);
      assert false;
    }
  }

  /** `every_nth` too: it is local only when it always fires, or never. */
  lemma EveryNthIsLocalOnlyUpToOne(cfg: Config, n: nat, verb: string, p: string, q: string)
    requires |cfg.rules| == 1 && Faulting(cfg.rules[0]) && cfg.rules[0].when == Some(ALWAYS.(everyNth := Some(n)))
    requires Covers(cfg.rules[0], verb, p) && Covers(cfg.rules[0], verb, q) && p != q && ' ' !in verb
    ensures IsLocal(cfg) <==> n <= 1
  {
    hide Covers, Decided;
    if n <= 1 {
      LocalRulesAreLocal(cfg);
    } else if IsLocal(cfg) {
      OneAmongMany(cfg, verb, p, q, n - 1);
      MatchedAfter(cfg, Fresh(cfg), verb, p, n - 1);
      SoloDecision(cfg, After(cfg, Fresh(cfg), Repeat(verb, p, n - 1)), verb, q, 0.0);
      SoloDecision(cfg, Fresh(cfg), verb, q, 0.0);
      assert false;
    }
  }

  lemma {:induction false} FiredAfter(cfg: Config, mem: Mem, verb: string, p: string, n: nat, max: nat)
    requires |mem.states| == |cfg.rules| == 1 && Faulting(cfg.rules[0]) && Covers(cfg.rules[0], verb, p)
    requires cfg.rules[0].when == Some(ALWAYS.(maxTotal := Some(max))) && mem.states[0].firedTotal + n <= max
    ensures After(cfg, mem, Repeat(verb, p, n)).states[0].firedTotal == mem.states[0].firedTotal + n
    decreases n
  {
    hide Decided, Covers;
    if n > 0 {
      SoloDecision(cfg, mem, verb, p, 0.0);
      FiredAfter(cfg, Next(cfg, mem, Ask(verb, p, 0.0)), verb, p, n - 1, max);
      assert Repeat(verb, p, n)[1..] == Repeat(verb, p, n - 1);
    }
  }

  /** And `max_total`, which other paths can use up. */
  lemma MaxTotalIsLocalOnlyAtZero(cfg: Config, n: nat, verb: string, p: string, q: string)
    requires |cfg.rules| == 1 && Faulting(cfg.rules[0]) && cfg.rules[0].when == Some(ALWAYS.(maxTotal := Some(n)))
    requires Covers(cfg.rules[0], verb, p) && Covers(cfg.rules[0], verb, q) && p != q && ' ' !in verb
    ensures IsLocal(cfg) <==> n == 0
  {
    hide Covers, Decided;
    if n == 0 {
      LocalRulesAreLocal(cfg);
    } else if IsLocal(cfg) {
      OneAmongMany(cfg, verb, p, q, n);
      FiredAfter(cfg, Fresh(cfg), verb, p, n, n);
      SoloDecision(cfg, After(cfg, Fresh(cfg), Repeat(verb, p, n)), verb, q, 0.0);
      SoloDecision(cfg, Fresh(cfg), verb, q, 0.0);
      assert false;
    }
  }

  /** One unconditional stale rule that looks at this request and whose windows can open over its path. */
  ghost predicate Lags(cfg: Config, verb: string, path: string) {
    && |cfg.rules| == 1 && cfg.rules[0].when.None? && cfg.rules[0].stale.Some? && Covers(cfg.rules[0], verb, path)
    && var stale := cfg.rules[0].stale.value;
       StaleKey(stale.on, path).Some? && stale.forSecs > 0.0
  }

  /** A path a write to which opens this window: the path itself, or git's push beside it. */
  function WrittenPath(on: Trigger, path: string): string {
    if on.PushSameRepo? && RepoPrefix(path).Some? then RepoPrefix(path).value + "/git-receive-pack" else path
  }

  function Write(on: Trigger, path: string): Event {
    Seen("POST", WrittenPath(on, path), Answer(201, [], ""), 0.0)
  }

  lemma UnderThePrefix(path: string, x: string)
    requires RepoPrefix(path).Some? && '/' !in x
    ensures RepoPrefix(RepoPrefix(path).value + ("/" + x)) == RepoPrefix(path)
  {
    var p := PrefixSegments(Segments(path)).value;
    assert RepoPrefix(path).value == "/" + Join(p, '/');
    hide PrefixSegments, RepoPrefix, Segments, Join;
    PrefixIsFixed(path, [x]);
    JoinOneMore(p, x);
    assert RepoPrefix(path).value + ("/" + x) == "/" + Join(p + [x], '/');
  }

  lemma AppendedEnds(s: string, end: string)
    ensures EndsWith(s + end, end)
  {
  }

  lemma PushIsOfTheRepository(path: string)
    requires RepoPrefix(path).Some?
    ensures
      var w := RepoPrefix(path).value + "/git-receive-pack";
      RepoPrefix(w) == RepoPrefix(path) && EndsWith(w, "/git-receive-pack")
  {
    hide RepoPrefix, EndsWith;
    UnderThePrefix(path, "git-receive-pack");
    assert "/" + "git-receive-pack" == "/git-receive-pack";
    AppendedEnds(RepoPrefix(path).value, "/git-receive-pack");
  }

  lemma {:induction false} JoinOneMore(xs: seq<string>, x: string)
    requires |xs| >= 1
    ensures Join(xs + [x], '/') == Join(xs, '/') + "/" + x
  {
    if |xs| == 1 {
      assert (xs + [x])[1..] == [x];
      assert Join([x], '/') == x;
    } else {
      assert (xs + [x])[1..] == xs[1..] + [x];
      JoinOneMore(xs[1..], x);
    }
  }

  lemma WriteOpens(on: Trigger, path: string)
    requires StaleKey(on, path).Some?
    ensures Opens(Write(on, path), on, StaleKey(on, path).value)
  {
    hide RepoPrefix;
    if on.PushSameRepo? {
      PushIsOfTheRepository(path);
    }
  }

  /** A good read of the path is kept, and then a write opens the window. */
  ghost function ReadThenWritten(cfg: Config, on: Trigger, path: string): Mem {
    Next(cfg, Next(cfg, Fresh(cfg), Read(path)), Write(on, path))
  }

  function Read(path: string): Event {
    Seen("GET", path, Answer(200, [], ""), 0.0)
  }

  lemma LagsAfterAWrite(cfg: Config, verb: string, path: string)
    requires Lags(cfg, verb, path)
    ensures Decided(cfg, verb, path, 0.0, ReadThenWritten(cfg, cfg.rules[0].stale.value.on, path)).0.action != Pass
  {
    hide Covers, EndsWith, RepoPrefix, Mutated;
    var on := cfg.rules[0].stale.value.on;
    var seen := Next(cfg, Fresh(cfg), Read(path));
    assert seen.mutated == map[] && path in seen.snapshots;
    var mem := ReadThenWritten(cfg, on, path);
    WriteOpens(on, path);
    MutatedByOne(map[], Write(on, path), on, StaleKey(on, path).value);
    assert path in mem.snapshots;
    var t := TurnOf(cfg, 0, verb, path, Count(mem.perPath, Key(verb, path)), 0.0, Counted(mem, verb, path));
    assert t.action.Some? && t.action.value.ServeStale?;
  }

  lemma NothingLagsAtFirst(cfg: Config, verb: string, path: string)
    requires Lags(cfg, verb, path)
    ensures Decided(cfg, verb, path, 0.0, Fresh(cfg)).0.action == Pass
  {
    hide Covers, EndsWith, RepoPrefix;
    var t := TurnOf(cfg, 0, verb, path, 0, 0.0, Counted(Fresh(cfg), verb, path));
    assert t.action.None?;
    assert DecideFrom(cfg, 1, verb, path, 0, 0.0, t.latency, t.mem).0.action == Pass;
  }

  /** A stale rule is not local by its nature, whatever opens its windows: a write decides reads. */
  lemma StaleIsNotLocal(cfg: Config, verb: string, path: string)
    requires Lags(cfg, verb, path) && ' ' !in verb
    ensures !IsLocal(cfg)
  {
    var on := cfg.rules[0].stale.value.on;
    var before, ask := [Read(path), Write(on, path)], [Ask(verb, path, 0.0)];
    assert TokenVerbs(before + ask);
    NothingAsked(cfg, Fresh(cfg), Read(path), Write(on, path), verb, path);
    LagsAfterAWrite(cfg, verb, path);
    NothingLagsAtFirst(cfg, verb, path);
    hide Lags, Decided, Next, WrittenPath, ReadThenWritten;
    DecisionsAppend(cfg, Fresh(cfg), before, ask, verb, path);
    OneAsked(cfg, After(cfg, Fresh(cfg), before), verb, path);
    OneAsked(cfg, Fresh(cfg), verb, path);
    assert Decisions(cfg, Fresh(cfg), before + ask, verb, path)[0].action != Pass;
  }

  lemma NothingAsked(cfg: Config, mem: Mem, a: Event, b: Event, verb: string, path: string)
    requires |mem.states| == |cfg.rules| && a.Seen? && b.Seen?
    ensures After(cfg, mem, [a, b]) == Next(cfg, Next(cfg, mem, a), b)
    ensures Decisions(cfg, mem, [a, b], verb, path) == [] && Asked([a, b], verb, path) == 0
  {
    hide Next, Decided;
    assert [a, b][1..] == [b] && [b][1..] == [];
    var mid := Next(cfg, mem, a);
    assert After(cfg, mid, [b]) == After(cfg, Next(cfg, mid, b), []);
    assert Decisions(cfg, mid, [b], verb, path) == Decisions(cfg, Next(cfg, mid, b), [], verb, path);
    assert Asked([b], verb, path) == Asked([b][1..], verb, path);
    assert Asked([a, b], verb, path) == Asked([a, b][1..], verb, path);
  }

  lemma OneAsked(cfg: Config, mem: Mem, verb: string, path: string)
    requires |mem.states| == |cfg.rules|
    ensures Decisions(cfg, mem, [Ask(verb, path, 0.0)], verb, path) == [Decided(cfg, verb, path, 0.0, mem).0]
    ensures Asked([Ask(verb, path, 0.0)], verb, path) == 1 && Repeat(verb, path, 1) == [Ask(verb, path, 0.0)]
  {
    hide Next, Decided;
    var ask := [Ask(verb, path, 0.0)];
    assert ask[1..] == [];
    assert Decisions(cfg, Next(cfg, mem, ask[0]), ask[1..], verb, path) == [];
    assert Repeat(verb, path, 1) == ask + Repeat(verb, path, 0);
  }

  // ------------------------------------------------------------ what a stale answer is

  predicate GoodRead(e: Event, path: string, answer: Answer) {
    e.Seen? && IsRead(e.verb) && e.path == path && Good(e.answer.status) && e.answer == answer
  }

  /** A successful write that opens windows of this kind under this key. */
  predicate Opens(e: Event, on: Trigger, key: string) {
    && e.Seen? && !IsRead(e.verb) && Good(e.answer.status)
    && match on
       case SamePath => e.path == key
       case SameRepo => RepoPrefix(e.path) == Some(key)
       case PushSameRepo => RepoPrefix(e.path) == Some(key) && EndsWith(e.path, "/git-receive-pack")
  }

  lemma {:induction false} AfterAppend(cfg: Config, mem: Mem, a: seq<Event>, b: seq<Event>)
    requires |mem.states| == |cfg.rules|
    ensures After(cfg, mem, a + b) == After(cfg, After(cfg, mem, a), b)
    decreases |a|
  {
    hide Next;
    if a == [] {
      assert a + b == b;
    } else {
      assert (a + b)[1..] == a[1..] + b;
      AfterAppend(cfg, Next(cfg, mem, a[0]), a[1..], b);
    }
  }

  lemma LastEvent(cfg: Config, events: seq<Event>)
    requires events != []
    ensures After(cfg, Fresh(cfg), events)
      == Next(cfg, After(cfg, Fresh(cfg), events[..|events| - 1]), events[|events| - 1])
  {
    hide Next;
    var n := |events| - 1;
    assert events == events[..n] + [events[n]];
    AfterAppend(cfg, Fresh(cfg), events[..n], [events[n]]);
    assert [events[n]][1..] == [];
  }

  lemma {:induction false} DecidingKeepsTheStore(cfg: Config, i: nat, verb: string, path: string, counter: nat,
        now: real, latency: nat, mem: Mem)
    requires i <= |cfg.rules| == |mem.states|
    ensures
      var left := DecideFrom(cfg, i, verb, path, counter, now, latency, mem).1;
      left.snapshots == mem.snapshots && left.mutated == mem.mutated && left.perPath == mem.perPath
    decreases |cfg.rules| - i
  {
    hide Covers, WhenHolds, StaleAnswer;
    if i < |cfg.rules| {
      var t := TurnOf(cfg, i, verb, path, counter, now, mem);
      assert t.mem.snapshots == mem.snapshots && t.mem.mutated == mem.mutated && t.mem.perPath == mem.perPath;
      assert |t.mem.states| == |cfg.rules|;
      if t.action.None? {
        DecidingKeepsTheStore(cfg, i + 1, verb, path, counter, now, latency + t.latency, t.mem);
      }
    }
  }

  lemma AskingKeepsTheStore(cfg: Config, mem: Mem, e: Event)
    requires |mem.states| == |cfg.rules| && e.Ask?
    ensures Next(cfg, mem, e).snapshots == mem.snapshots && Next(cfg, mem, e).mutated == mem.mutated
    ensures Next(cfg, mem, e).perPath == Counted(mem, e.verb, e.path).perPath
  {
    hide DecideFrom;
    DecidingKeepsTheStore(cfg, 0, e.verb, e.path, Count(mem.perPath, Key(e.verb, e.path)), e.now, 0,
                          Counted(mem, e.verb, e.path));
  }

  /** The last write that opened windows of this kind under this key. */
  function LastOpening(events: seq<Event>, on: Trigger, key: string): (r: Option<nat>)
    ensures r.Some? ==> r.value < |events| && Opens(events[r.value], on, key)
    ensures forall j :: (if r.Some? then r.value + 1 else 0) <= j < |events| ==> !Opens(events[j], on, key)
  {
    if events == [] then None
    else
      var n := |events| - 1;
      if Opens(events[n], on, key) then Some(n) else LastOpening(events[..n], on, key)
  }

  lemma MutatedByOne(mutated: map<(Trigger, string), real>, e: Event, on: Trigger, key: string)
    requires e.Seen? && !IsRead(e.verb) && Good(e.answer.status)
    ensures
      var m := Mutated(mutated, e.path, e.now);
      if Opens(e, on, key) then (on, key) in m && m[(on, key)] == e.now
      else ((on, key) in m <==> (on, key) in mutated) && ((on, key) in m ==> m[(on, key)] == mutated[(on, key)])
  {
    hide RepoPrefix, EndsWith;
  }

  lemma NextMutated(cfg: Config, mem: Mem, e: Event, on: Trigger, key: string)
    requires |mem.states| == |cfg.rules|
    ensures
      var m := Next(cfg, mem, e).mutated;
      if Opens(e, on, key) then (on, key) in m && m[(on, key)] == e.now
      else ((on, key) in m <==> (on, key) in mem.mutated) && ((on, key) in m ==> m[(on, key)] == mem.mutated[(on, key)])
  {
    hide Mutated, WindowOpen, RepoPrefix, EndsWith, Decided;
    if e.Ask? {
      AskingKeepsTheStore(cfg, mem, e);
    } else if !IsRead(e.verb) && Good(e.answer.status) {
      MutatedByOne(mem.mutated, e, on, key);
    }
  }

  lemma {:induction false} MutatedIsLastOpening(cfg: Config, events: seq<Event>, on: Trigger, key: string)
    ensures
      var m, last := After(cfg, Fresh(cfg), events).mutated, LastOpening(events, on, key);
      ((on, key) in m <==> last.Some?) && (last.Some? ==> m[(on, key)] == events[last.value].now)
    decreases |events|
  {
    hide Next, Opens;
    if events != [] {
      var n := |events| - 1;
      MutatedIsLastOpening(cfg, events[..n], on, key);
      LastEvent(cfg, events);
      NextMutated(cfg, After(cfg, Fresh(cfg), events[..n]), events[n], on, key);
    }
  }

  lemma {:induction false} LastOpeningOfPart(events: seq<Event>, on: Trigger, key: string, i: nat)
    requires i <= |events| && LastOpening(events, on, key).Some? && LastOpening(events, on, key).value < i
    ensures LastOpening(events[..i], on, key) == LastOpening(events, on, key)
    decreases |events|
  {
    hide Opens;
    if i == |events| {
      assert events[..i] == events;
    } else {
      var n := |events| - 1;
      assert events[..n][..i] == events[..i];
      LastOpeningOfPart(events[..n], on, key, i);
    }
  }

  /** Where a snapshot comes from: a good read of that path, taken while no window covered it. */
  lemma {:induction false} SnapshotIsARead(cfg: Config, events: seq<Event>, path: string) returns (i: nat)
    requires path in After(cfg, Fresh(cfg), events).snapshots
    ensures i < |events| && GoodRead(events[i], path, After(cfg, Fresh(cfg), events).snapshots[path])
    ensures !WindowOpen(cfg.rules, After(cfg, Fresh(cfg), events[..i]).mutated, path, events[i].now)
    decreases |events|
  {
    hide Mutated, WindowOpen, Decided;
    var n := |events| - 1;
    var before := After(cfg, Fresh(cfg), events[..n]);
    LastEvent(cfg, events);
    if GoodRead(events[n], path, After(cfg, Fresh(cfg), events).snapshots[path])
      && !WindowOpen(cfg.rules, before.mutated, path, events[n].now) {
      i := n;
    } else {
      if events[n].Ask? {
        AskingKeepsTheStore(cfg, before, events[n]);
      }
      i := SnapshotIsARead(cfg, events[..n], path);
      assert events[..n][..i] == events[..i];
    }
  }

  lemma {:induction false} CountsAsked(cfg: Config, mem: Mem, events: seq<Event>, verb: string, path: string)
    requires |mem.states| == |cfg.rules| && TokenVerbs(events) && ' ' !in verb
    ensures Count(After(cfg, mem, events).perPath, Key(verb, path))
      == Count(mem.perPath, Key(verb, path)) + Asked(events, verb, path)
    decreases |events|
  {
    hide Mutated, WindowOpen, Decided, Key;
    if events != [] {
      var e := events[0];
      if e.Ask? {
        AskingKeepsTheStore(cfg, mem, e);
        if Key(e.verb, e.path) == Key(verb, path) {
          KeyIsInjective(e.verb, e.path, verb, path);
        }
      }
      CountsAsked(cfg, Next(cfg, mem, e), events[1..], verb, path);
    }
  }

  /**
   * The counter that seeds every draw is right: it is the number of requests of that very verb and path
   * since the engine was made, so no two of them draw alike for the same rule but by chance.
   */
  lemma PathCountersAreRight(cfg: Config, events: seq<Event>, verb: string, path: string)
    requires TokenVerbs(events) && ' ' !in verb
    ensures Count(After(cfg, Fresh(cfg), events).perPath, Key(verb, path)) == Asked(events, verb, path)
  {
    CountsAsked(cfg, Fresh(cfg), events, verb, path);
  }

  predicate InOrder(events: seq<Event>, now: real) {
    && (forall i, j :: 0 <= i < j < |events| ==> events[i].now <= events[j].now)
    && (forall i :: 0 <= i < |events| ==> events[i].now <= now)
  }

  /** One read, then the write that opened the window, which no other has renewed since. */
  predicate Predates(events: seq<Event>, path: string, answer: Answer, on: Trigger, key: string, forSecs: real,
        now: real, i: nat, j: nat)
  {
    && i < j < |events| && GoodRead(events[i], path, answer) && Opens(events[j], on, key)
    && now - events[j].now < forSecs
    && forall k :: j < k < |events| ==> !Opens(events[k], on, key)
  }

  /** A window open now was open at every moment since it was last opened. */
  lemma StillOpen(cfg: Config, events: seq<Event>, r: nat, path: string, now: real, i: nat)
    requires InOrder(events, now) && r < |cfg.rules| && cfg.rules[r].stale.Some? && i < |events|
    requires Open(After(cfg, Fresh(cfg), events).mutated, cfg.rules[r].stale.value, path, now)
    requires
      var on, key := cfg.rules[r].stale.value.on, StaleKey(cfg.rules[r].stale.value.on, path).value;
      LastOpening(events, on, key).Some? ==> LastOpening(events, on, key).value < i
    ensures WindowOpen(cfg.rules, After(cfg, Fresh(cfg), events[..i]).mutated, path, events[i].now)
  {
    hide Next, StaleKey;
    var stale := cfg.rules[r].stale.value;
    var key := StaleKey(stale.on, path).value;
    MutatedIsLastOpening(cfg, events, stale.on, key);
    LastOpeningOfPart(events, stale.on, key, i);
    MutatedIsLastOpening(cfg, events[..i], stale.on, key);
  }

  lemma SnapshotPredatesTheWrite(cfg: Config, events: seq<Event>, r: nat, path: string, now: real)
    requires InOrder(events, now) && r < |cfg.rules| && cfg.rules[r].stale.Some?
    requires Open(After(cfg, Fresh(cfg), events).mutated, cfg.rules[r].stale.value, path, now)
    requires path in After(cfg, Fresh(cfg), events).snapshots
    ensures IsOlder(events, path, After(cfg, Fresh(cfg), events).snapshots[path], cfg.rules[r].stale.value, now)
  {
    hide Next, StaleKey;
    var mem, stale := After(cfg, Fresh(cfg), events), cfg.rules[r].stale.value;
    var key := StaleKey(stale.on, path).value;
    var i := SnapshotIsARead(cfg, events, path);
    MutatedIsLastOpening(cfg, events, stale.on, key);
    var j := LastOpening(events, stale.on, key).value;
    if i > j {
      StillOpen(cfg, events, r, path, now, i);
      assert false;
    }
    assert i != j;
    assert Predates(events, path, mem.snapshots[path], stale.on, key, stale.forSecs, now, i, j);
  }

  /** What is served as stale is what one covering stale rule answers from the memory as it was asked. */
  lemma {:induction false} StaleComesFromARule(cfg: Config, i: nat, verb: string, path: string, counter: nat, now: real,
        latency: nat, mem: Mem)
    returns (r: nat)
    requires i <= |cfg.rules| == |mem.states|
    requires DecideFrom(cfg, i, verb, path, counter, now, latency, mem).0.action.ServeStale?
    ensures i <= r < |cfg.rules| && cfg.rules[r].stale.Some? && Covers(cfg.rules[r], verb, path)
    ensures StaleAnswer(mem, path, cfg.rules[r].stale.value, now)
      == Some(DecideFrom(cfg, i, verb, path, counter, now, latency, mem).0.action.answer)
    decreases |cfg.rules| - i
  {
    hide Covers, WhenHolds, Open, InjectedAnswer;
    assert i < |cfg.rules|;
    var t := TurnOf(cfg, i, verb, path, counter, now, mem);
    if t.action.Some? {
      r := i;
    } else {
      assert t.mem.snapshots == mem.snapshots && t.mem.mutated == mem.mutated && |t.mem.states| == |cfg.rules|;
      r := StaleComesFromARule(cfg, i + 1, verb, path, counter, now, latency + t.latency, t.mem);
    }
  }

  lemma ServedByARule(cfg: Config, verb: string, path: string, now: real, mem: Mem) returns (r: nat)
    requires |mem.states| == |cfg.rules| && Decided(cfg, verb, path, now, mem).0.action.ServeStale?
    ensures r < |cfg.rules| && cfg.rules[r].stale.Some? && Covers(cfg.rules[r], verb, path)
    ensures StaleAnswer(mem, path, cfg.rules[r].stale.value, now)
      == Some(Decided(cfg, verb, path, now, mem).0.action.answer)
  {
    hide DecideFrom, Covers;
    r := StaleComesFromARule(cfg, 0, verb, path, Count(mem.perPath, Key(verb, path)), now, 0, Counted(mem, verb, path));
  }

  /** A 2xx read of the path from before the write that opened this rule's window, unrenewed since. */
  ghost predicate IsOlder(events: seq<Event>, path: string, answer: Answer, stale: Stale, now: real) {
    && StaleKey(stale.on, path).Some?
    && exists i, j ::
         Predates(events, path, answer, stale.on, StaleKey(stale.on, path).value, stale.forSecs, now, i, j)
  }

  /** What the r-th rule, a stale one, may serve: its own body, an older read, or, where none is kept, a 404. */
  ghost predicate MayServe(cfg: Config, events: seq<Event>, verb: string, path: string, answer: Answer, r: nat,
        now: real)
  {
    && r < |cfg.rules| && cfg.rules[r].stale.Some? && Covers(cfg.rules[r], verb, path)
    && var stale := cfg.rules[r].stale.value;
       if stale.body.Some? then answer == Answer(200, JSON, stale.body.value)
       else if path in After(cfg, Fresh(cfg), events).snapshots then IsOlder(events, path, answer, stale, now)
       else stale.missingAs.NotFound? && answer == STALE_NOT_FOUND
  }

  /**
   * Stale answers predate the write: in every run, what is served as stale comes from a rule that
   * covers the request, and unless the rule brings a body of its own it is a 2xx read of that path
   * observed before the write whose window it is served under, or a 404 where no read is kept.
   */
  lemma StaleAnswersPredateTheWrite(cfg: Config, events: seq<Event>, verb: string, path: string, now: real)
    requires InOrder(events, now)
    requires Decided(cfg, verb, path, now, After(cfg, Fresh(cfg), events)).0.action.ServeStale?
    ensures
      var answer := Decided(cfg, verb, path, now, After(cfg, Fresh(cfg), events)).0.action.answer;
      exists r :: MayServe(cfg, events, verb, path, answer, r, now)
  {
    hide Next, StaleKey, Covers, Decided, IsOlder;
    var mem := After(cfg, Fresh(cfg), events);
    var r := ServedByARule(cfg, verb, path, now, mem);
    if cfg.rules[r].stale.value.body.None? && path in mem.snapshots {
      SnapshotPredatesTheWrite(cfg, events, r, path, now);
    }
    assert MayServe(cfg, events, verb, path, Decided(cfg, verb, path, now, mem).0.action.answer, r, now);
  }

  /** A write of this run opens windows of this rule over the path. */
  predicate OpensFor(e: Event, stale: Stale, path: string) {
    StaleKey(stale.on, path).Some? && Opens(e, stale.on, StaleKey(stale.on, path).value)
  }

  /** Some rule's time has not passed since a write that opened its window over the path. */
  predicate OpenedLately(rules: seq<Rule>, events: seq<Event>, path: string, now: real) {
    exists r, j :: 0 <= r < |rules| && 0 <= j < |events| && rules[r].stale.Some?
      && OpensFor(events[j], rules[r].stale.value, path) && now - events[j].now < rules[r].stale.value.forSecs
  }

  lemma OpenMeans(cfg: Config, events: seq<Event>, stale: Stale, path: string, now: real)
    requires InOrder(events, now)
    ensures Open(After(cfg, Fresh(cfg), events).mutated, stale, path, now) <==>
      exists j :: 0 <= j < |events| && OpensFor(events[j], stale, path) && now - events[j].now < stale.forSecs
  {
    hide Next, Opens, StaleKey;
    if StaleKey(stale.on, path).Some? {
      var key := StaleKey(stale.on, path).value;
      MutatedIsLastOpening(cfg, events, stale.on, key);
      var last := LastOpening(events, stale.on, key);
      if last.Some? {
        assert OpensFor(events[last.value], stale, path);
        forall j | 0 <= j < |events| && OpensFor(events[j], stale, path)
          ensures events[j].now <= events[last.value].now
        {
          assert j <= last.value;
        }
      }
    }
  }

  /** The windows the engine holds open are those of the run's own writes that are not past their time. */
  lemma WindowsAreOfTheRun(cfg: Config, events: seq<Event>, path: string, now: real)
    requires InOrder(events, now)
    ensures WindowOpen(cfg.rules, After(cfg, Fresh(cfg), events).mutated, path, now)
      <==> OpenedLately(cfg.rules, events, path, now)
  {
    hide Open, Next, OpensFor;
    forall r | 0 <= r < |cfg.rules| && cfg.rules[r].stale.Some?
      ensures Open(After(cfg, Fresh(cfg), events).mutated, cfg.rules[r].stale.value, path, now) <==>
        exists j :: 0 <= j < |events| && OpensFor(events[j], cfg.rules[r].stale.value, path)
                    && now - events[j].now < cfg.rules[r].stale.value.forSecs
    {
      OpenMeans(cfg, events, cfg.rules[r].stale.value, path, now);
    }
  }

  /** A good read of the path that no window covered: the store keeps it. */
  predicate Keeps(rules: seq<Rule>, events: seq<Event>, i: nat, path: string)
    requires i < |events|
  {
    var e := events[i];
    && e.Seen? && IsRead(e.verb) && e.path == path && Good(e.answer.status)
    && !OpenedLately(rules, events[..i], path, e.now)
  }

  /** The last of them. */
  function LastKept(rules: seq<Rule>, events: seq<Event>, path: string): (r: Option<nat>)
    ensures r.Some? ==> r.value < |events| && events[r.value].Seen?
  {
    if events == [] then None
    else
      var n := |events| - 1;
      if Keeps(rules, events, n, path) then Some(n) else LastKept(rules, events[..n], path)
  }

  /** What is kept for a path is the last good read of it that no window covered, and nothing if there is none. */
  lemma {:induction false} KeptIsTheLastRead(cfg: Config, events: seq<Event>, path: string, now: real)
    requires InOrder(events, now)
    ensures
      var kept, last := After(cfg, Fresh(cfg), events).snapshots, LastKept(cfg.rules, events, path);
      (path in kept <==> last.Some?) && (last.Some? ==> kept[path] == events[last.value].answer)
    decreases |events|
  {
    hide Mutated, WindowOpen, Decided, OpenedLately;
    if events != [] {
      var n := |events| - 1;
      var before := After(cfg, Fresh(cfg), events[..n]);
      KeptIsTheLastRead(cfg, events[..n], path, events[n].now);
      LastEvent(cfg, events);
      WindowsAreOfTheRun(cfg, events[..n], path, events[n].now);
      if events[n].Ask? {
        AskingKeepsTheStore(cfg, before, events[n]);
      }
    }
  }

  /** A write of the run opened this rule's window over the path, and its time has not passed. */
  predicate Lagging(events: seq<Event>, stale: Stale, path: string, now: real) {
    exists j :: 0 <= j < |events| && OpensFor(events[j], stale, path) && now - events[j].now < stale.forSecs
  }

  /**
   * What a stale rule answers, told by the run alone. While its window is open: its own body; else the
   * last read that was kept; else, if it says so, that nothing was found. It has nothing to say
   * otherwise.
   */
  lemma StaleAnswersByTheRun(cfg: Config, events: seq<Event>, stale: Stale, path: string, now: real)
    requires InOrder(events, now)
    ensures StaleAnswer(After(cfg, Fresh(cfg), events), path, stale, now).Some? <==>
      && Lagging(events, stale, path, now)
      && (stale.body.Some? || LastKept(cfg.rules, events, path).Some? || stale.missingAs.NotFound?)
    ensures
      var answer := StaleAnswer(After(cfg, Fresh(cfg), events), path, stale, now);
      var last := LastKept(cfg.rules, events, path);
      answer.Some? ==>
        && (stale.body.Some? ==> answer.value == Answer(200, JSON, stale.body.value))
        && (stale.body.None? && last.Some? ==> answer.value == events[last.value].answer)
        && (stale.body.None? && last.None? ==> answer.value == STALE_NOT_FOUND && answer.value.status == 404)
  {
    hide Open, Next, OpensFor, LastKept;
    KeptIsTheLastRead(cfg, events, path, now);
    OpenMeans(cfg, events, stale, path, now);
  }

  /**
   * So once every rule's time has passed since the last write that could open its window over a
   * path, no request for it is served anything stale.
   */
  lemma NothingStaleOnceElapsed(cfg: Config, events: seq<Event>, verb: string, path: string, now: real)
    requires InOrder(events, now) && !OpenedLately(cfg.rules, events, path, now)
    ensures !Decided(cfg, verb, path, now, After(cfg, Fresh(cfg), events)).0.action.ServeStale?
  {
    hide Next, Decided, OpenedLately, WindowOpen;
    var mem := After(cfg, Fresh(cfg), events);
    WindowsAreOfTheRun(cfg, events, path, now);
    if Decided(cfg, verb, path, now, mem).0.action.ServeStale? {
      ServedUnderAWindow(cfg, verb, path, now, mem);
    }
  }

  lemma ServedUnderAWindow(cfg: Config, verb: string, path: string, now: real, mem: Mem)
    requires |mem.states| == |cfg.rules| && Decided(cfg, verb, path, now, mem).0.action.ServeStale?
    ensures WindowOpen(cfg.rules, mem.mutated, path, now)
  {
    hide Open, Decided, Covers;
    var r := ServedByARule(cfg, verb, path, now, mem);
    assert Open(mem.mutated, cfg.rules[r].stale.value, path, now);
  }

  /** Reads forwarded while a window covers the path never replace what it is served from. */
  lemma {:induction false} CoveredReadsChangeNothing(cfg: Config, events: seq<Event>, n: nat, path: string)
    requires n <= |events|
    requires forall k :: n <= k < |events| && events[k].Seen? && events[k].path == path && IsRead(events[k].verb) ==>
      WindowOpen(cfg.rules, After(cfg, Fresh(cfg), events[..k]).mutated, path, events[k].now)
    ensures
      var a, b := After(cfg, Fresh(cfg), events[..n]).snapshots, After(cfg, Fresh(cfg), events).snapshots;
      (path in a <==> path in b) && (path in a ==> a[path] == b[path])
    decreases |events|
  {
    hide Mutated, WindowOpen, Decided;
    if n == |events| {
      assert events[..n] == events;
    } else {
      var m := |events| - 1;
      var before := After(cfg, Fresh(cfg), events[..m]);
      LastEvent(cfg, events);
      if events[m].Ask? {
        AskingKeepsTheStore(cfg, before, events[m]);
      }
      assert events[..m][..n] == events[..n];
      forall k | n <= k < m && events[..m][k].Seen? && events[..m][k].path == path && IsRead(events[..m][k].verb)
        ensures WindowOpen(cfg.rules, After(cfg, Fresh(cfg), events[..m][..k]).mutated, path, events[..m][k].now)
      {
        assert events[..m][..k] == events[..k];
      }
      CoveredReadsChangeNothing(cfg, events[..m], n, path);
    }
  }
}
