/** One-time initialisation per key: cells shared by whoever asks, and what any interleaving keeps. */
module Keyed {
  import opened Text

  type Cell = nat
  type Task = nat

  /** Where a caller of `get_or_try_init` has got to. */
  datatype Progress<V> = Waiting(cell: Cell) | Running(cell: Cell) | Got(cell: Cell, value: V) | Failed(cell: Cell)

  /** A `set` under way: it holds a cell, has tried to put its value there, or has found it empty still. */
  datatype Phase = ToTry | ToCheck | ToReplace

  datatype Setting<K, V> = Setting(key: K, value: V, cell: Cell, phase: Phase)

  /**
   * `cells` is the map under the mutex, `values` what each cell ever made holds, `runs` how many
   * initialisers have succeeded on each cell, `sets` the calls of `set` that have not returned.
   */
  datatype State<!K, V> = State(
    cells: map<K, Cell>,
    values: seq<Option<V>>,
    keys: seq<K>,
    runs: seq<nat>,
    tasks: map<Task, Progress<V>>,
    sets: map<Task, Setting<K, V>>)

  /** `set` takes the mutex to get the cell and again to replace it; between, anything may happen. */
  datatype Step<K, V> =
    | Ask(task: Task, key: K)
    | Begin(task: Task)
    | Succeed(task: Task, value: V)
    | Fail(task: Task)
    | Wake(task: Task)
    | SetHold(setter: Task, key: K, value: V)
    | SetTry(setter: Task)
    | SetCheck(setter: Task)
    | SetReplace(setter: Task)
    | Invalidate(gone: set<K>)

  function Fresh<K, V>(): State<K, V> {
    State(map[], [], [], [], map[], map[])
  }

  /** Somebody's initialiser is running on this cell. */
  ghost predicate Busy<K, V>(s: State<K, V>, c: Cell) {
    exists t :: t in s.tasks && s.tasks[t] == Running(c)
  }

  function WithCell<K, V>(s: State<K, V>, key: K): (r: State<K, V>)
    ensures key in r.cells
  {
    if key in s.cells then s else WithNewCell(s, key)
  }

  /** An empty cell for the key, whatever it had. */
  function WithNewCell<K, V>(s: State<K, V>, key: K): State<K, V> {
    s.(cells := s.cells[key := |s.values|], values := s.values + [None], keys := s.keys + [key], runs := s.runs + [0])
  }

  predicate SetIsAt<K, V>(s: State<K, V>, x: Task, phase: Phase) {
    x in s.sets && s.sets[x].phase == phase && s.sets[x].cell < |s.values|
  }

  ghost predicate Enabled<K, V>(s: State<K, V>, step: Step<K, V>) {
    match step
    case Ask(t, _) => t !in s.tasks
    case Begin(t) =>
      && t in s.tasks && s.tasks[t].Waiting? && s.tasks[t].cell < |s.values|
      && s.values[s.tasks[t].cell].None? && !Busy(s, s.tasks[t].cell)
    case Succeed(t, _) => t in s.tasks && s.tasks[t].Running? && s.tasks[t].cell < |s.values| == |s.runs|
    case Fail(t) => t in s.tasks && s.tasks[t].Running?
    case Wake(t) =>
      t in s.tasks && s.tasks[t].Waiting? && s.tasks[t].cell < |s.values| && s.values[s.tasks[t].cell].Some?
    case SetHold(x, _, _) => x !in s.sets
    case SetTry(x) => SetIsAt(s, x, ToTry)
    case SetCheck(x) => SetIsAt(s, x, ToCheck)
    case SetReplace(x) => SetIsAt(s, x, ToReplace)
    case Invalidate(_) => true
  }

  /** A value goes into a cell that holds none and that nobody is initialising. */
  ghost function Filled<K, V>(s: State<K, V>, c: Cell, v: V): State<K, V> {
    if c < |s.values| && s.values[c].None? && !Busy(s, c) then s.(values := s.values[c := Some(v)]) else s
  }

  /** `set` with nothing in between: an empty cell that does not take the value is replaced by another. */
  ghost function AfterSet<K, V>(s: State<K, V>, key: K, v: V): State<K, V> {
    var made := WithCell(s, key);
    var filled := Filled(made, made.cells[key], v);
    var c := filled.cells[key];
    if c < |filled.values| && filled.values[c].None? then WithNewCell(filled, key) else filled
  }

  ghost function Next<K, V>(s: State<K, V>, step: Step<K, V>): State<K, V>
    requires Enabled(s, step)
  {
    match step
    case Ask(t, key) =>
      var made := WithCell(s, key);
      made.(tasks := s.tasks[t := Waiting(made.cells[key])])
    case Begin(t) => s.(tasks := s.tasks[t := Running(s.tasks[t].cell)])
    case Succeed(t, v) =>
      var c := s.tasks[t].cell;
      s.(tasks := s.tasks[t := Got(c, v)], values := s.values[c := Some(v)], runs := s.runs[c := s.runs[c] + 1])
    case Fail(t) => s.(tasks := s.tasks[t := Failed(s.tasks[t].cell)])
    case Wake(t) => s.(tasks := s.tasks[t := Got(s.tasks[t].cell, s.values[s.tasks[t].cell].value)])
    case SetHold(x, key, v) =>
      var made := WithCell(s, key);
      made.(sets := s.sets[x := Setting(key, v, made.cells[key], ToTry)])
    case SetTry(x) =>
      Filled(s, s.sets[x].cell, s.sets[x].value).(sets := s.sets[x := s.sets[x].(phase := ToCheck)])
    case SetCheck(x) =>
      if s.values[s.sets[x].cell].None? then s.(sets := s.sets[x := s.sets[x].(phase := ToReplace)])
      else s.(sets := s.sets - {x})
    case SetReplace(x) => WithNewCell(s, s.sets[x].key).(sets := s.sets - {x})
    case Invalidate(gone) => s.(cells := s.cells - gone)
  }

  // ------------------------------------------------------------ what every interleaving keeps

  ghost predicate Sound<K, V>(s: State<K, V>) {
    && |s.values| == |s.keys| == |s.runs|
    && (forall k :: k in s.cells ==> s.cells[k] < |s.values| && s.keys[s.cells[k]] == k)
    && (forall x :: x in s.sets ==> s.sets[x].cell < |s.values| && s.keys[s.sets[x].cell] == s.sets[x].key)
    && (forall t :: t in s.tasks ==> s.tasks[t].cell < |s.values|)
    && (forall t :: t in s.tasks && s.tasks[t].Running? ==> s.values[s.tasks[t].cell].None?)
    && (forall t, u :: t in s.tasks && u in s.tasks && s.tasks[t].Running? && s.tasks[u] == s.tasks[t] ==> t == u)
    && (forall t :: t in s.tasks && s.tasks[t].Got? ==> s.values[s.tasks[t].cell] == Some(s.tasks[t].value))
    && (forall c :: 0 <= c < |s.runs| ==> s.runs[c] <= 1 && (s.runs[c] == 1 ==> s.values[c].Some?))
  }

  lemma WithCellKeepsSound<K, V>(s: State<K, V>, key: K)
    requires Sound(s)
    ensures Sound(WithCell(s, key))
  {
  }

  lemma FilledKeepsSound<K, V>(s: State<K, V>, c: Cell, v: V)
    requires Sound(s)
    ensures Sound(Filled(s, c, v))
  {
    if c < |s.values| && s.values[c].None? && !Busy(s, c) {
      forall t | t in s.tasks && s.tasks[t].Running? ensures s.tasks[t].cell != c {
        assert s.tasks[t] == Running(s.tasks[t].cell);
      }
    }
  }

  lemma NewCellKeepsSound<K, V>(s: State<K, V>, key: K)
    requires Sound(s)
    ensures Sound(WithNewCell(s, key))
  {
  }

  lemma HoldKeepsSound<K, V>(s: State<K, V>, x: Task, key: K, v: V)
    requires Sound(s) && x !in s.sets
    ensures Sound(Next(s, SetHold(x, key, v)))
  {
    hide WithCell, WithNewCell;
    WithCellKeepsSound(s, key);
    CellsKeepTasks(s, key);
  }

  lemma TryKeepsSound<K, V>(s: State<K, V>, x: Task)
    requires Sound(s) && Enabled(s, SetTry(x))
    ensures Sound(Next(s, SetTry(x)))
  {
    hide Filled;
    FilledKeepsSound(s, s.sets[x].cell, s.sets[x].value);
    FilledFillsOnly(s, s.sets[x].cell, s.sets[x].value);
  }

  lemma SetStepKeepsSound<K, V>(s: State<K, V>, step: Step<K, V>)
    requires Sound(s) && Enabled(s, step) && (step.SetHold? || step.SetTry? || step.SetCheck? || step.SetReplace?)
    ensures Sound(Next(s, step))
  {
    match step
    case SetHold(x, key, v) => HoldKeepsSound(s, x, key, v);
    case SetTry(x) => TryKeepsSound(s, x);
    case SetCheck(_) =>
    case SetReplace(x) => NewCellKeepsSound(s, s.sets[x].key);
  }

  lemma FilledFillsOnly<K, V>(s: State<K, V>, c: Cell, v: V)
    ensures Filled(s, c, v) == s.(values := Filled(s, c, v).values) && |Filled(s, c, v).values| == |s.values|
  {
  }

  lemma ForgettingKeepsSound<K, V>(s: State<K, V>, gone: set<K>)
    requires Sound(s)
    ensures Sound(s.(cells := s.cells - gone))
  {
  }

  lemma AskKeepsSound<K, V>(s: State<K, V>, t: Task, key: K)
    requires Sound(s) && t !in s.tasks
    ensures Sound(Next(s, Ask(t, key)))
  {
    hide WithCell;
    WithCellKeepsSound(s, key);
    CellsKeepTasks(s, key);
  }

  lemma CellsKeepTasks<K, V>(s: State<K, V>, key: K)
    ensures WithCell(s, key).tasks == WithNewCell(s, key).tasks == s.tasks
    ensures WithCell(s, key).sets == WithNewCell(s, key).sets == s.sets
    ensures Sound(s) ==>
      var made := WithCell(s, key);
      made.cells[key] < |made.values| == |made.keys| && made.keys[made.cells[key]] == key
    ensures |WithNewCell(s, key).values| == |s.values| + 1
  {
  }

  lemma BeginKeepsSound<K, V>(s: State<K, V>, t: Task)
    requires Sound(s) && Enabled(s, Begin(t))
    ensures Sound(Next(s, Begin(t)))
  {
    forall u | u in s.tasks && s.tasks[u].Running? ensures s.tasks[u].cell != s.tasks[t].cell {
      assert s.tasks[u] == Running(s.tasks[u].cell);
    }
  }

  lemma SucceedKeepsSound<K, V>(s: State<K, V>, t: Task, v: V)
    requires Sound(s) && Enabled(s, Succeed(t, v))
    ensures Sound(Next(s, Succeed(t, v)))
  {
    forall u | u in s.tasks && s.tasks[u].Running? && u != t ensures s.tasks[u].cell != s.tasks[t].cell {
      assert s.tasks[u] == Running(s.tasks[u].cell) && s.tasks[t] == Running(s.tasks[t].cell);
    }
  }

  lemma StepKeepsSound<K, V>(s: State<K, V>, step: Step<K, V>)
    requires Sound(s) && Enabled(s, step)
    ensures Sound(Next(s, step))
  {
    match step
    case Ask(t, key) => AskKeepsSound(s, t, key);
    case Begin(t) => BeginKeepsSound(s, t);
    case Succeed(t, v) => SucceedKeepsSound(s, t, v);
    case Fail(_) =>
    case Wake(_) =>
    case SetHold(_, _, _) => SetStepKeepsSound(s, step);
    case SetTry(_) => SetStepKeepsSound(s, step);
    case SetCheck(_) => SetStepKeepsSound(s, step);
    case SetReplace(_) => SetStepKeepsSound(s, step);
    case Invalidate(gone) => ForgettingKeepsSound(s, gone);
  }

  ghost predicate IsRun<K, V>(s: State<K, V>, steps: seq<Step<K, V>>, e: State<K, V>)
    decreases |steps|
  {
    if steps == [] then e == s else Enabled(s, steps[0]) && IsRun(Next(s, steps[0]), steps[1..], e)
  }

  predicate GotTheSame<V(==)>(a: Progress<V>, b: Progress<V>) {
    a.Got? && b.Got? && a.cell == b.cell ==> a.value == b.value
  }

  lemma {:induction false} RunKeepsSound<K, V>(s: State<K, V>, steps: seq<Step<K, V>>, e: State<K, V>)
    requires Sound(s) && IsRun(s, steps, e)
    ensures Sound(e)
    decreases |steps|
  {
    hide Next, Enabled, Sound;
    if steps != [] {
      StepKeepsSound(s, steps[0]);
      RunKeepsSound(Next(s, steps[0]), steps[1..], e);
    }
  }

  /**
   * Under any interleaving of callers, of the steps of sets and of invalidations: at most one
   * initialiser runs on a cell at a time and at most one ever succeeds on it, and whoever got a value
   * from a cell got the same.
   */
  lemma EveryRunIsSound<K, V>(steps: seq<Step<K, V>>, e: State<K, V>)
    requires IsRun(Fresh<K, V>(), steps, e)
    ensures Sound(e)
    ensures forall t, u :: t in e.tasks && u in e.tasks && e.tasks[t].Running? && e.tasks[u] == e.tasks[t] ==> t == u
    ensures forall t, u :: t in e.tasks && u in e.tasks ==> GotTheSame(e.tasks[t], e.tasks[u])
    ensures forall c :: 0 <= c < |e.runs| ==> e.runs[c] <= 1
  {
    hide IsRun;
    RunKeepsSound(Fresh<K, V>(), steps, e);
  }

  /** A failure is not remembered: any caller waiting for the same cell may run its own at once. */
  lemma FailureReopens<K, V>(s: State<K, V>, t: Task, u: Task)
    requires Sound(s) && Enabled(s, Fail(t))
    requires u in s.tasks && s.tasks[u] == Waiting(s.tasks[t].cell)
    ensures Enabled(Next(s, Fail(t)), Begin(u))
  {
    var next, c := Next(s, Fail(t)), s.tasks[t].cell;
    forall x | x in next.tasks && next.tasks[x] == Running(c) ensures x == t {
      assert s.tasks[x] == s.tasks[t];
    }
  }

  // ------------------------------------------------------------ once per key

  /** Every cell ever made is the one its key has now. */
  ghost predicate OneCellEach<K, V>(s: State<K, V>) {
    forall c :: 0 <= c < |s.keys| ==> s.keys[c] in s.cells && s.cells[s.keys[c]] == c
  }

  /** No `set` under way has found its cell empty, or can. */
  ghost predicate NoneToReplace<K, V>(s: State<K, V>) {
    forall x :: x in s.sets && s.sets[x].cell < |s.values| ==>
      !s.sets[x].phase.ToReplace? && (s.sets[x].phase.ToCheck? ==> s.values[s.sets[x].cell].Some?)
  }

  /** Nothing is forgotten, and no `set` tries a cell that is empty and being initialised. */
  ghost predicate Calm<K, V>(s: State<K, V>, step: Step<K, V>) {
    && !step.Invalidate?
    && (step.SetTry? && SetIsAt(s, step.setter, ToTry) ==>
          s.values[s.sets[step.setter].cell].Some? || !Busy(s, s.sets[step.setter].cell))
  }

  ghost predicate IsCalmRun<K, V>(s: State<K, V>, steps: seq<Step<K, V>>, e: State<K, V>)
    decreases |steps|
  {
    if steps == [] then e == s
    else Enabled(s, steps[0]) && Calm(s, steps[0]) && IsCalmRun(Next(s, steps[0]), steps[1..], e)
  }

  lemma CalmTryKeepsCells<K, V>(s: State<K, V>, x: Task)
    requires OneCellEach(s) && NoneToReplace(s) && Enabled(s, SetTry(x)) && Calm(s, SetTry(x))
    ensures OneCellEach(Next(s, SetTry(x))) && NoneToReplace(Next(s, SetTry(x)))
  {
    FilledFillsOnly(s, s.sets[x].cell, s.sets[x].value);
    hide Busy;
  }

  lemma CalmStepKeepsCells<K, V>(s: State<K, V>, step: Step<K, V>)
    requires Sound(s) && OneCellEach(s) && NoneToReplace(s) && Enabled(s, step) && Calm(s, step)
    ensures OneCellEach(Next(s, step)) && NoneToReplace(Next(s, step))
  {
    if step.SetTry? {
      CalmTryKeepsCells(s, step.setter);
    } else {
      hide Busy, Filled;
    }
  }

  lemma {:induction false} CalmRunKeepsCells<K, V>(s: State<K, V>, steps: seq<Step<K, V>>, e: State<K, V>)
    requires Sound(s) && OneCellEach(s) && NoneToReplace(s) && IsCalmRun(s, steps, e)
    ensures Sound(e) && OneCellEach(e)
    decreases |steps|
  {
    hide Next, Enabled, Calm, Sound, OneCellEach, NoneToReplace;
    if steps != [] {
      StepKeepsSound(s, steps[0]);
      CalmStepKeepsCells(s, steps[0]);
      CalmRunKeepsCells(Next(s, steps[0]), steps[1..], e);
    }
  }

  /** In a calm run each key is initialised successfully at most once, whoever asks and however often. */
  lemma OncePerKey<K, V>(steps: seq<Step<K, V>>, e: State<K, V>, c: Cell, d: Cell)
    requires IsCalmRun(Fresh<K, V>(), steps, e)
    requires c < |e.keys| && d < |e.keys| && e.keys[c] == e.keys[d]
    ensures c == d && |e.runs| == |e.keys| && e.runs[c] <= 1
  {
    hide IsCalmRun;
    CalmRunKeepsCells(Fresh<K, V>(), steps, e);
  }

  // ------------------------------------------------------------ a set in the middle of an initialiser

  /** Task 0 got so far with the key's first cell, and a `set` of `v` by setter 0 will replace that cell. */
  function ToBeReplaced<K, V>(key: K, v: V, held: Option<V>, n: nat, p: Progress<V>): State<K, V> {
    State(map[key := 0], [held], [key], [n], map[0 := p], map[0 := Setting(key, v, 0, ToReplace)])
  }

  /** It is replaced, and task 1 got so far with the new one. */
  function Replaced<K, V>(key: K, held: Option<V>, n: nat, p: Progress<V>, next: Option<V>, m: nat, q: Progress<V>)
    : State<K, V>
  {
    State(map[key := 1], [held, next], [key, key], [n, m], map[0 := p, 1 := q], map[])
  }

  /** Task 0 is at work on the key's first cell, and setter 0 got so far with it. */
  function Begun<K, V>(key: K, p: Progress<V>, sets: map<Task, Setting<K, V>>): State<K, V> {
    State(map[key := 0], [None], [key], [0], map[0 := p], sets)
  }

  lemma SetMeetsAnInitialiser<K, V>(key: K, v: V)
    ensures IsRun(Fresh<K, V>(), [Ask(0, key), Begin(0)] + ([SetHold(0, key, v), SetTry(0)] + [SetCheck(0)]),
                  ToBeReplaced(key, v, None, 0, Running(0)))
  {
    hide IsRun, Next, Enabled;
    var begun, tried := Begun(key, Running(0), map[]), Begun(key, Running(0), map[0 := Setting(key, v, 0, ToCheck)]);
    FirstBegins<K, V>(key);
    SetTriesInVain(key, v);
    SetFindsNothing(key, v);
    RunsJoin(begun, [SetHold(0, key, v), SetTry(0)], tried, [SetCheck(0)], ToBeReplaced(key, v, None, 0, Running(0)));
    RunsJoin(Fresh<K, V>(), [Ask(0, key), Begin(0)], begun, [SetHold(0, key, v), SetTry(0)] + [SetCheck(0)],
             ToBeReplaced(key, v, None, 0, Running(0)));
  }

  lemma FirstBegins<K, V>(key: K)
    ensures IsRun(Fresh<K, V>(), [Ask(0, key), Begin(0)], Begun(key, Running(0), map[]))
  {
    TwoSteps(Fresh<K, V>(), Ask(0, key), Begun(key, Waiting(0), map[]), Begin(0), Begun(key, Running(0), map[]));
  }

  lemma SetTriesInVain<K, V>(key: K, v: V)
    ensures IsRun(Begun(key, Running(0), map[]), [SetHold(0, key, v), SetTry(0)],
                  Begun(key, Running(0), map[0 := Setting(key, v, 0, ToCheck)]))
  {
    var held := Begun(key, Running(0), map[0 := Setting(key, v, 0, ToTry)]);
    assert held.tasks[0] == Running(0) && Busy(held, 0);
    TwoSteps(Begun(key, Running(0), map[]), SetHold(0, key, v), held, SetTry(0),
             Begun(key, Running(0), map[0 := Setting(key, v, 0, ToCheck)]));
  }

  lemma SetFindsNothing<K, V>(key: K, v: V)
    ensures IsRun(Begun(key, Running(0), map[0 := Setting(key, v, 0, ToCheck)]), [SetCheck(0)],
                  ToBeReplaced(key, v, None, 0, Running(0)))
  {
    OneStep(Begun(key, Running(0), map[0 := Setting(key, v, 0, ToCheck)]), SetCheck(0),
            ToBeReplaced(key, v, None, 0, Running(0)));
  }

  lemma ReplacedAndAsked<K, V>(key: K, v: V, held: Option<V>, n: nat, p: Progress<V>)
    ensures IsRun(ToBeReplaced(key, v, held, n, p), [SetReplace(0), Ask(1, key)],
                  Replaced(key, held, n, p, None, 0, Waiting(1)))
  {
    var lost := State(map[key := 1], [held, None], [key, key], [n, 0], map[0 := p], map[]);
    TwoSteps(ToBeReplaced(key, v, held, n, p), SetReplace(0), lost, Ask(1, key),
             Replaced(key, held, n, p, None, 0, Waiting(1)));
  }

  lemma RunAgain<K, V>(key: K, v: V, held: Option<V>, n: nat, p: Progress<V>)
    requires p != Running(1)
    ensures IsRun(Replaced(key, held, n, p, None, 0, Waiting(1)), [Begin(1), Succeed(1, v)],
                  Replaced(key, held, n, p, Some(v), 1, Got(1, v)))
  {
    TwoSteps(Replaced(key, held, n, p, None, 0, Waiting(1)), Begin(1), Replaced(key, held, n, p, None, 0, Running(1)),
             Succeed(1, v), Replaced(key, held, n, p, Some(v), 1, Got(1, v)));
  }

  /** The set's last step and the second initialiser, whatever became of the first. */
  lemma ReplacedAndRunAgain<K, V>(key: K, v: V, held: Option<V>, n: nat, p: Progress<V>)
    requires p != Running(1)
    ensures IsRun(ToBeReplaced(key, v, held, n, p), [SetReplace(0), Ask(1, key)] + [Begin(1), Succeed(1, v)],
                  Replaced(key, held, n, p, Some(v), 1, Got(1, v)))
  {
    hide IsRun, Next, Enabled;
    ReplacedAndAsked(key, v, held, n, p);
    RunAgain(key, v, held, n, p);
    RunsJoin(ToBeReplaced(key, v, held, n, p), [SetReplace(0), Ask(1, key)],
             Replaced(key, held, n, p, None, 0, Waiting(1)), [Begin(1), Succeed(1, v)],
             Replaced(key, held, n, p, Some(v), 1, Got(1, v)));
  }

  /** The initialiser succeeds after all, and its value goes with the cell. */
  lemma ValueIsLost<K, V>(key: K, v: V, w: V)
    ensures
      var done := ToBeReplaced(key, v, Some(w), 1, Got(0, w));
      && IsRun(ToBeReplaced(key, v, None, 0, Running(0)), [Succeed(0, w)], done)
      && Known(done, key) == Some(w) && Enabled(done, SetReplace(0)) && Known(Next(done, SetReplace(0)), key) == None
  {
    OneStep(ToBeReplaced(key, v, None, 0, Running(0)), Succeed(0, w), ToBeReplaced(key, v, Some(w), 1, Got(0, w)));
  }

  lemma FirstFinishes<K, V>(key: K, v: V)
    ensures IsRun(Replaced(key, None, 0, Running(0), Some(v), 1, Got(1, v)), [Succeed(0, v)],
                  Replaced(key, Some(v), 1, Got(0, v), Some(v), 1, Got(1, v)))
  {
    OneStep(Replaced(key, None, 0, Running(0), Some(v), 1, Got(1, v)), Succeed(0, v),
            Replaced(key, Some(v), 1, Got(0, v), Some(v), 1, Got(1, v)));
  }

  lemma InitialisedAndForgotten<K(!new), V>(key: K, v: V)
    ensures IsRun(Begun(key, Running(0), map[]), [Succeed(0, v), Invalidate({key})],
                  State(map[], [Some(v)], [key], [1], map[0 := Got(0, v)], map[]))
  {
    var done := State(map[key := 0], [Some(v)], [key], [1], map[0 := Got(0, v)], map[]);
    assert done.cells - {key} == map[];
    TwoSteps(Begun(key, Running(0), map[]), Succeed(0, v), done, Invalidate({key}), done.(cells := map[]));
  }

  lemma AskedAfresh<K, V>(key: K, v: V)
    ensures IsRun(State(map[], [Some(v)], [key], [1], map[0 := Got(0, v)], map[]), [Ask(1, key)],
                  Replaced(key, Some(v), 1, Got(0, v), None, 0, Waiting(1)))
  {
    OneStep(State(map[], [Some(v)], [key], [1], map[0 := Got(0, v)], map[]), Ask(1, key),
            Replaced(key, Some(v), 1, Got(0, v), None, 0, Waiting(1)));
  }

  /** Both exceptions are needed. A key that is invalidated is initialised again, to whatever comes of it. */
  lemma InvalidatedRunsTwice<K(!new), V(!new)>(key: K, v: V, w: V)
    ensures exists steps: seq<Step<K, V>>, e: State<K, V> ::
      && IsRun(Fresh<K, V>(), steps, e) && e.keys == [key, key] && e.runs == [1, 1]
      && (forall i :: 0 <= i < |steps| ==> !steps[i].SetHold?)
      && e.tasks == map[0 := Got(0, v), 1 := Got(1, w)]
  {
    hide IsRun, Next, Enabled;
    var gone := State(map[], [Some(v)], [key], [1], map[0 := Got(0, v)], map[]);
    var asked := Replaced(key, Some(v), 1, Got(0, v), None, 0, Waiting(1));
    var e := Replaced(key, Some(v), 1, Got(0, v), Some(w), 1, Got(1, w));
    var a, b := [Ask(0, key), Begin(0)], [Succeed(0, v), Invalidate({key})];
    var c, d := [Ask(1, key)], [Begin(1), Succeed(1, w)];
    FirstBegins<K, V>(key);
    InitialisedAndForgotten(key, v);
    AskedAfresh(key, v);
    RunAgain(key, w, Some(v), 1, Got(0, v));
    RunsJoin(gone, c, asked, d, e);
    RunsJoin(Begun(key, Running(0), map[]), b, gone, c + d, e);
    RunsJoin(Fresh<K, V>(), a, Begun(key, Running(0), map[]), b + (c + d), e);
    assert IsRun(Fresh<K, V>(), a + (b + (c + d)), e);
  }

  /** And a key set while it is being initialised is initialised twice. */
  lemma SetInFlightRunsTwice<K(!new), V(!new)>(key: K, v: V)
    ensures exists steps: seq<Step<K, V>>, e: State<K, V> ::
      IsRun(Fresh<K, V>(), steps, e) && e.keys == [key, key] && e.runs == [1, 1]
  {
    var s, mid := ToBeReplaced(key, v, None, 0, Running(0)), Replaced(key, None, 0, Running(0), Some(v), 1, Got(1, v));
    var e := Replaced(key, Some(v), 1, Got(0, v), Some(v), 1, Got(1, v));
    var first := [Ask(0, key), Begin(0)] + ([SetHold(0, key, v), SetTry(0)] + [SetCheck(0)]);
    var again := [SetReplace(0), Ask(1, key)] + [Begin(1), Succeed(1, v)];
    hide IsRun, Next, Enabled;
    FirstFinishes(key, v);
    SetMeetsAnInitialiser(key, v);
    ReplacedAndRunAgain(key, v, None, 0, Running(0));
    RunsJoin(s, again, mid, [Succeed(0, v)], e);
    RunsJoin(Fresh<K, V>(), first, s, again + [Succeed(0, v)], e);
  }

  /**
   * And a `set` can take away what it never set: if the initialiser succeeds between the check and
   * the replacement, an empty cell goes over its value.
   */
  lemma SetCanLoseAValue<K(!new), V(!new)>(key: K, v: V, w: V)
    ensures exists before: seq<Step<K, V>>, s: State<K, V> ::
      && IsRun(Fresh<K, V>(), before, s) && Known(s, key) == Some(w) && Enabled(s, SetReplace(0))
      && Known(Next(s, SetReplace(0)), key) == None
  {
    hide IsRun, Next, Enabled, Known;
    AValueIsLost(key, v, w);
  }

  lemma AValueIsLost<K, V>(key: K, v: V, w: V)
    ensures
      var first := [Ask(0, key), Begin(0)] + ([SetHold(0, key, v), SetTry(0)] + [SetCheck(0)]);
      var done := ToBeReplaced(key, v, Some(w), 1, Got(0, w));
      && IsRun(Fresh<K, V>(), first + [Succeed(0, w)], done)
      && Known(done, key) == Some(w) && Enabled(done, SetReplace(0)) && Known(Next(done, SetReplace(0)), key) == None
  {
    hide IsRun, Next, Enabled, Known;
    var s, done := ToBeReplaced(key, v, None, 0, Running(0)), ToBeReplaced(key, v, Some(w), 1, Got(0, w));
    var first := [Ask(0, key), Begin(0)] + ([SetHold(0, key, v), SetTry(0)] + [SetCheck(0)]);
    ValueIsLost(key, v, w);
    SetMeetsAnInitialiser(key, v);
    RunsJoin(Fresh<K, V>(), first, s, [Succeed(0, w)], done);
  }

  /** The key is then initialised again, to another value. */
  lemma LostValueIsMadeAgain<K(!new), V(!new)>(key: K, v: V, w: V)
    ensures exists steps: seq<Step<K, V>>, e: State<K, V> ::
      IsRun(Fresh<K, V>(), steps, e) && e.keys == [key, key] && e.runs == [1, 1] && e.values == [Some(w), Some(v)]
  {
    hide IsRun, Next, Enabled, Known;
    var done := ToBeReplaced(key, v, Some(w), 1, Got(0, w));
    var first := [Ask(0, key), Begin(0)] + ([SetHold(0, key, v), SetTry(0)] + [SetCheck(0)]);
    var again := [SetReplace(0), Ask(1, key)] + [Begin(1), Succeed(1, v)];
    AValueIsLost(key, v, w);
    ReplacedAndRunAgain(key, v, Some(w), 1, Got(0, w));
    RunsJoin(Fresh<K, V>(), first + [Succeed(0, w)], done, again,
             Replaced(key, Some(w), 1, Got(0, w), Some(v), 1, Got(1, v)));
  }

  lemma {:induction false} RunsJoin<K, V>(s: State<K, V>, a: seq<Step<K, V>>, mid: State<K, V>, b: seq<Step<K, V>>,
        e: State<K, V>)
    requires IsRun(s, a, mid) && IsRun(mid, b, e)
    ensures IsRun(s, a + b, e)
    decreases |a|
  {
    hide Next, Enabled;
    if a == [] {
      assert a + b == b;
    } else {
      assert (a + b)[1..] == a[1..] + b;
      RunsJoin(Next(s, a[0]), a[1..], mid, b, e);
    }
  }

  lemma OneStep<K, V>(s: State<K, V>, step: Step<K, V>, e: State<K, V>)
    requires Enabled(s, step) && Next(s, step) == e
    ensures IsRun(s, [step], e)
  {
    assert [step][1..] == [];
    assert IsRun(e, [], e);
  }

  lemma TwoSteps<K, V>(s: State<K, V>, a: Step<K, V>, mid: State<K, V>, b: Step<K, V>, e: State<K, V>)
    requires Enabled(s, a) && Next(s, a) == mid && Enabled(mid, b) && Next(mid, b) == e
    ensures IsRun(s, [a, b], e)
  {
    hide Next, Enabled;
    OneStep(s, a, mid);
    OneStep(mid, b, e);
    RunsJoin(s, [a], mid, [b], e);
    assert [a] + [b] == [a, b];
  }

  lemma ThreeSteps<K, V>(s: State<K, V>, a: Step<K, V>, s1: State<K, V>, b: Step<K, V>, s2: State<K, V>, c: Step<K, V>,
        e: State<K, V>)
    requires Enabled(s, a) && Next(s, a) == s1 && Enabled(s1, b) && Next(s1, b) == s2
    requires Enabled(s2, c) && Next(s2, c) == e
    ensures IsRun(s, [a, b] + [c], e)
  {
    hide Next, Enabled, IsRun;
    TwoSteps(s, a, s1, b, s2);
    OneStep(s2, c, e);
    RunsJoin(s, [a, b], s2, [c], e);
  }

  // ------------------------------------------------------------ what set remembers

  function Known<K, V>(s: State<K, V>, key: K): Option<V> {
    if key in s.cells && s.cells[key] < |s.values| then s.values[s.cells[key]] else None
  }

  lemma FilledIgnoresSets<K, V>(s: State<K, V>, sets: map<Task, Setting<K, V>>, c: Cell, v: V)
    ensures Filled(s.(sets := sets), c, v) == Filled(s, c, v).(sets := sets)
  {
    BusyByTasks(s, s.(sets := sets));
    hide Busy;
  }

  lemma NewCellIgnoresSets<K, V>(s: State<K, V>, sets: map<Task, Setting<K, V>>, key: K)
    ensures WithNewCell(s.(sets := sets), key) == WithNewCell(s, key).(sets := sets)
  {
  }

  lemma HeldAndTried<K, V>(s: State<K, V>, x: Task, key: K, v: V)
    requires Sound(s) && x !in s.sets
    ensures
      var made := WithCell(s, key);
      var c := made.cells[key];
      var held, filled := Next(s, SetHold(x, key, v)), Filled(made, c, v);
      && held == made.(sets := s.sets[x := Setting(key, v, c, ToTry)]) && Enabled(held, SetTry(x))
      && Next(held, SetTry(x)) == filled.(sets := s.sets[x := Setting(key, v, c, ToCheck)])
      && c < |filled.values| && filled.cells == made.cells && filled.sets == s.sets
  {
    CellsKeepTasks(s, key);
    var made := WithCell(s, key);
    var c := made.cells[key];
    FilledFillsOnly(made, c, v);
    hide Filled, WithCell, WithNewCell, Sound;
    var sets := s.sets[x := Setting(key, v, c, ToTry)];
    FilledIgnoresSets(made, sets, c, v);
    assert sets[x := Setting(key, v, c, ToCheck)] == s.sets[x := Setting(key, v, c, ToCheck)];
  }

  /** The check and the replacement, from where the try left the cells. */
  lemma CheckedAndReplaced<K, V>(filled: State<K, V>, x: Task, key: K, v: V, c: Cell)
    requires x !in filled.sets && c < |filled.values| && key in filled.cells && filled.cells[key] == c
    ensures
      var tried := filled.(sets := filled.sets[x := Setting(key, v, c, ToCheck)]);
      var checked := Next(tried, SetCheck(x));
      && Enabled(tried, SetCheck(x))
      && (if filled.values[c].None?
          then Enabled(checked, SetReplace(x)) && Next(checked, SetReplace(x)) == WithNewCell(filled, key)
          else checked == filled)
  {
    hide Busy;
    var checking, empty := Setting(key, v, c, ToCheck), Setting(key, v, c, ToReplace);
    assert filled.sets[x := checking][x := empty] == filled.sets[x := empty];
    assert filled.sets[x := checking] - {x} == filled.sets && filled.sets[x := empty] - {x} == filled.sets;
    NewCellIgnoresSets(filled, filled.sets[x := empty], key);
  }

  /** The steps of `set` in a row, with nothing in between, come to `AfterSet`. */
  lemma StepsMakeASet<K, V>(s: State<K, V>, x: Task, key: K, v: V)
    requires Sound(s) && x !in s.sets
    ensures
      var held := Next(s, SetHold(x, key, v));
      var tried := Next(held, SetTry(x));
      var checked := Next(tried, SetCheck(x));
      && Enabled(held, SetTry(x)) && Enabled(tried, SetCheck(x))
      && (if tried.values[held.sets[x].cell].None?
          then Enabled(checked, SetReplace(x)) && Next(checked, SetReplace(x)) == AfterSet(s, key, v)
          else checked == AfterSet(s, key, v))
  {
    assert Enabled(s, SetHold(x, key, v));
    hide Next, Enabled, Filled, WithCell, WithNewCell, Sound;
    var made := WithCell(s, key);
    HeldAndTried(s, x, key, v);
    CheckedAndReplaced(Filled(made, made.cells[key], v), x, key, v, made.cells[key]);
  }

  lemma UninterruptedSet<K, V>(s: State<K, V>, x: Task, key: K, v: V)
    requires Sound(s) && x !in s.sets
    ensures
      var tried := [SetHold(x, key, v), SetTry(x)] + [SetCheck(x)];
      IsRun(s, tried, AfterSet(s, key, v)) || IsRun(s, tried + [SetReplace(x)], AfterSet(s, key, v))
  {
    assert Enabled(s, SetHold(x, key, v));
    hide *;
    StepsMakeASet(s, x, key, v);
    var held := Next(s, SetHold(x, key, v));
    var tried := Next(held, SetTry(x));
    var checked := Next(tried, SetCheck(x));
    ThreeSteps(s, SetHold(x, key, v), held, SetTry(x), tried, SetCheck(x), checked);
    if checked != AfterSet(s, key, v) {
      OneStep(checked, SetReplace(x), AfterSet(s, key, v));
      RunsJoin(s, [SetHold(x, key, v), SetTry(x)] + [SetCheck(x)], checked, [SetReplace(x)], AfterSet(s, key, v));
    }
  }

  /**
   * With nothing in between, `set` remembers its value exactly when the key had no cell, an idle
   * empty one, or that very value already. A value that is there stays, and one set while an
   * initialiser is running is lost.
   */
  lemma SetRemembersWhen<K, V>(s: State<K, V>, key: K, v: V)
    requires Sound(s)
    ensures Known(AfterSet(s, key, v), key) == Some(v) <==>
      key !in s.cells || Known(s, key) == Some(v) || (Known(s, key).None? && !Busy(s, s.cells[key]))
    ensures Known(s, key).Some? ==> Known(AfterSet(s, key, v), key) == Known(s, key)
    ensures key in s.cells && Known(s, key).None? && Busy(s, s.cells[key]) ==> Known(AfterSet(s, key, v), key).None?
  {
    var made := WithCell(s, key);
    var c := made.cells[key];
    if key !in s.cells {
      forall t | t in s.tasks ensures s.tasks[t].cell != c {
      }
      assert !Busy(made, c);
    } else {
      assert made == s;
    }
  }

  /** Interrupted or not, no step of a `set` changes what is known of another key. */
  lemma SetLeavesOthersAlone<K, V>(s: State<K, V>, step: Step<K, V>, other: K)
    requires Sound(s) && Enabled(s, step)
    requires (step.SetHold? && other != step.key)
      || ((step.SetTry? || step.SetCheck? || step.SetReplace?) && other != s.sets[step.setter].key)
    ensures Known(Next(s, step), other) == Known(s, other)
  {
    hide Busy;
    if step.SetTry? && other in s.cells {
      assert s.cells[other] != s.sets[step.setter].cell;
    }
  }

  lemma BusyByTasks<K, V>(a: State<K, V>, b: State<K, V>)
    requires a.tasks == b.tasks
    ensures forall c :: Busy(a, c) == Busy(b, c)
  {
  }

  // ------------------------------------------------------------ the map under its mutex

  class KeyedOnce<!K(==), V> {
    var cells: map<K, Cell>
    var values: seq<Option<V>>
    ghost var keys: seq<K>
    ghost var runs: seq<nat>
    ghost var tasks: map<Task, Progress<V>>
    ghost var sets: map<Task, Setting<K, V>>
    /** The cells whose permit is taken. */
    var busy: set<Cell>

    ghost function Model(): State<K, V>
      reads this
    {
      State(cells, values, keys, runs, tasks, sets)
    }

    ghost predicate Valid()
      reads this
    {
      Sound(Model()) && forall c :: c in busy <==> Busy(Model(), c)
    }

    constructor ()
      ensures Valid() && Model() == Fresh()
    {
      cells, values, keys, runs, tasks, sets, busy := map[], [], [], [], map[], map[], {};
    }

    method CellOf(key: K) returns (c: Cell)
      requires Valid()
      modifies this
      ensures Valid() && Model() == WithCell(old(Model()), key) && c == cells[key] && c < |values|
      ensures busy == old(busy)
    {
      WithCellKeepsSound(Model(), key);
      if key !in cells {
        cells, values, keys, runs := cells[key := |values|], values + [None], keys + [key], runs + [0];
      }
      c := cells[key];
    }

    method Get(key: K) returns (v: Option<V>)
      requires Valid()
      ensures v == Known(Model(), key)
    {
      v := if key in cells then values[cells[key]] else None;
    }

    /** The first step of `set`, under the mutex: a cell to try. */
    method HoldForSet(ghost x: Task, key: K, ghost value: V) returns (c: Cell)
      requires Valid() && x !in sets
      modifies this
      ensures Valid() && Model() == Next(old(Model()), SetHold(x, key, value))
      ensures x in sets && sets[x] == Setting(key, value, c, ToTry) && c < |values|
    {
      ghost var before := Model();
      SetStepKeepsSound(before, SetHold(x, key, value));
      hide Sound;
      c := CellOf(key);
      ghost var made := Model();
      CellsKeepTasks(before, key);
      sets := sets[x := Setting(key, value, c, ToTry)];
      BusyByTasks(made, Model());
    }

    /** The second, on the cell alone: it takes the value if it is empty and its permit is free. */
    method TrySet(ghost x: Task, c: Cell, value: V)
      requires Valid() && Enabled(Model(), SetTry(x)) && sets[x].cell == c && sets[x].value == value
      modifies this
      ensures Valid() && Model() == Next(old(Model()), SetTry(x))
      ensures sets == old(sets)[x := old(sets)[x].(phase := ToCheck)]
    {
      ghost var before := Model();
      SetStepKeepsSound(before, SetTry(x));
      hide Sound;
      if values[c].None? && c !in busy {
        values := values[c := Some(value)];
      }
      sets := sets[x := sets[x].(phase := ToCheck)];
      BusyByTasks(before, Model());
    }

    /** The third: whether the cell holds a value by now. */
    method CheckSet(ghost x: Task, c: Cell) returns (empty: bool)
      requires Valid() && Enabled(Model(), SetCheck(x)) && sets[x].cell == c
      modifies this
      ensures Valid() && Model() == Next(old(Model()), SetCheck(x))
      ensures empty == old(values)[c].None? && (empty ==> sets == old(sets)[x := old(sets)[x].(phase := ToReplace)])
    {
      ghost var before := Model();
      SetStepKeepsSound(before, SetCheck(x));
      hide Sound;
      empty := values[c].None?;
      sets := if empty then sets[x := sets[x].(phase := ToReplace)] else sets - {x};
      BusyByTasks(before, Model());
    }

    /** The last, under the mutex again: an empty cell, whatever the key has by now. */
    method ReplaceCell(ghost x: Task, key: K)
      requires Valid() && Enabled(Model(), SetReplace(x)) && sets[x].key == key
      modifies this
      ensures Valid() && Model() == Next(old(Model()), SetReplace(x))
    {
      SetStepKeepsSound(Model(), SetReplace(x));
      ReplacedKeepsTasks(Model(), x);
      hide Sound, Next, Busy;
      cells, values, keys, runs := cells[key := |values|], values + [None], keys + [key], runs + [0];
      sets := sets - {x};
    }

    /** All of `set`, where nothing comes in between. */
    method SetValue(ghost x: Task, key: K, value: V)
      requires Valid() && x !in sets
      modifies this
      ensures Valid() && Model() == AfterSet(old(Model()), key, value)
    {
      ghost var before := Model();
      StepsMakeASet(before, x, key, value);
      hide Sound, Next, Enabled, AfterSet, Busy, WithCell;
      var c := HoldForSet(x, key, value);
      TrySet(x, c, value);
      var empty := CheckSet(x, c);
      if empty {
        ReplaceCell(x, key);
      }
    }

    method InvalidateWhere(gone: set<K>)
      requires Valid()
      modifies this
      ensures Valid() && Model() == Next(old(Model()), Invalidate(gone))
    {
      hide Sound;
      ghost var before := Model();
      ForgettingKeepsSound(Model(), gone);
      cells := map k | k in cells && k !in gone :: cells[k];
      assert cells == before.cells - gone;
      BusyByTasks(before, Model());
    }

    /** A caller arrives: it gets the value that is there, takes the permit, or waits. */
    method Start(ghost t: Task, key: K) returns (c: Cell, v: Option<V>, begun: bool)
      requires Valid() && t !in tasks
      modifies this
      ensures Valid()
      ensures
        var asked := Next(old(Model()), Ask(t, key));
        && c == asked.tasks[t].cell
        && (if begun then Enabled(asked, Begin(t)) && Model() == Next(asked, Begin(t)) && v == None
            else if v.Some?
            then Enabled(asked, Wake(t)) && Model() == Next(asked, Wake(t)) && tasks[t] == Got(c, v.value)
            else Model() == asked && Busy(asked, c))
    {
      hide Sound;
      ghost var before := Model();
      assert Enabled(before, Ask(t, key));
      StepKeepsSound(before, Ask(t, key));
      c := CellOf(key);
      CellsKeepTasks(before, key);
      WaitingIsNotBusy(WithCell(before, key), t, c);
      tasks := tasks[t := Waiting(c)];
      ghost var asked := Next(before, Ask(t, key));
      assert Model() == asked;
      v, begun := values[c], false;
      if v.Some? {
        StepKeepsSound(asked, Wake(t));
        GettingIsNotBusy(asked, t, c, v.value);
        tasks := tasks[t := Got(c, v.value)];
        assert Model() == Next(asked, Wake(t));
      } else if c !in busy {
        begun := true;
        StepKeepsSound(asked, Begin(t));
        RunningIsBusy(asked, t, c);
        tasks := tasks[t := Running(c)];
        busy := busy + {c};
        assert Model() == Next(asked, Begin(t));
      }
    }

    /** The initialiser ends: its value is there for all who wait, or the permit is free again. */
    method Finish(ghost t: Task, c: Cell, result: Option<V>)
      requires Valid() && t in tasks && tasks[t] == Running(c)
      modifies this
      ensures Valid()
      ensures result.Some? ==> Model() == Next(old(Model()), Succeed(t, result.value))
      ensures result.None? ==> Model() == Next(old(Model()), Fail(t))
    {
      hide Sound;
      ghost var before := Model();
      CellExists(before, t);
      if result.Some? {
        StepKeepsSound(before, Succeed(t, result.value));
        PermitIsFree(before, t, c, Got(c, result.value));
        BusyByTasks(before.(tasks := before.tasks[t := Got(c, result.value)]), Next(before, Succeed(t, result.value)));
        values, tasks, runs := values[c := result], tasks[t := Got(c, result.value)], runs[c := runs[c] + 1];
        assert Model() == Next(before, Succeed(t, result.value));
      } else {
        StepKeepsSound(before, Fail(t));
        PermitIsFree(before, t, c, Failed(c));
        tasks := tasks[t := Failed(c)];
        assert Model() == Next(before, Fail(t));
      }
      assert forall x :: Busy(Model(), x) <==> x != c && Busy(before, x);
      busy := busy - {c};
      assert forall x :: x in busy <==> Busy(Model(), x);
    }
  }

  lemma ReplacedKeepsTasks<K, V>(s: State<K, V>, x: Task)
    requires Enabled(s, SetReplace(x))
    ensures
      var key := s.sets[x].key;
      Next(s, SetReplace(x)) == State(s.cells[key := |s.values|], s.values + [None], s.keys + [key], s.runs + [0],
                                      s.tasks, s.sets - {x})
    ensures forall c :: Busy(Next(s, SetReplace(x)), c) == Busy(s, c)
  {
    BusyByTasks(s, Next(s, SetReplace(x)));
  }

  lemma CellExists<K, V>(s: State<K, V>, t: Task)
    requires Sound(s) && t in s.tasks
    ensures s.tasks[t].cell < |s.values| == |s.runs|
  {
  }

  lemma WaitingIsNotBusy<K, V>(s: State<K, V>, t: Task, c: Cell)
    requires t !in s.tasks
    ensures forall x :: Busy(s.(tasks := s.tasks[t := Waiting(c)]), x) == Busy(s, x)
  {
    var next := s.(tasks := s.tasks[t := Waiting(c)]);
    forall x ensures Busy(next, x) == Busy(s, x) {
      if u :| u in s.tasks && s.tasks[u] == Running(x) {
        assert next.tasks[u] == Running(x);
      }
    }
  }

  lemma GettingIsNotBusy<K, V>(s: State<K, V>, t: Task, c: Cell, v: V)
    requires t in s.tasks && s.tasks[t] == Waiting(c)
    ensures forall x :: Busy(s.(tasks := s.tasks[t := Got(c, v)]), x) == Busy(s, x)
  {
    var next := s.(tasks := s.tasks[t := Got(c, v)]);
    forall x ensures Busy(next, x) == Busy(s, x) {
      if u :| u in s.tasks && s.tasks[u] == Running(x) {
        assert next.tasks[u] == Running(x);
      }
    }
  }

  lemma RunningIsBusy<K, V>(s: State<K, V>, t: Task, c: Cell)
    requires t in s.tasks && s.tasks[t] == Waiting(c)
    ensures forall x :: Busy(s.(tasks := s.tasks[t := Running(c)]), x) <==> x == c || Busy(s, x)
  {
    var next := s.(tasks := s.tasks[t := Running(c)]);
    assert t in next.tasks && next.tasks[t] == Running(c);
    assert Busy(next, c);
    forall x | x != c ensures Busy(next, x) == Busy(s, x) {
      if u :| u in s.tasks && s.tasks[u] == Running(x) {
        assert next.tasks[u] == Running(x);
      }
    }
  }

  lemma PermitIsFree<K, V>(s: State<K, V>, t: Task, c: Cell, p: Progress<V>)
    requires Sound(s) && t in s.tasks && s.tasks[t] == Running(c) && p.cell == c && !p.Running?
    ensures forall x :: Busy(s.(tasks := s.tasks[t := p]), x) <==> x != c && Busy(s, x)
  {
    var next := s.(tasks := s.tasks[t := p]);
    forall x ensures Busy(next, x) <==> x != c && Busy(s, x) {
      if u :| u in s.tasks && s.tasks[u] == Running(x) && x != c {
        assert next.tasks[u] == Running(x);
      }
    }
  }
}
