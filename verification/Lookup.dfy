/**
 * Looking a fleet up: bounded parallelism that answers in input order, batches taken apart again,
 * outcomes folded into one, and a "missing" that is not believed at once.
 */
module Lookup {
  import opened Helpers
  import opened Text

  // ------------------------------------------------------------ in input order

  predicate KeysRise<R>(xs: seq<(nat, R)>) {
    forall i, j :: 0 <= i < j < |xs| ==> xs[i].0 < xs[j].0
  }

  predicate HasKey<R>(xs: seq<(nat, R)>, k: nat) {
    exists i :: 0 <= i < |xs| && xs[i].0 == k
  }

  predicate DistinctKeys<R>(xs: seq<(nat, R)>) {
    forall i, j :: 0 <= i < j < |xs| ==> xs[i].0 != xs[j].0
  }

  /** A stable insertion by key. */
  function InsertByKey<R(!new)>(x: (nat, R), xs: seq<(nat, R)>): (r: seq<(nat, R)>)
    ensures |r| == |xs| + 1 && forall y :: y in r <==> y == x || y in xs
  {
    if xs == [] || x.0 < xs[0].0 then [x] + xs
    else
      assert xs == [xs[0]] + xs[1..];
      [xs[0]] + InsertByKey(x, xs[1..])
  }

  lemma {:induction false} InsertKeepsRise<R(!new)>(x: (nat, R), xs: seq<(nat, R)>)
    requires KeysRise(xs) && !HasKey(xs, x.0)
    ensures KeysRise(InsertByKey(x, xs))
  {
    if xs == [] || x.0 < xs[0].0 {
    } else {
      var rest := InsertByKey(x, xs[1..]);
      assert forall i :: 0 <= i < |xs[1..]| ==> xs[1..][i] == xs[i + 1];
      InsertKeepsRise(x, xs[1..]);
      assert xs[0].0 != x.0;
      forall i | 0 <= i < |rest| ensures xs[0].0 < rest[i].0 {
        assert rest[i] in rest;
      }
    }
  }

  /** The sort by index that ends every collection. */
  function SortByKey<R(!new)>(xs: seq<(nat, R)>): (r: seq<(nat, R)>)
    ensures |r| == |xs| && forall y :: y in r <==> y in xs
  {
    if xs == [] then []
    else
      assert xs == xs[..|xs| - 1] + [xs[|xs| - 1]];
      InsertByKey(xs[|xs| - 1], SortByKey(xs[..|xs| - 1]))
  }

  lemma {:induction false} SortedKeysRise<R(!new)>(xs: seq<(nat, R)>)
    requires DistinctKeys(xs)
    ensures KeysRise(SortByKey(xs))
  {
    if xs != [] {
      var n := |xs| - 1;
      SortedKeysRise(xs[..n]);
      var sorted := SortByKey(xs[..n]);
      forall i | 0 <= i < |sorted| ensures sorted[i].0 != xs[n].0 {
        assert sorted[i] in sorted && sorted[i] in xs[..n];
      }
      InsertKeepsRise(xs[n], sorted);
    }
  }

  lemma {:induction false} RisingKeysReach<R>(xs: seq<(nat, R)>, k: nat)
    requires KeysRise(xs) && k < |xs|
    ensures xs[k].0 >= k
  {
    if k > 0 {
      RisingKeysReach(xs, k - 1);
    }
  }

  lemma {:induction false} RisingKeysStay<R>(xs: seq<(nat, R)>, k: nat)
    requires KeysRise(xs) && k < |xs| && forall i :: 0 <= i < |xs| ==> xs[i].0 < |xs|
    ensures xs[k].0 <= k
    decreases |xs| - k
  {
    if k + 1 < |xs| {
      RisingKeysStay(xs, k + 1);
    }
  }

  /** What a task comes to: its own outcome, or an interruption if the run had been cancelled by then. */
  predicate Outcome<T, R(==)>(items: seq<T>, cancels: bool, run: (nat, T) -> R, interrupted: T -> R, i: nat, r: R) {
    i < |items| && (r == run(i, items[i]) || (cancels && r == interrupted(items[i])))
  }

  predicate Apart<R>(a: seq<(nat, R)>, b: seq<(nat, R)>) {
    forall i, j :: 0 <= i < |a| && 0 <= j < |b| ==> a[i].0 != b[j].0
  }

  lemma FinishOne<R>(inflight: seq<(nat, R)>, done: seq<(nat, R)>, k: nat)
    requires DistinctKeys(inflight) && DistinctKeys(done) && Apart(inflight, done) && k < |inflight|
    ensures
      var left, now := inflight[..k] + inflight[k + 1..], done + [inflight[k]];
      DistinctKeys(left) && DistinctKeys(now) && Apart(left, now)
  {
    var left := inflight[..k] + inflight[k + 1..];
    assert forall i :: 0 <= i < |left| ==> left[i] == inflight[if i < k then i else i + 1];
  }

  /** Every task of `xs` is one of the first `n` items, with an outcome it may have. */
  predicate Tasks<T, R(==)>(items: seq<T>, cancels: bool, run: (nat, T) -> R, interrupted: T -> R, xs: seq<(nat, R)>,
        n: nat) {
    forall i :: 0 <= i < |xs| ==> xs[i].0 < n && Outcome(items, cancels, run, interrupted, xs[i].0, xs[i].1)
  }

  /** What is in flight and what is done: the first `next` items, each once. */
  predicate Underway<T, R(==)>(items: seq<T>, cancels: bool, run: (nat, T) -> R, interrupted: T -> R,
      inflight: seq<(nat, R)>, done: seq<(nat, R)>, next: nat)
  {
    && next <= |items| && |inflight| + |done| == next
    && DistinctKeys(inflight) && DistinctKeys(done) && Apart(inflight, done)
    && Tasks(items, cancels, run, interrupted, inflight, next) && Tasks(items, cancels, run, interrupted, done, next)
  }

  lemma StartNext<T, R>(items: seq<T>, cancels: bool, run: (nat, T) -> R, interrupted: T -> R, inflight: seq<(nat, R)>,
        done: seq<(nat, R)>, next: nat, r: R)
    requires Underway(items, cancels, run, interrupted, inflight, done, next)
    requires next < |items| && Outcome(items, cancels, run, interrupted, next, r)
    ensures Underway(items, cancels, run, interrupted, inflight + [(next, r)], done, next + 1)
  {
    var more := inflight + [(next, r)];
    assert forall i :: 0 <= i < |more| ==> more[i] == if i < |inflight| then inflight[i] else (next, r);
  }

  lemma FinishAny<T, R>(items: seq<T>, cancels: bool, run: (nat, T) -> R, interrupted: T -> R, inflight: seq<(nat, R)>,
        done: seq<(nat, R)>, next: nat, k: nat)
    requires Underway(items, cancels, run, interrupted, inflight, done, next) && k < |inflight|
    ensures Underway(items, cancels, run, interrupted, inflight[..k] + inflight[k + 1..], done + [inflight[k]], next)
  {
    hide DistinctKeys, Apart, Outcome;
    FinishOne(inflight, done, k);
    var left := inflight[..k] + inflight[k + 1..];
    assert forall i :: 0 <= i < |left| ==> left[i] == inflight[if i < k then i else i + 1];
  }

  lemma AllDone<T, R>(items: seq<T>, cancels: bool, run: (nat, T) -> R, interrupted: T -> R, done: seq<(nat, R)>)
    requires Underway(items, cancels, run, interrupted, [], done, |items|)
    ensures DistinctKeys(done) && |done| == |items| && forall i :: 0 <= i < |done| ==> done[i].0 < |done|
    ensures forall i: nat, r :: (i, r) in done ==> Outcome(items, cancels, run, interrupted, i, r)
  {
  }

  /**
   * Runs every item, at most `limit` at a time, finishing in any order whatever; each outcome comes
   * back at the place of its item. Once cancelled, no further item is started.
   */
  method ForEachCollect<T, R(==, !new)>(items: seq<T>, limit: nat, cancels: bool, run: (nat, T) -> R,
        interrupted: T -> R)
    returns (out: seq<R>, ghost peak: nat)
    ensures |out| == |items|
    ensures forall i :: 0 <= i < |items| ==> Outcome(items, cancels, run, interrupted, i, out[i])
    ensures peak <= if limit == 0 then 1 else limit
  {
    var slots := if limit == 0 then 1 else limit;
    var next, cancelled := 0, false;
    var inflight: seq<(nat, R)>, done: seq<(nat, R)> := [], [];
    peak := 0;
    hide Underway;
    assert Underway(items, cancels, run, interrupted, inflight, done, next) by {
      NothingUnderway(items, cancels, run, interrupted);
    }
    while next < |items| || inflight != []
      invariant Underway(items, cancels, run, interrupted, inflight, done, next)
      invariant next <= |items| && |inflight| <= slots && peak <= slots
      invariant cancelled ==> cancels
      decreases 2 * (|items| - next) + |inflight|
    {
      var stop: bool, start: bool := *, *;
      cancelled := cancelled || (cancels && stop);
      if next < |items| && |inflight| < slots && (start || inflight == []) {
        var r := if cancelled then interrupted(items[next]) else run(next, items[next]);
        StartNext(items, cancels, run, interrupted, inflight, done, next, r);
        inflight := inflight + [(next, r)];
        next := next + 1;
        peak := if |inflight| > peak then |inflight| else peak;
      } else {
        var any: int := *;
        var k := if 0 <= any < |inflight| then any else 0;
        FinishAny(items, cancels, run, interrupted, inflight, done, next, k);
        inflight, done := inflight[..k] + inflight[k + 1..], done + [inflight[k]];
      }
    }
    AllDone(items, cancels, run, interrupted, done);
    out := InInputOrder(done);
  }

  lemma NothingUnderway<T, R>(items: seq<T>, cancels: bool, run: (nat, T) -> R, interrupted: T -> R)
    ensures Underway(items, cancels, run, interrupted, [], [], 0)
  {
  }

  method InInputOrder<R(!new)>(done: seq<(nat, R)>) returns (out: seq<R>)
    requires DistinctKeys(done) && forall i :: 0 <= i < |done| ==> done[i].0 < |done|
    ensures |out| == |done| && forall i :: 0 <= i < |done| ==> (i, out[i]) in done
  {
    var sorted := SortByKey(done);
    SortedKeysRise(done);
    forall i | 0 <= i < |sorted| ensures sorted[i].0 < |sorted| && sorted[i] in done {
      assert sorted[i] in sorted;
    }
    forall i: nat | i < |sorted| ensures sorted[i].0 == i {
      RisingKeysReach(sorted, i);
      RisingKeysStay(sorted, i);
    }
    out := seq(|sorted|, i requires 0 <= i < |sorted| => sorted[i].1);
    forall i | 0 <= i < |out| ensures (i, out[i]) in done {
      assert sorted[i] == (i, out[i]);
    }
  }

  // ------------------------------------------------------------ folding outcomes

  datatype Error = Guard(message: string) | Other(message: string)

  /** All went well; or guard failures, which win; or every other failure, sorted by name. */
  datatype Verdict<+T> =
    | All(items: seq<T>)
    | Guards(lines: seq<(string, string)>)
    | Failures(total: nat, lines: seq<(string, string)>)

  /** The failures of one kind, each with its name, in order. */
  function Lines<T>(results: seq<(T, Option<Error>)>, name: T -> string, guards: bool): seq<(string, string)> {
    if results == [] then []
    else
      var n := |results| - 1;
      var (item, e) := results[n];
      Lines(results[..n], name, guards)
      + if e.Some? && e.value.Guard? == guards then [(name(item), e.value.message)] else []
  }

  /** Whoever failed is on the list of its kind, with its own message, and nobody else is. */
  lemma {:induction false} LinesNameTheFailed<T(!new)>(results: seq<(T, Option<Error>)>, name: T -> string,
        guards: bool, line: (string, string))
    ensures line in Lines(results, name, guards) <==>
      exists i :: 0 <= i < |results| && results[i].1.Some? && results[i].1.value.Guard? == guards
                  && line == (name(results[i].0), results[i].1.value.message)
  {
    if results != [] {
      var n := |results| - 1;
      LinesNameTheFailed(results[..n], name, guards, line);
    }
  }

  function InsertLine(x: (string, string), xs: seq<(string, string)>): (r: seq<(string, string)>)
    ensures multiset(r) == multiset(xs) + multiset{x}
  {
    if xs == [] || Less(x.0, xs[0].0) then [x] + xs
    else
      assert xs == [xs[0]] + xs[1..];
      [xs[0]] + InsertLine(x, xs[1..])
  }

  /** The stable sort by name. */
  function SortLines(xs: seq<(string, string)>): (r: seq<(string, string)>)
    ensures multiset(r) == multiset(xs)
  {
    if xs == [] then []
    else
      assert xs == xs[..|xs| - 1] + [xs[|xs| - 1]];
      InsertLine(xs[|xs| - 1], SortLines(xs[..|xs| - 1]))
  }

  predicate ByName(xs: seq<(string, string)>) {
    forall i, j :: 0 <= i < j < |xs| ==> !Less(xs[j].0, xs[i].0)
  }

  lemma LessOrNot(a: string, b: string, c: string)
    requires Less(a, b) && !Less(c, b)
    ensures !Less(c, a)
  {
    if Less(c, a) {
      LessTransitive(c, a, b);
    }
  }

  lemma {:induction false} InsertKeepsByName(x: (string, string), xs: seq<(string, string)>)
    requires ByName(xs)
    ensures ByName(InsertLine(x, xs))
  {
    if xs == [] {
    } else if Less(x.0, xs[0].0) {
      forall i | 0 <= i < |xs| ensures !Less(xs[i].0, x.0) {
        LessAsymmetric(x.0, xs[0].0);
        if i > 0 {
          LessOrNot(x.0, xs[0].0, xs[i].0);
        }
      }
    } else {
      var rest := InsertLine(x, xs[1..]);
      InsertKeepsByName(x, xs[1..]);
      forall i | 0 <= i < |rest| ensures !Less(rest[i].0, xs[0].0) {
        assert rest[i] in multiset(rest);
        assert rest[i] == x || rest[i] in xs[1..];
      }
    }
  }

  lemma {:induction false} SortedByName(xs: seq<(string, string)>)
    ensures ByName(SortLines(xs))
  {
    if xs != [] {
      SortedByName(xs[..|xs| - 1]);
      InsertKeepsByName(xs[|xs| - 1], SortLines(xs[..|xs| - 1]));
    }
  }

  function Items<T>(results: seq<(T, Option<Error>)>): seq<T> {
    seq(|results|, i requires 0 <= i < |results| => results[i].0)
  }

  /** Guards win, all of them; else every failure is named, sorted; else every item, in order. */
  ghost predicate Folds<T(!new)>(results: seq<(T, Option<Error>)>, name: T -> string, v: Verdict<T>) {
    var guards, others := Lines(results, name, true), Lines(results, name, false);
    match v
    case Guards(lines) => guards != [] && lines == guards
    case Failures(total, lines) =>
      guards == [] && others != [] && total == |results| && multiset(lines) == multiset(others) && ByName(lines)
    case All(items) => guards == [] && others == [] && items == Items(results)
  }

  method Aggregate<T(!new)>(results: seq<(T, Option<Error>)>, name: T -> string) returns (v: Verdict<T>)
    ensures Folds(results, name, v)
  {
    var guards: seq<(string, string)>, failures: seq<(string, string)>, items := [], [], [];
    for i := 0 to |results|
      invariant guards == Lines(results[..i], name, true) && failures == Lines(results[..i], name, false)
      invariant items == Items(results[..i])
    {
      assert results[..i + 1][..i] == results[..i];
      var (item, e) := results[i];
      match e {
        case None =>
        case Some(Guard(m)) => guards := guards + [(name(item), m)];
        case Some(Other(m)) => failures := failures + [(name(item), m)];
      }
      items := items + [item];
    }
    assert results[..|results|] == results;
    if guards != [] {
      return Guards(guards);
    }
    if failures != [] {
      SortedByName(failures);
      return Failures(|results|, SortLines(failures));
    }
    v := All(items);
  }

  /** A failure is reported: by name and message, unless a guard elsewhere takes precedence. */
  predicate Named<T>(v: Verdict<T>, name: string, e: Error) {
    if e.Guard? then v.Guards? && (name, e.message) in v.lines
    else v.Guards? || (v.Failures? && (name, e.message) in v.lines)
  }

  lemma FailuresAreNamed<T(!new)>(results: seq<(T, Option<Error>)>, name: T -> string, v: Verdict<T>)
    requires Folds(results, name, v)
    ensures forall i :: 0 <= i < |results| && results[i].1.Some? ==>
      Named(v, name(results[i].0), results[i].1.value)
    ensures v.All? <==> forall i :: 0 <= i < |results| ==> results[i].1.None?
  {
    forall i | 0 <= i < |results| && results[i].1.Some?
      ensures Named(v, name(results[i].0), results[i].1.value)
    {
      var e := results[i].1.value;
      LinesNameTheFailed(results, name, e.Guard?, (name(results[i].0), e.message));
      if v.Failures? {
        assert (name(results[i].0), e.message) in multiset(v.lines);
      }
    }
    if forall i :: 0 <= i < |results| ==> results[i].1.None? {
      NothingFailed(results, name, true);
      NothingFailed(results, name, false);
    }
  }

  // ------------------------------------------------------------ batches

  datatype Batch<+R> = Batch(names: seq<string>, found: seq<Option<R>>)

  datatype Reply<+R> = Found(answers: seq<Option<R>>) | Refused(error: Error)

  /** The names cut into batches of `size`, the last one perhaps shorter. */
  function Chunks(names: seq<string>, size: nat): (r: seq<seq<string>>)
    requires size > 0
    ensures forall k :: 0 <= k < |r| ==> 1 <= |r[k]| <= size
    decreases |names|
  {
    if names == [] then [] else if |names| <= size then [names] else [names[..size]] + Chunks(names[size..], size)
  }

  /** Where the k-th batch starts. */
  function Start(chunks: seq<seq<string>>, k: nat): nat
    requires k <= |chunks|
  {
    if k == 0 then 0 else Start(chunks, k - 1) + |chunks[k - 1]|
  }

  lemma {:induction false} StartOfTail(chunks: seq<seq<string>>, k: nat)
    requires 1 <= k <= |chunks|
    ensures Start(chunks, k) == |chunks[0]| + Start(chunks[1..], k - 1)
  {
    if k > 1 {
      StartOfTail(chunks, k - 1);
    }
  }

  /** The j-th name of the k-th batch is where the batches before it end, and `j` further on. */
  predicate InPlace(names: seq<string>, chunks: seq<seq<string>>, k: nat, j: nat) {
    k < |chunks| && j < |chunks[k]| ==>
      Start(chunks, k) + j < |names| && names[Start(chunks, k) + j] == chunks[k][j]
  }

  lemma {:induction false} ChunksFill(names: seq<string>, size: nat)
    requires size > 0
    ensures Start(Chunks(names, size), |Chunks(names, size)|) == |names|
    decreases |names|
  {
    var chunks := Chunks(names, size);
    if |names| > size {
      ChunksFill(names[size..], size);
      assert chunks[1..] == Chunks(names[size..], size);
      StartOfTail(chunks, |chunks|);
    } else if names != [] {
      assert Start(chunks, 1) == Start(chunks, 0) + |chunks[0]|;
    }
  }

  /** The batches are the names, cut up and in order: none left out, none asked for twice. */
  lemma {:induction false} ChunksAreTheNames(names: seq<string>, size: nat, k: nat, j: nat)
    requires size > 0
    ensures InPlace(names, Chunks(names, size), k, j)
    decreases |names|
  {
    var chunks := Chunks(names, size);
    if |names| > size && 0 < k < |chunks| {
      var rest := chunks[1..];
      ChunksAreTheNames(names[size..], size, k - 1, j);
      assert rest == Chunks(names[size..], size) && chunks[k] == rest[k - 1];
      StartOfTail(chunks, k);
      hide Chunks, Start;
      var at := Start(rest, k - 1) + j;
      if j < |chunks[k]| {
        assert names[size..][at] == names[size + at];
      }
    }
  }

  /** How one batch went: an answer per name, or the error of all of them. */
  function Asked<R>(ask: (nat, seq<string>) -> Reply<R>, k: nat, names: seq<string>): (Batch<R>, Option<Error>) {
    match ask(k, names)
    case Found(answers) =>
      if |answers| == |names| then (Batch(names, answers), None)
      else (Batch(names, []), Some(Other("the forge answered for another number of repositories")))
    case Refused(e) => (Batch(names, []), Some(e))
  }

  function Stopped<R>(names: seq<string>): (Batch<R>, Option<Error>) {
    (Batch(names, []), Some(Other("interrupted")))
  }

  /** A batch's outcome as that of its j-th repository. */
  function Entry<R>(result: (Batch<R>, Option<Error>), j: nat): ((Option<R>, string), Option<Error>)
    requires j < |result.0.names| && (result.1.None? ==> |result.0.found| == |result.0.names|)
  {
    if result.1.None? then ((result.0.found[j], result.0.names[j]), None) else ((None, result.0.names[j]), result.1)
  }

  predicate WholeBatches<R>(results: seq<(Batch<R>, Option<Error>)>) {
    forall k :: 0 <= k < |results| && results[k].1.None? ==> |results[k].0.found| == |results[k].0.names|
  }

  function NamesAsked<R>(results: seq<(Batch<R>, Option<Error>)>): seq<seq<string>> {
    seq(|results|, k requires 0 <= k < |results| => results[k].0.names)
  }

  predicate SpreadAt<R(==)>(results: seq<(Batch<R>, Option<Error>)>,
        looked: seq<((Option<R>, string), Option<Error>)>, k: nat, j: nat)
    requires WholeBatches(results)
  {
    k < |results| && j < |results[k].0.names| ==>
      Start(NamesAsked(results), k) + j < |looked| && looked[Start(NamesAsked(results), k) + j] == Entry(results[k], j)
  }

  /** Every repository of every batch, with the outcome of its batch, where the batch's names stand. */
  ghost predicate Spread<R>(results: seq<(Batch<R>, Option<Error>)>, looked: seq<((Option<R>, string), Option<Error>)>)
    requires WholeBatches(results)
  {
    && |looked| == Start(NamesAsked(results), |results|)
    && forall k: nat, j: nat :: SpreadAt(results, looked, k, j)
  }

  /** A failed batch is every repository in it not looked up. */
  method PerRepository<R>(results: seq<(Batch<R>, Option<Error>)>)
    returns (out: seq<((Option<R>, string), Option<Error>)>)
    requires WholeBatches(results)
    ensures Spread(results, out)
  {
    hide NamesAsked;
    AskedOnce(results);
    out := [];
    for k := 0 to |results|
      invariant |out| == Start(NamesAsked(results), k)
      invariant forall a: nat, j: nat :: a < k ==> SpreadAt(results, out, a, j)
    {
      ghost var before := out;
      var more := seq(|results[k].0.names|, j requires 0 <= j < |results[k].0.names| => Entry(results[k], j));
      out := out + more;
      forall a: nat, j: nat | a < k + 1 ensures SpreadAt(results, out, a, j) {
        if a < k {
          assert SpreadAt(results, before, a, j);
        }
      }
    }
  }

  lemma AskedOnce<R>(results: seq<(Batch<R>, Option<Error>)>)
    ensures |NamesAsked(results)| == |results|
    ensures forall k :: 0 <= k < |results| ==> NamesAsked(results)[k] == results[k].0.names
  {
  }

  function NameOf<R>(item: (Option<R>, string)): string {
    item.1
  }

  /** Every place is in some batch. */
  lemma {:induction false} Locate(chunks: seq<seq<string>>, i: nat, n: nat) returns (k: nat, j: nat)
    requires n <= |chunks| && i < Start(chunks, n)
    ensures k < n && j < |chunks[k]| && i == Start(chunks, k) + j
  {
    if i >= Start(chunks, n - 1) {
      k, j := n - 1, i - Start(chunks, n - 1);
    } else {
      k, j := Locate(chunks, i, n - 1);
    }
  }

  function SizeOf(batchSize: nat): (size: nat)
    ensures size > 0
  {
    if batchSize == 0 then 1 else batchSize
  }

  /** Each batch of the names, with what the forge said to it or the interruption that met it. */
  ghost predicate Batched<R>(names: seq<string>, batchSize: nat, cancels: bool, ask: (nat, seq<string>) -> Reply<R>,
        results: seq<(Batch<R>, Option<Error>)>)
  {
    var chunks := Chunks(names, SizeOf(batchSize));
    && NamesAsked(results) == chunks && WholeBatches(results)
    && forall k :: 0 <= k < |results| ==>
         results[k] == Asked(ask, k, chunks[k]) || (cancels && results[k] == Stopped(chunks[k]))
  }

  /** Where a name stands in the order asked, its batch's outcome stands for it. */
  lemma LookedInOrder<R>(names: seq<string>, batchSize: nat, cancels: bool, ask: (nat, seq<string>) -> Reply<R>,
        results: seq<(Batch<R>, Option<Error>)>, looked: seq<((Option<R>, string), Option<Error>)>, i: nat)
    returns (k: nat, j: nat)
    requires Batched(names, batchSize, cancels, ask, results) && Spread(results, looked) && i < |names|
    ensures |looked| == |names| && k < |results| && j < |results[k].0.names|
    ensures looked[i] == Entry(results[k], j) && results[k].0.names[j] == names[i] == looked[i].0.1
  {
    hide Chunks, Asked, Stopped, NamesAsked;
    var chunks := Chunks(names, SizeOf(batchSize));
    AskedOnce(results);
    ChunksFill(names, SizeOf(batchSize));
    k, j := Locate(chunks, i, |chunks|);
    ChunksAreTheNames(names, SizeOf(batchSize), k, j);
    assert SpreadAt(results, looked, k, j);
  }

  lemma LookedIsAsLong<R>(names: seq<string>, batchSize: nat, cancels: bool, ask: (nat, seq<string>) -> Reply<R>,
        results: seq<(Batch<R>, Option<Error>)>, looked: seq<((Option<R>, string), Option<Error>)>)
    requires Batched(names, batchSize, cancels, ask, results) && Spread(results, looked)
    ensures |looked| == |names|
  {
    hide Chunks, Asked, Stopped, NamesAsked;
    AskedOnce(results);
    ChunksFill(names, SizeOf(batchSize));
  }

  /**
   * A batched lookup is a lookup of each name: whatever the batch size, the limit and the order in
   * which requests end, `results` holds each batch's own outcome, `looked` spreads them over the
   * names in the order asked, and the verdict folds those.
   */
  method LookupAll<R(==, !new)>(names: seq<string>, batchSize: nat, limit: nat, cancels: bool,
        ask: (nat, seq<string>) -> Reply<R>)
    returns (v: Verdict<(Option<R>, string)>, results: seq<(Batch<R>, Option<Error>)>,
        looked: seq<((Option<R>, string), Option<Error>)>)
    ensures Batched(names, batchSize, cancels, ask, results) && Spread(results, looked)
    ensures |looked| == |names| && forall i :: 0 <= i < |names| ==> looked[i].0.1 == names[i]
    ensures Folds(looked, NameOf, v)
    ensures forall i :: 0 <= i < |names| && looked[i].1.Some? ==> Named(v, names[i], looked[i].1.value)
    ensures v.All? <==> forall k :: 0 <= k < |results| ==> results[k].1.None?
  {
    hide Chunks, Spread, Folds, Named;
    var chunks := Chunks(names, SizeOf(batchSize));
    var run := (k: nat, ns: seq<string>) => Asked(ask, k, ns);
    var interrupted := (ns: seq<string>) => Stopped<R>(ns);
    ghost var peak;
    results, peak := ForEachCollect(chunks, limit, cancels, run, interrupted);
    OutcomesAreBatched(names, batchSize, cancels, ask, run, interrupted, results);
    looked := PerRepository(results);
    LookedIsAsLong(names, batchSize, cancels, ask, results, looked);
    forall i | 0 <= i < |names| ensures looked[i].0.1 == names[i] {
      var k, j := LookedInOrder(names, batchSize, cancels, ask, results, looked, i);
    }
    v := Aggregate(looked, NameOf);
    FailuresAreNamed(looked, NameOf, v);
    AllLookedAllWell(names, batchSize, cancels, ask, results, looked);
  }

  /** No repository fails exactly when no batch does: there is one in every batch. */
  lemma AllLookedAllWell<R>(names: seq<string>, batchSize: nat, cancels: bool, ask: (nat, seq<string>) -> Reply<R>,
        results: seq<(Batch<R>, Option<Error>)>, looked: seq<((Option<R>, string), Option<Error>)>)
    requires Batched(names, batchSize, cancels, ask, results) && Spread(results, looked) && |looked| == |names|
    ensures (forall i :: 0 <= i < |looked| ==> looked[i].1.None?) <==>
      (forall k :: 0 <= k < |results| ==> results[k].1.None?)
  {
    AskedOnce(results);
    forall k | 0 <= k < |results| && results[k].1.Some? ensures exists i :: 0 <= i < |looked| && looked[i].1.Some? {
      assert |Chunks(names, SizeOf(batchSize))[k]| >= 1;
      assert SpreadAt(results, looked, k, 0);
    }
    hide Chunks, Spread;
    forall i | 0 <= i < |looked| && looked[i].1.Some? ensures exists k :: 0 <= k < |results| && results[k].1.Some? {
      var k, j := LookedInOrder(names, batchSize, cancels, ask, results, looked, i);
    }
  }

  lemma OutcomesAreBatched<R(!new)>(names: seq<string>, batchSize: nat, cancels: bool,
        ask: (nat, seq<string>) -> Reply<R>, run: (nat, seq<string>) -> (Batch<R>, Option<Error>),
        interrupted: seq<string> -> (Batch<R>, Option<Error>), results: seq<(Batch<R>, Option<Error>)>)
    requires forall k, ns :: run(k, ns) == Asked(ask, k, ns)
    requires forall ns :: interrupted(ns) == Stopped<R>(ns)
    requires |results| == |Chunks(names, SizeOf(batchSize))|
    requires forall k :: 0 <= k < |results| ==>
      Outcome(Chunks(names, SizeOf(batchSize)), cancels, run, interrupted, k, results[k])
    ensures Batched(names, batchSize, cancels, ask, results)
  {
    hide Chunks;
    var chunks := Chunks(names, SizeOf(batchSize));
    forall k | 0 <= k < |results|
      ensures results[k].0.names == chunks[k]
      ensures results[k].1.None? ==> |results[k].0.found| == |results[k].0.names|
      ensures results[k] == Asked(ask, k, chunks[k]) || (cancels && results[k] == Stopped(chunks[k]))
    {
      assert Outcome(chunks, cancels, run, interrupted, k, results[k]);
    }
  }

  predicate IsTrue<R(==)>(reply: Reply<R>, names: seq<string>, look: string -> Option<R>) {
    && reply.Found? && |reply.answers| == |names|
    && forall j :: 0 <= j < |names| ==> reply.answers[j] == look(names[j])
  }

  /** What the forge answers truly for each name, a whole lookup answers truly for each name. */
  lemma TrueAnswersStayTrue<R(!new)>(names: seq<string>, batchSize: nat, ask: (nat, seq<string>) -> Reply<R>,
        look: string -> Option<R>, results: seq<(Batch<R>, Option<Error>)>,
        looked: seq<((Option<R>, string), Option<Error>)>, v: Verdict<(Option<R>, string)>)
    requires Batched(names, batchSize, false, ask, results) && Spread(results, looked) && Folds(looked, NameOf, v)
    requires forall k, ns :: IsTrue(ask(k, ns), ns, look)
    ensures v.All? && |v.items| == |names| && forall i :: 0 <= i < |names| ==> v.items[i] == (look(names[i]), names[i])
  {
    hide Chunks, Spread;
    LookedIsAsLong(names, batchSize, false, ask, results, looked);
    forall i | 0 <= i < |names| ensures looked[i] == ((look(names[i]), names[i]), None) {
      var k, j := LookedInOrder(names, batchSize, false, ask, results, looked, i);
      AskedOnce(results);
      assert IsTrue(ask(k, results[k].0.names), results[k].0.names, look);
    }
    NothingFailed(looked, NameOf, true);
    NothingFailed(looked, NameOf, false);
  }

  lemma {:induction false} NothingFailed<T(!new)>(results: seq<(T, Option<Error>)>, name: T -> string, guards: bool)
    requires forall i :: 0 <= i < |results| ==> results[i].1.None?
    ensures Lines(results, name, guards) == []
  {
    if results != [] {
      NothingFailed(results[..|results| - 1], name, guards);
    }
  }

  // ------------------------------------------------------------ a missing that is not believed at once

  /** The first round, up to `last`, in which a name was found. */
  function FirstFound<R>(ask: (nat, string) -> Option<R>, name: string, last: nat): Option<R> {
    if last == 0 then ask(0, name)
    else
      var earlier := FirstFound(ask, name, last - 1);
      if earlier.Some? then earlier else ask(last, name)
  }

  predicate FoundAt<R(==)>(ask: (nat, string) -> Option<R>, name: string, r: Option<R>, k: nat) {
    r.Some? && ask(k, name) == r && forall e :: 0 <= e < k ==> ask(e, name).None?
  }

  /** What was found once is never asked for again, and missing means missing in every round. */
  lemma {:induction false} FirstFoundMeans<R(!new)>(ask: (nat, string) -> Option<R>, name: string, last: nat)
    ensures FirstFound(ask, name, last).None? <==> forall k :: 0 <= k <= last ==> ask(k, name).None?
    ensures FirstFound(ask, name, last).Some? ==>
      exists k :: 0 <= k <= last && FoundAt(ask, name, FirstFound(ask, name, last), k)
  {
    if last > 0 {
      FirstFoundMeans(ask, name, last - 1);
      if FirstFound(ask, name, last - 1).None? && ask(last, name).Some? {
        assert FoundAt(ask, name, ask(last, name), last);
      }
    } else if ask(0, name).Some? {
      assert FoundAt(ask, name, ask(0, name), 0);
    }
  }

  function Missing<R>(found: seq<Option<R>>, n: nat): (r: seq<nat>)
    requires n <= |found|
    ensures forall i: nat :: i in r <==> i < n && found[i].None?
    ensures forall m :: 0 <= m < |r| ==> r[m] < n && found[r[m]].None?
    ensures forall a, b :: 0 <= a < b < |r| ==> r[a] < r[b]
  {
    if n == 0 then []
    else
      var earlier := Missing(found, n - 1);
      assert forall a :: 0 <= a < |earlier| ==> earlier[a] in earlier;
      earlier + if found[n - 1].None? then [n - 1] else []
  }

  /** A reply that is one answer per name gives for each name what the forge would say of it in that round. */
  predicate Says<R(==)>(reply: Reply<R>, names: seq<string>, round: nat, ask: (nat, string) -> Option<R>) {
    reply.Found? && |reply.answers| == |names| ==>
      forall j :: 0 <= j < |names| ==> reply.answers[j] == ask(round, names[j])
  }

  function OfRound<R>(asks: (nat, nat, seq<string>) -> Reply<R>, round: nat): (nat, seq<string>) -> Reply<R> {
    (k: nat, ns: seq<string>) => asks(round, k, ns)
  }

  /** Some batch of this round was refused, miscounted or interrupted. */
  predicate Fails<R>(results: seq<(Batch<R>, Option<Error>)>) {
    exists k :: 0 <= k < |results| && results[k].1.Some?
  }

  /** One round: a batched lookup of these names, all of it or nothing. */
  method LookRound<R(==, !new)>(names: seq<string>, round: nat, batchSize: nat, limit: nat, cancels: bool,
        asks: (nat, nat, seq<string>) -> Reply<R>, ghost ask: (nat, string) -> Option<R>)
    returns (found: Option<seq<Option<R>>>, ghost results: seq<(Batch<R>, Option<Error>)>)
    requires forall k, ns :: Says(asks(round, k, ns), ns, round, ask)
    ensures Batched(names, batchSize, cancels, OfRound(asks, round), results)
    ensures found.None? <==> Fails(results)
    ensures found.Some? ==>
      |found.value| == |names| && forall i :: 0 <= i < |names| ==> found.value[i] == ask(round, names[i])
  {
    hide Chunks, Spread, Named;
    var v, looked;
    v, results, looked := LookupAll(names, batchSize, limit, cancels, OfRound(asks, round));
    if !v.All? {
      return None, results;
    }
    found := Some(seq(|names|, i requires 0 <= i < |names| => v.items[i].0));
    forall i | 0 <= i < |names| ensures v.items[i].0 == ask(round, names[i]) {
      var k, j := LookedInOrder(names, batchSize, cancels, OfRound(asks, round), results, looked, i);
      assert Says(asks(round, k, results[k].0.names), results[k].0.names, round, ask);
      AskedOnce(results);
    }
  }

  /** One more round, for what is missing and nothing else. */
  method AskAgain<R(==, !new)>(names: seq<string>, round: nat, batchSize: nat, limit: nat, cancels: bool,
        asks: (nat, nat, seq<string>) -> Reply<R>, ghost ask: (nat, string) -> Option<R>, found: seq<Option<R>>,
        missing: seq<nat>)
    returns (more: Option<seq<Option<R>>>, ghost results: seq<(Batch<R>, Option<Error>)>)
    requires |found| == |names| && missing == Missing(found, |found|)
    requires forall k, ns :: Says(asks(round, k, ns), ns, round, ask)
    ensures Batched(NamesAt(names, missing), batchSize, cancels, OfRound(asks, round), results)
    ensures more.None? <==> Fails(results)
    ensures more.Some? ==> |more.value| == |names|
    ensures more.Some? ==> forall i :: 0 <= i < |names| ==>
      more.value[i] == if found[i].Some? then found[i] else ask(round, names[i])
  {
    hide Batched, Fails, OfRound, Says, NamesAt;
    var answers;
    answers, results := LookRound(NamesAt(names, missing), round, batchSize, limit, cancels, asks, ask);
    if answers.None? {
      return None, results;
    }
    var merged := found;
    for m := 0 to |missing|
      invariant |merged| == |names|
      invariant forall i :: 0 <= i < |names| ==>
        merged[i] == if i in missing[..m] then ask(round, names[i]) else found[i]
    {
      assert missing[..m + 1] == missing[..m] + [missing[m]];
      assert missing[m] in missing;
      merged := merged[missing[m] := answers.value[m]];
    }
    assert missing[..|missing|] == missing;
    more := Some(merged);
  }

  function NamesAt(names: seq<string>, places: seq<nat>): (r: seq<string>)
    requires forall m :: 0 <= m < |places| ==> places[m] < |names|
    ensures |r| == |places| && forall m :: 0 <= m < |places| ==> r[m] == names[places[m]]
  {
    seq(|places|, m requires 0 <= m < |places| => names[places[m]])
  }

  /** What was found by the end of a round. */
  ghost function FoundBy<R>(ask: (nat, string) -> Option<R>, names: seq<string>, round: nat): (r: seq<Option<R>>)
    ensures |r| == |names| && forall i :: 0 <= i < |names| ==> r[i] == FirstFound(ask, names[i], round)
  {
    seq(|names|, i requires 0 <= i < |names| => FirstFound(ask, names[i], round))
  }

  /** What a round asks for: all of it, and from then on what no round before has found, in the order given. */
  ghost function AskedFor<R>(ask: (nat, string) -> Option<R>, names: seq<string>, round: nat): seq<string> {
    if round == 0 then names
    else NamesAt(names, Missing(FoundBy(ask, names, round - 1), |names|))
  }

  /** The batches of a round are of what it asks for, and of nothing else. */
  ghost predicate IsRound<R(!new)>(names: seq<string>, round: nat, batchSize: nat, cancels: bool,
        asks: (nat, nat, seq<string>) -> Reply<R>, ask: (nat, string) -> Option<R>,
        results: seq<(Batch<R>, Option<Error>)>)
  {
    Batched(AskedFor(ask, names, round), batchSize, cancels, OfRound(asks, round), results)
  }

  /** Rounds one after the other, none of them failing but the last, where that did not go `well`. */
  ghost predicate Rounds<R(!new)>(names: seq<string>, batchSize: nat, cancels: bool,
        asks: (nat, nat, seq<string>) -> Reply<R>, ask: (nat, string) -> Option<R>,
        rounds: seq<seq<(Batch<R>, Option<Error>)>>, well: bool)
  {
    && rounds != []
    && (forall k :: 0 <= k < |rounds| ==> IsRound(names, k, batchSize, cancels, asks, ask, rounds[k]))
    && (forall k :: 0 <= k < |rounds| - 1 ==> !Fails(rounds[k]))
    && (well <==> !Fails(rounds[|rounds| - 1]))
  }

  lemma OneRound<R(!new)>(names: seq<string>, batchSize: nat, cancels: bool, asks: (nat, nat, seq<string>) -> Reply<R>,
        ask: (nat, string) -> Option<R>, results: seq<(Batch<R>, Option<Error>)>)
    requires Batched(names, batchSize, cancels, OfRound(asks, 0), results)
    ensures Rounds(names, batchSize, cancels, asks, ask, [results], !Fails(results))
  {
    hide Batched, Fails, OfRound;
  }

  lemma OneMoreRound<R(!new)>(names: seq<string>, batchSize: nat, cancels: bool,
        asks: (nat, nat, seq<string>) -> Reply<R>, ask: (nat, string) -> Option<R>,
        rounds: seq<seq<(Batch<R>, Option<Error>)>>, results: seq<(Batch<R>, Option<Error>)>)
    requires Rounds(names, batchSize, cancels, asks, ask, rounds, true)
    requires IsRound(names, |rounds|, batchSize, cancels, asks, ask, results)
    ensures Rounds(names, batchSize, cancels, asks, ask, rounds + [results], !Fails(results))
  {
    hide IsRound, Fails;
  }

  /** What is missing is what the next round asks for. */
  lemma MissingIsAskedFor<R>(ask: (nat, string) -> Option<R>, names: seq<string>, round: nat, seen: seq<Option<R>>)
    requires |seen| == |names| && forall i :: 0 <= i < |names| ==> seen[i] == FirstFound(ask, names[i], round)
    ensures AskedFor(ask, names, round + 1) == NamesAt(names, Missing(seen, |seen|))
  {
    hide FirstFound, Missing, NamesAt;
    assert seen == FoundBy(ask, names, round);
  }

  lemma FoundAtOnce<R>(ask: (nat, string) -> Option<R>, names: seq<string>)
    ensures forall i :: 0 <= i < |names| ==> FirstFound(ask, names[i], 0) == ask(0, names[i])
  {
  }

  lemma FoundOneRoundLater<R>(ask: (nat, string) -> Option<R>, names: seq<string>, round: nat)
    requires round > 0
    ensures forall i :: 0 <= i < |names| ==>
      FirstFound(ask, names[i], round) ==
        if FirstFound(ask, names[i], round - 1).Some? then FirstFound(ask, names[i], round - 1)
        else ask(round, names[i])
  {
  }

  /** The time is counted from the end of the first round. */
  function AfterTheFirst(took: nat -> nat): nat -> nat {
    (k: nat) => if k == 0 then 0 else took(k)
  }

  /**
   * Rounds of batched lookups, each of what is still missing, until nothing is or the time is up; a
   * round that fails or is interrupted ends it all. `asks(k, b, ns)` is what the forge replies to the
   * b-th batch of round `k`, and `ask` what that says of each name; `took` how long each round takes.
   */
  method LookupConfirmed<R(==, !new)>(names: seq<string>, batchSize: nat, limit: nat, cancels: bool,
        asks: (nat, nat, seq<string>) -> Reply<R>, ghost ask: (nat, string) -> Option<R>, took: nat -> nat)
    returns (found: Option<seq<Option<R>>>, last: nat, now: nat,
             ghost rounds: seq<seq<(Batch<R>, Option<Error>)>>)
    requires forall round, k, ns :: Says(asks(round, k, ns), ns, round, ask)
    ensures |rounds| == last + 1 && Rounds(names, batchSize, cancels, asks, ask, rounds, found.Some?)
    ensures found.Some? ==> |found.value| == |names|
    ensures found.Some? ==> forall i :: 0 <= i < |names| ==> found.value[i] == FirstFound(ask, names[i], last)
    ensures found.Some? && (exists i :: 0 <= i < |names| && found.value[i].None?) ==> now >= CONFIRM_DEADLINE
    ensures now == LookClock(CONFIRM_FIRST_PAUSE, AfterTheFirst(took), last)
    ensures forall k :: 0 <= k < last ==> LookClock(CONFIRM_FIRST_PAUSE, AfterTheFirst(took), k) < CONFIRM_DEADLINE
  {
    hide Batched, Fails, Says, OfRound, FirstFound, Missing, NamesAt, Rounds, AskedFor, LookClock, DoubledPause, Min;
    last, now := 0, 0;
    LooksBegin(CONFIRM_FIRST_PAUSE, AfterTheFirst(took));
    var first;
    ghost var results;
    first, results := LookRound(names, 0, batchSize, limit, cancels, asks, ask);
    rounds := [results];
    OneRound(names, batchSize, cancels, asks, ask, results);
    if first.None? {
      return None, 0, 0, rounds;
    }
    var seen := first.value;
    assert forall i :: 0 <= i < |names| ==> FirstFound(ask, names[i], 0) == ask(0, names[i]) by {
      FoundAtOnce(ask, names);
    }
    var pause := CONFIRM_FIRST_PAUSE;
    while true
      invariant |seen| == |names| && |rounds| == last + 1
      invariant forall i :: 0 <= i < |names| ==> seen[i] == FirstFound(ask, names[i], last)
      invariant Rounds(names, batchSize, cancels, asks, ask, rounds, true)
      invariant pause == DoubledPause(CONFIRM_FIRST_PAUSE, last)
      invariant now == LookClock(CONFIRM_FIRST_PAUSE, AfterTheFirst(took), last)
      invariant forall k :: 0 <= k < last ==>
        LookClock(CONFIRM_FIRST_PAUSE, AfterTheFirst(took), k) < CONFIRM_DEADLINE
      decreases CONFIRM_DEADLINE - now
    {
      var missing := Missing(seen, |seen|);
      if missing == [] || now >= CONFIRM_DEADLINE {
        assert forall i: nat :: i < |names| && seen[i].None? ==> i in missing;
        return Some(seen), last, now, rounds;
      }
      MissingIsAskedFor(ask, names, last, seen);
      LooksGoOn(CONFIRM_FIRST_PAUSE, AfterTheFirst(took), last);
      LooksGoOn(CONFIRM_FIRST_PAUSE, AfterTheFirst(took), last + 1);
      now := now + pause + took(last + 1);
      pause := Min(2 * pause, LONGEST_PAUSE);
      last := last + 1;
      var more;
      more, results := AskAgain(names, last, batchSize, limit, cancels, asks, ask, seen, missing);
      OneMoreRound(names, batchSize, cancels, asks, ask, rounds, results);
      rounds := rounds + [results];
      if more.None? {
        return None, last, now, rounds;
      }
      FoundOneRoundLater(ask, names, last);
      seen := more.value;
    }
  }
}
