/** Reading a forge's answer into a class, and the pause the server asked for. */
module Classify {
  import opened Text

  datatype Class =
    | NotFound | Conflict | Unprocessable | Auth | Forbidden | RateLimited | Transient | Permanent

  /** What is read of an answer: the numbers in its headers have been parsed, where they parse. */
  datatype Response = Response(
    status: nat,
    retryAfter: Option<nat>,
    remaining: Option<string>,
    reset: Option<int>,
    body: string)

  /** The pause is in seconds. */
  datatype Classified = Classified(class_: Class, wait: Option<nat>)

  datatype Kind = Forgejo | Github | GithubGraphql | Gitlab | AzureDevOps

  function OfStatus(status: nat): Class {
    match status
    case 404 => NotFound
    case 409 => Conflict
    case 422 => Unprocessable
    case 401 => Auth
    case 403 => Forbidden
    case 429 => RateLimited
    case _ => if status in {408, 500, 502, 503, 504} then Transient else Permanent
  }

  function RetryAfter(r: Response): Option<nat> {
    if r.retryAfter.Some? then Some(r.retryAfter.value + 1) else None
  }

  function Generic(r: Response): Classified {
    var c := OfStatus(r.status);
    Classified(c, if c.RateLimited? then RetryAfter(r) else None)
  }

  function ForgejoReads(r: Response): Classified {
    if r.status == 503 && RetryAfter(r).Some? then Classified(RateLimited, RetryAfter(r)) else Generic(r)
  }

  const SECONDARY_WAIT := 60

  function AtLeastOne(x: int): nat {
    if x < 1 then 1 else x
  }

  function GithubReads(r: Response, now: int): Classified {
    if r.status != 403 && r.status != 429 then Generic(r)
    else if RetryAfter(r).Some? then Classified(RateLimited, RetryAfter(r))
    else if r.remaining == Some("0") && r.reset.Some? then
      Classified(RateLimited, Some(AtLeastOne(r.reset.value - now)))
    else if Has(Lower(r.body), "secondary rate limit") then Classified(RateLimited, Some(SECONDARY_WAIT))
    else if r.status == 429 then Classified(RateLimited, Some(60))
    else Classified(Forbidden, None)
  }

  function GraphqlReads(r: Response, now: int): Classified {
    if r.status == 200 then
      if Has(r.body, "RATE_LIMITED") then
        Classified(RateLimited, Some(if r.reset.Some? then AtLeastOne(r.reset.value - now) else SECONDARY_WAIT))
      else Generic(r)
    else GithubReads(r, now)
  }

  function AzureReads(r: Response): Classified {
    if r.status == 203 then Classified(Auth, None) else Generic(r)
  }

  function Reads(kind: Kind, r: Response, now: int): Classified {
    match kind
    case Forgejo => ForgejoReads(r)
    case Github => GithubReads(r, now)
    case GithubGraphql => GraphqlReads(r, now)
    case Gitlab => Generic(r)
    case AzureDevOps => AzureReads(r)
  }

  /**
   * Only a rate limit carries a pause, and no forge's is shorter than a second, whatever its headers
   * say: a `Retry-After: 0` and a reset that is already past included.
   */
  lemma PausesAreAtLeastASecond(kind: Kind, r: Response, now: int)
    ensures Reads(kind, r, now).wait.Some? ==>
      Reads(kind, r, now).class_.RateLimited? && Reads(kind, r, now).wait.value >= 1
  {
  }

  /** GitHub's own word for a rate limit, on a 403 or a 429. */
  predicate GithubLimits(r: Response) {
    || r.status == 429
    || (r.status == 403
        && (|| r.retryAfter.Some? || (r.remaining == Some("0") && r.reset.Some?)
            || Has(Lower(r.body), "secondary rate limit")))
  }

  /** What each forge calls a rate limit, a passing failure, and a credential it does not take. */
  lemma ClassesAreExact(kind: Kind, r: Response, now: int)
    ensures Reads(kind, r, now).class_.RateLimited? <==>
      match kind
      case Forgejo => r.status == 429 || (r.status == 503 && r.retryAfter.Some?)
      case Github => GithubLimits(r)
      case GithubGraphql => GithubLimits(r) || (r.status == 200 && Has(r.body, "RATE_LIMITED"))
      case _ => r.status == 429
    ensures Reads(kind, r, now).class_.Transient? <==>
      r.status in {408, 500, 502, 503, 504} && !(kind.Forgejo? && r.status == 503 && r.retryAfter.Some?)
    ensures Reads(kind, r, now).class_.Auth? <==> r.status == 401 || (kind.AzureDevOps? && r.status == 203)
  {
    hide Has, Lower;
  }

  /**
   * What the server asked for is waited out: more than its `Retry-After`, where that is read, and
   * otherwise GitHub's reset; a pause of forgelab's own, a minute, only where GitHub names none.
   */
  lemma PausesAreAsAsked(kind: Kind, r: Response, now: int)
    requires Reads(kind, r, now).class_.RateLimited?
    ensures
      var wait, counted := Reads(kind, r, now).wait, r.reset.Some? && r.remaining == Some("0");
      && (r.retryAfter.Some? && !(kind.GithubGraphql? && r.status == 200) ==> wait == Some(r.retryAfter.value + 1))
      && (r.retryAfter.None? && (kind.Forgejo? || kind.Gitlab? || kind.AzureDevOps?) ==> wait.None?)
      && (kind.GithubGraphql? && r.status == 200 && r.reset.Some? ==>
            wait.Some? && wait.value >= r.reset.value - now && (wait.value == r.reset.value - now || wait.value == 1))
      && (r.retryAfter.None? && (kind.Github? || (kind.GithubGraphql? && r.status != 200)) && counted ==>
            wait.Some? && wait.value >= r.reset.value - now && (wait.value == r.reset.value - now || wait.value == 1))
      && (r.retryAfter.None? && (kind.Github? || (kind.GithubGraphql? && r.status != 200)) && !counted ==>
            wait == Some(60))
      && (kind.GithubGraphql? && r.status == 200 && r.reset.None? ==> wait == Some(60))
  {
    hide Has, Lower;
  }

  /** A plain refusal is never waited out: a 403 is a rate limit only on GitHub, and only on its word. */
  lemma ForbiddenIsNotWaitedOut(kind: Kind, r: Response, now: int)
    requires r.status == 403
    ensures Reads(kind, r, now).class_.RateLimited? <==>
      && (kind.Github? || kind.GithubGraphql?)
      && (|| r.retryAfter.Some? || (r.remaining == Some("0") && r.reset.Some?)
          || Has(Lower(r.body), "secondary rate limit"))
    ensures Reads(kind, r, now).class_.RateLimited? || Reads(kind, r, now).class_.Forbidden?
  {
  }
}

/** One logical request: its attempts, its pauses and its budget, in milliseconds. */
module Http {
  import opened Helpers
  import opened Text
  import opened Classify

  datatype Policy = Policy(budget: nat, base: nat, cap: nat, defaultWait: nat, timeout: nat)

  /** What came of one attempt. */
  datatype Exchange = Lost(beforeSend: bool) | Got(response: Response)

  datatype Result =
    | Answered(response: Response) | LostForGood | Exceeded(wait: nat) | Failed(class_: Class) | EmptyBody | Cancelled

  function Pow2(n: nat): (r: nat)
    ensures r >= 1
  {
    if n == 0 then 1 else 2 * Pow2(n - 1)
  }

  /** The longest pause after the n-th attempt, before jitter. */
  function Capped(p: Policy, attempt: nat): nat
    requires attempt >= 1
  {
    Min(p.base * Pow2(attempt - 1), p.cap)
  }

  /** Full jitter, but never under a tenth. */
  predicate IsBackoff(p: Policy, attempt: nat, pause: nat)
    requires attempt >= 1
  {
    pause <= Capped(p, attempt) && 10 * pause >= Capped(p, attempt)
  }

  lemma CappedIsAtLeastBase(p: Policy, attempt: nat)
    requires attempt >= 1 && p.cap >= p.base
    ensures Capped(p, attempt) >= p.base
  {
    var n := Pow2(attempt - 1);
    assert p.base * n >= p.base * 1;
  }

  /** The verbs a blind repetition of which does no harm (RFC 9110, section 9.2.2). */
  predicate IsIdempotent(verb: string) {
    verb in {"GET", "HEAD", "OPTIONS", "TRACE", "PUT", "DELETE"}
  }

  /** What the client assumes where it is not told. */
  predicate AssumedIdempotent(verb: string) {
    verb != "POST"
  }

  /** The assumption is wider than the standard: by every other verb, PATCH first of all. */
  lemma AssumptionIsWider(verb: string)
    ensures IsIdempotent(verb) ==> AssumedIdempotent(verb)
    ensures AssumedIdempotent(verb) && !IsIdempotent(verb) <==>
      verb !in {"GET", "HEAD", "OPTIONS", "TRACE", "PUT", "DELETE", "POST"}
    ensures AssumedIdempotent("PATCH") && !IsIdempotent("PATCH")
  {
  }

  /** A 2xx that the classifier does not veto. */
  predicate Succeeds(kind: Kind, r: Response, now: int) {
    Good(r.status) && !(Reads(kind, r, now).class_.Auth? || Reads(kind, r, now).class_.RateLimited?)
  }

  predicate IsSpace(c: char) {
    c in " \t\n\r\U{0c}"
  }

  /** Without the white space around it. */
  function Trimmed(s: string): string {
    if s != "" && IsSpace(s[0]) then Trimmed(s[1..])
    else if s != "" && IsSpace(s[|s| - 1]) then Trimmed(s[..|s| - 1])
    else s
  }

  /** No body, or a `null` for one. */
  predicate SaysNothing(body: string) {
    body == "" || Trimmed(body) == "null"
  }

  /** An attempt after which even a request that must not be done twice may be sent again. */
  predicate SafeToRepeat(kind: Kind, e: Exchange, clock: int) {
    match e
    case Lost(beforeSend) => beforeSend
    case Got(r) => Reads(kind, r, clock).class_.RateLimited?
  }

  function Wait(p: Policy, kind: Kind, r: Response, clock: int): nat {
    var w := Reads(kind, r, clock).wait;
    if w.Some? then 1000 * w.value else p.defaultWait
  }

  function Shortest(p: Policy): nat {
    Min(p.base, 10000)
  }

  /** The pauses taken so far: each ends by the deadline, and none is under a tenth of the shortest. */
  datatype Pause = Pause(start: nat, length: nat)

  predicate InTime(pauses: seq<Pause>, deadline: nat, shortest: nat) {
    forall i :: 0 <= i < |pauses| ==>
      pauses[i].start + pauses[i].length <= deadline && 10 * pauses[i].length >= shortest
  }

  /** Whether and how long to pause before trying again; `None` ends the request. */
  function Retry(p: Policy, kind: Kind, idempotent: bool, expectBody: bool, e: Exchange, clock: int, now: nat,
        deadline: nat, backoff: nat)
    : (Option<nat>, Result)
  {
    match e
    case Lost(beforeSend) =>
      (if (idempotent || beforeSend) && now + backoff < deadline then Some(backoff) else None, LostForGood)
    case Got(r) =>
      if Succeeds(kind, r, clock) then
        if expectBody && SaysNothing(r.body) then
          (if idempotent && now + backoff < deadline then Some(backoff) else None, EmptyBody)
        else (None, Answered(r))
      else
        var c := Reads(kind, r, clock).class_;
        if c.RateLimited? then
          var w := Wait(p, kind, r, clock);
          if now + w > deadline then (None, Exceeded(w)) else (Some(w), Failed(c))
        else if c.Transient? && idempotent && now + backoff < deadline then (Some(backoff), Failed(c))
        else (None, Failed(c))
  }

  lemma RetryIsSafe(p: Policy, kind: Kind, idempotent: bool, expectBody: bool, e: Exchange, clock: int, now: nat,
        deadline: nat, attempt: nat, backoff: nat)
    requires attempt >= 1 && p.cap >= p.base > 0 && p.defaultWait >= 1000 && IsBackoff(p, attempt, backoff)
    ensures
      var (pause, _) := Retry(p, kind, idempotent, expectBody, e, clock, now, deadline, backoff);
      pause.Some? ==>
        && now + pause.value <= deadline && 10 * pause.value >= Shortest(p) && pause.value > 0
        && (!idempotent ==> SafeToRepeat(kind, e, clock))
  {
    hide Reads;
    CappedIsAtLeastBase(p, attempt);
    if e.Got? {
      PausesAreAtLeastASecond(kind, e.response, clock);
    }
  }

  /** All within the time the request had the lane for. */
  predicate Within(pauses: seq<Pause>, lane: nat, end: nat) {
    lane <= end && forall i :: 0 <= i < |pauses| ==>
      lane <= pauses[i].start && pauses[i].start + pauses[i].length <= end
  }

  /** When whoever makes the request stops it, if they do: during an attempt, or so far into the pause after it. */
  datatype Stop = Never | InAttempt | InPause(after: nat)

  /** What the world does to a request: how each attempt ends and when, each backoff's luck, and who stops it. */
  datatype World = World(
    exchange: nat -> Exchange,
    took: nat -> nat,
    backoff: nat -> nat,
    clock: nat -> int,
    stop: nat -> Stop)

  predicate Fair(p: Policy, w: World, n: nat) {
    forall k :: 1 <= k <= n ==> w.took(k) <= p.timeout && IsBackoff(p, k, w.backoff(k))
  }

  /** An attempt that answers: a 2xx its forge does not veto, with a body where one is due. */
  predicate Answers(kind: Kind, expectBody: bool, e: Exchange, clock: int) {
    e.Got? && Succeeds(kind, e.response, clock) && !(expectBody && SaysNothing(e.response.body))
  }

  /** The forge asks for a pause. */
  predicate Limited(kind: Kind, e: Exchange, clock: int) {
    e.Got? && Reads(kind, e.response, clock).class_.RateLimited?
  }

  /**
   * What is tried again after a backoff: a request never sent; and, if it may be done twice, one that
   * was lost, one answered with a failure that may pass, or one answered without the body that is due.
   */
  predicate MayRepeat(kind: Kind, idempotent: bool, expectBody: bool, e: Exchange, clock: int) {
    match e
    case Lost(beforeSend) => idempotent || beforeSend
    case Got(r) =>
      && idempotent
      && if Succeeds(kind, r, clock) then expectBody && SaysNothing(r.body) else Reads(kind, r, clock).class_.Transient?
  }

  /** How long the pause after an attempt would be. */
  function Due(p: Policy, kind: Kind, e: Exchange, clock: int, backoff: nat): nat {
    if Limited(kind, e, clock) then Wait(p, kind, e.response, clock) else backoff
  }

  /** There is to be another attempt: one is called for, and there is time for the pause before it. */
  predicate GoesOn(p: Policy, kind: Kind, idempotent: bool, expectBody: bool, e: Exchange, clock: int, at: nat,
        deadline: nat, backoff: nat)
  {
    var pause := Due(p, kind, e, clock, backoff);
    if Limited(kind, e, clock) then at + pause <= deadline
    else MayRepeat(kind, idempotent, expectBody, e, clock) && at + pause < deadline
  }

  /** What is reported of a last attempt that was not stopped. */
  predicate Reports(p: Policy, kind: Kind, expectBody: bool, e: Exchange, clock: int, result: Result) {
    match e
    case Lost(_) => result == LostForGood
    case Got(r) =>
      if Answers(kind, expectBody, e, clock) then result == Answered(r)
      else if Succeeds(kind, r, clock) then result == EmptyBody
      else if Limited(kind, e, clock) then result == Exceeded(Wait(p, kind, r, clock))
      else result == Failed(Reads(kind, r, clock).class_)
  }

  /** The step function is what these four say. */
  lemma RetryMeans(p: Policy, kind: Kind, idempotent: bool, expectBody: bool, e: Exchange, clock: int, now: nat,
        deadline: nat, backoff: nat)
    ensures
      var (pause, outcome) := Retry(p, kind, idempotent, expectBody, e, clock, now, deadline, backoff);
      && (pause.Some? <==> GoesOn(p, kind, idempotent, expectBody, e, clock, now, deadline, backoff))
      && (pause.Some? ==> pause.value == Due(p, kind, e, clock, backoff))
      && (pause.None? ==> Reports(p, kind, expectBody, e, clock, outcome))
  {
    hide Reads, SaysNothing;
  }

  /** When the k-th attempt ends: it begins as the pause before it is over. */
  function AttemptEnds(lane: nat, w: World, pauses: seq<Pause>, k: nat): nat
    requires 1 <= k <= |pauses| + 1
  {
    w.took(k) + if k == 1 then lane else pauses[k - 2].start + pauses[k - 2].length
  }

  /** The k-th attempt was followed by the pause that was due, and by another attempt. */
  predicate FollowedUp(p: Policy, kind: Kind, idempotent: bool, expectBody: bool, deadline: nat, lane: nat, w: World,
        pauses: seq<Pause>, k: nat)
    requires 1 <= k <= |pauses|
  {
    var at := AttemptEnds(lane, w, pauses, k);
    && GoesOn(p, kind, idempotent, expectBody, w.exchange(k), w.clock(k), at, deadline, w.backoff(k))
    && pauses[k - 1] == Pause(at, Due(p, kind, w.exchange(k), w.clock(k), w.backoff(k)))
    && !w.stop(k).InAttempt? && (w.stop(k).InPause? ==> w.stop(k).after >= pauses[k - 1].length)
  }

  /** The last attempt: stopped, or the pause after it was; or there is to be no other. */
  predicate Over(p: Policy, kind: Kind, idempotent: bool, expectBody: bool, deadline: nat, at: nat, w: World, k: nat,
        result: Result, end: nat)
  {
    var goesOn := GoesOn(p, kind, idempotent, expectBody, w.exchange(k), w.clock(k), at, deadline, w.backoff(k));
    if w.stop(k).InAttempt? then result == Cancelled && end == at
    else if goesOn then
      && w.stop(k).InPause? && w.stop(k).after < Due(p, kind, w.exchange(k), w.clock(k), w.backoff(k))
      && result == Cancelled && end == at + w.stop(k).after
    else end == at && Reports(p, kind, expectBody, w.exchange(k), w.clock(k), result)
  }

  /** The whole course of a request, from the first attempt to the last. */
  ghost predicate Course(p: Policy, kind: Kind, idempotent: bool, expectBody: bool, start: nat, lane: nat, w: World,
        result: Result, end: nat, pauses: seq<Pause>)
  {
    var deadline, last := start + p.budget, |pauses| + 1;
    && (forall k :: 1 <= k < last ==> FollowedUp(p, kind, idempotent, expectBody, deadline, lane, w, pauses, k))
    && Over(p, kind, idempotent, expectBody, deadline, AttemptEnds(lane, w, pauses, last), w, last, result, end)
  }

  /** If it does not go on though it might, that is for lack of time. */
  lemma LastAttempt(p: Policy, kind: Kind, idempotent: bool, expectBody: bool, e: Exchange, clock: int, at: nat,
        deadline: nat, backoff: nat)
    ensures !GoesOn(p, kind, idempotent, expectBody, e, clock, at, deadline, backoff) ==>
      && (MayRepeat(kind, idempotent, expectBody, e, clock) ==> at + backoff >= deadline)
      && (Limited(kind, e, clock) ==> at + Wait(p, kind, e.response, clock) > deadline)
  {
    hide Reads, Wait;
    if Limited(kind, e, clock) {
      LimitsAreNotRepeated(kind, idempotent, expectBody, e, clock);
    }
  }

  lemma LimitsAreNotRepeated(kind: Kind, idempotent: bool, expectBody: bool, e: Exchange, clock: int)
    requires Limited(kind, e, clock)
    ensures !MayRepeat(kind, idempotent, expectBody, e, clock)
  {
    hide Reads;
  }

  lemma ReportsMean(p: Policy, kind: Kind, expectBody: bool, e: Exchange, clock: int, result: Result)
    requires Reports(p, kind, expectBody, e, clock, result)
    ensures !result.Cancelled? && (result.Answered? <==> Answers(kind, expectBody, e, clock))
    ensures result.Answered? ==> e == Got(result.response)
    ensures Limited(kind, e, clock) ==> result.Exceeded?
  {
    hide Reads, SaysNothing;
  }

  lemma OneMoreAttempt(p: Policy, kind: Kind, idempotent: bool, expectBody: bool, deadline: nat, lane: nat, w: World,
        pauses: seq<Pause>, now: nat)
    requires forall k :: 1 <= k <= |pauses| ==>
      FollowedUp(p, kind, idempotent, expectBody, deadline, lane, w, pauses, k)
    requires now == if pauses == [] then lane else pauses[|pauses| - 1].start + pauses[|pauses| - 1].length
    requires
      var k, at := |pauses| + 1, now + w.took(|pauses| + 1);
      && GoesOn(p, kind, idempotent, expectBody, w.exchange(k), w.clock(k), at, deadline, w.backoff(k))
      && !w.stop(k).InAttempt?
      && (w.stop(k).InPause? ==> w.stop(k).after >= Due(p, kind, w.exchange(k), w.clock(k), w.backoff(k)))
    ensures
      var n, at := |pauses| + 1, now + w.took(|pauses| + 1);
      var more := pauses + [Pause(at, Due(p, kind, w.exchange(n), w.clock(n), w.backoff(n)))];
      forall k :: 1 <= k <= n ==> FollowedUp(p, kind, idempotent, expectBody, deadline, lane, w, more, k)
  {
    hide GoesOn, Due;
    var n, at := |pauses| + 1, now + w.took(|pauses| + 1);
    var more := pauses + [Pause(at, Due(p, kind, w.exchange(n), w.clock(n), w.backoff(n)))];
    forall k | 1 <= k <= n ensures FollowedUp(p, kind, idempotent, expectBody, deadline, lane, w, more, k) {
      if k < n {
        assert FollowedUp(p, kind, idempotent, expectBody, deadline, lane, w, pauses, k);
      }
    }
  }

  /** The pauses so far have taken their time: no more of them fit than that allows. */
  predicate Spent(p: Policy, pauses: seq<Pause>, spent: int) {
    |pauses| * Shortest(p) <= 10 * spent
  }

  lemma OneMorePause(p: Policy, pauses: seq<Pause>, pause: Pause, spent: int, took: nat)
    requires Spent(p, pauses, spent) && 10 * pause.length >= Shortest(p)
    ensures Spent(p, pauses + [pause], spent + took + pause.length)
  {
    hide Shortest;
    assert (|pauses| + 1) * Shortest(p) == |pauses| * Shortest(p) + Shortest(p);
  }

  /** A request as far as it has got: every attempt so far was followed up, and the next begins now. */
  ghost predicate Underway(p: Policy, kind: Kind, idempotent: bool, expectBody: bool, deadline: nat, lane: nat,
        w: World, pauses: seq<Pause>, now: nat)
  {
    && InTime(pauses, deadline, Shortest(p)) && Within(pauses, lane, now) && (pauses != [] ==> now <= deadline)
    && now == (if pauses == [] then lane else pauses[|pauses| - 1].start + pauses[|pauses| - 1].length)
    && Spent(p, pauses, now - lane)
    && (!idempotent ==> forall k :: 1 <= k <= |pauses| ==> SafeToRepeat(kind, w.exchange(k), w.clock(k)))
    && forall k :: 1 <= k <= |pauses| ==>
         FollowedUp(p, kind, idempotent, expectBody, deadline, lane, w, pauses, k)
  }

  lemma NotUnderwayYet(p: Policy, kind: Kind, idempotent: bool, expectBody: bool, deadline: nat, lane: nat, w: World)
    ensures Underway(p, kind, idempotent, expectBody, deadline, lane, w, [], lane)
  {
  }

  lemma StillUnderway(p: Policy, kind: Kind, idempotent: bool, expectBody: bool, deadline: nat, lane: nat, w: World,
        pauses: seq<Pause>, now: nat)
    requires p.cap >= p.base > 0 && p.defaultWait >= 1000 && Fair(p, w, |pauses| + 1)
    requires Underway(p, kind, idempotent, expectBody, deadline, lane, w, pauses, now)
    requires
      var k, at := |pauses| + 1, now + w.took(|pauses| + 1);
      var pause := Due(p, kind, w.exchange(k), w.clock(k), w.backoff(k));
      && GoesOn(p, kind, idempotent, expectBody, w.exchange(k), w.clock(k), at, deadline, w.backoff(k))
      && !w.stop(k).InAttempt? && (w.stop(k).InPause? ==> w.stop(k).after >= pause)
    ensures
      var k, at := |pauses| + 1, now + w.took(|pauses| + 1);
      var pause := Due(p, kind, w.exchange(k), w.clock(k), w.backoff(k));
      && pause > 0 && at + pause <= deadline
      && Underway(p, kind, idempotent, expectBody, deadline, lane, w, pauses + [Pause(at, pause)], at + pause)
  {
    hide GoesOn, Due, SafeToRepeat;
    var k, at := |pauses| + 1, now + w.took(|pauses| + 1);
    var pause := Due(p, kind, w.exchange(k), w.clock(k), w.backoff(k));
    var more := pauses + [Pause(at, pause)];
    RetryIsSafe(p, kind, idempotent, expectBody, w.exchange(k), w.clock(k), at, deadline, k, w.backoff(k));
    RetryMeans(p, kind, idempotent, expectBody, w.exchange(k), w.clock(k), at, deadline, w.backoff(k));
    OneMorePause(p, pauses, more[|pauses|], now - lane, w.took(k));
    hide Retry, Shortest, Spent, FollowedUp, AttemptEnds, Wait;
    OneMoreAttempt(p, kind, idempotent, expectBody, deadline, lane, w, pauses, now);
  }

  /** All that is said of a request that has come to its end. */
  ghost predicate Sent(p: Policy, kind: Kind, idempotent: bool, expectBody: bool, start: nat, lane: nat, w: World,
        result: Result, end: nat, pauses: seq<Pause>)
  {
    && InTime(pauses, start + p.budget, Shortest(p)) && Within(pauses, lane, end)
    && end <= (if lane > start + p.budget then lane else start + p.budget) + p.timeout
    && Spent(p, pauses, p.budget)
    && (!idempotent ==> forall k :: 1 <= k <= |pauses| ==> SafeToRepeat(kind, w.exchange(k), w.clock(k)))
    && Course(p, kind, idempotent, expectBody, start, lane, w, result, end, pauses)
  }

  lemma SentAtLast(p: Policy, kind: Kind, idempotent: bool, expectBody: bool, start: nat, lane: nat, w: World,
        result: Result, end: nat, pauses: seq<Pause>, now: nat)
    requires start <= lane && Fair(p, w, |pauses| + 1)
    requires Underway(p, kind, idempotent, expectBody, start + p.budget, lane, w, pauses, now)
    requires
      var last := |pauses| + 1;
      Over(p, kind, idempotent, expectBody, start + p.budget, now + w.took(last), w, last, result, end)
    ensures Sent(p, kind, idempotent, expectBody, start, lane, w, result, end, pauses)
  {
    hide Due, SafeToRepeat, Reports, FollowedUp, Shortest, GoesOn;
    var k, at := |pauses| + 1, now + w.took(|pauses| + 1);
    assert AttemptEnds(lane, w, pauses, k) == at;
    assert at <= end && (end > at ==> end <= start + p.budget) by {
      EndsInTime(p, kind, idempotent, expectBody, start + p.budget, at, w, k, result, end);
    }
    SpentOnPauses(p, pauses, now - lane);
    hide Over, Spent;
  }

  lemma EndsInTime(p: Policy, kind: Kind, idempotent: bool, expectBody: bool, deadline: nat, at: nat, w: World, k: nat,
        result: Result, end: nat)
    requires Over(p, kind, idempotent, expectBody, deadline, at, w, k, result, end)
    ensures at <= end && (end > at ==> end <= deadline)
  {
    hide Limited, MayRepeat, Reports;
  }

  lemma SpentOnPauses(p: Policy, pauses: seq<Pause>, spent: int)
    requires Spent(p, pauses, spent) && (pauses != [] ==> spent <= p.budget)
    ensures Spent(p, pauses, p.budget)
  {
  }

  /** And what the end of it means. */
  lemma SentMeans(p: Policy, kind: Kind, idempotent: bool, expectBody: bool, start: nat, lane: nat, w: World,
        result: Result, end: nat, pauses: seq<Pause>)
    requires Sent(p, kind, idempotent, expectBody, start, lane, w, result, end, pauses) && !result.Cancelled?
    ensures
      var e, clock, backoff := w.exchange(|pauses| + 1), w.clock(|pauses| + 1), w.backoff(|pauses| + 1);
      && (result.Answered? <==> Answers(kind, expectBody, e, clock)) && (result.Answered? ==> e == Got(result.response))
      && (MayRepeat(kind, idempotent, expectBody, e, clock) ==> end + backoff >= start + p.budget)
      && (Limited(kind, e, clock) ==> result.Exceeded? && end + Wait(p, kind, e.response, clock) > start + p.budget)
  {
    hide InTime, Within, SafeToRepeat, Spent, FollowedUp, Reads, MayRepeat, Limited, Due, Reports, GoesOn, Wait;
    hide Answers;
    var k := |pauses| + 1;
    LastAttempt(p, kind, idempotent, expectBody, w.exchange(k), w.clock(k), end, start + p.budget, w.backoff(k));
    ReportsMean(p, kind, expectBody, w.exchange(k), w.clock(k), result);
  }

  /**
   * The attempts of one logical request. It was called at `start` and got the write lane, if it needs
   * one, at `lane`. `limit` is any number of attempts the world is described for.
   */
  method Send(p: Policy, kind: Kind, idempotent: bool, expectBody: bool, start: nat, lane: nat, w: World)
    returns (result: Result, attempts: nat, end: nat, ghost pauses: seq<Pause>)
    requires start <= lane && p.cap >= p.base > 0 && p.defaultWait >= 1000
    requires forall n :: Fair(p, w, n)
    ensures |pauses| == attempts - 1
    ensures Sent(p, kind, idempotent, expectBody, start, lane, w, result, end, pauses)
    ensures !result.Cancelled? && MayRepeat(kind, idempotent, expectBody, w.exchange(attempts), w.clock(attempts)) ==>
      end + w.backoff(attempts) >= start + p.budget
    ensures !result.Cancelled? && Limited(kind, w.exchange(attempts), w.clock(attempts)) ==>
      && end + Wait(p, kind, w.exchange(attempts).response, w.clock(attempts)) > start + p.budget
      && result.Exceeded?
    ensures !result.Cancelled? ==>
      (result.Answered? <==> Answers(kind, expectBody, w.exchange(attempts), w.clock(attempts)))
    ensures result.Answered? ==> w.exchange(attempts) == Got(result.response)
  {
    hide Retry, Due, GoesOn, Reports, Underway, Sent, MayRepeat, Limited, Answers, Wait, SafeToRepeat, Fair;
    var deadline, now: nat := start + p.budget, lane;
    attempts, pauses := 0, [];
    NotUnderwayYet(p, kind, idempotent, expectBody, deadline, lane, w);
    while true
      invariant |pauses| == attempts && (attempts > 0 ==> now <= deadline)
      invariant Underway(p, kind, idempotent, expectBody, deadline, lane, w, pauses, now)
      decreases if attempts == 0 then 1 else 0, deadline - now
    {
      attempts := attempts + 1;
      assert Fair(p, w, attempts);
      var e, clock := w.exchange(attempts), w.clock(attempts);
      ghost var began := now;
      now := now + w.took(attempts);
      end := now;
      RetryMeans(p, kind, idempotent, expectBody, e, clock, now, deadline, w.backoff(attempts));
      if w.stop(attempts).InAttempt? {
        SentAtLast(p, kind, idempotent, expectBody, start, lane, w, Cancelled, end, pauses, began);
        return Cancelled, attempts, end, pauses;
      }
      var (pause, outcome) := Retry(p, kind, idempotent, expectBody, e, clock, now, deadline, w.backoff(attempts));
      if pause.None? {
        SentAtLast(p, kind, idempotent, expectBody, start, lane, w, outcome, end, pauses, began);
        if !outcome.Cancelled? {
          SentMeans(p, kind, idempotent, expectBody, start, lane, w, outcome, end, pauses);
        }
        return outcome, attempts, end, pauses;
      }
      if w.stop(attempts).InPause? && w.stop(attempts).after < pause.value {
        end := now + w.stop(attempts).after;
        SentAtLast(p, kind, idempotent, expectBody, start, lane, w, Cancelled, end, pauses, began);
        return Cancelled, attempts, end, pauses;
      }
      StillUnderway(p, kind, idempotent, expectBody, deadline, lane, w, pauses, began);
      pauses := pauses + [Pause(now, pause.value)];
      now := now + pause.value;
    }
  }

  // ------------------------------------------------------------ the write lane

  /** Holds back mutations: one logical request at a time, starts at least an interval apart. */
  class WriteLane {
    const minInterval: nat
    var next: nat
    /** When the lane was last let go. */
    var free: nat

    constructor (minInterval: nat, now: nat)
      ensures this.minInterval == minInterval && next == now && free == now
    {
      this.minInterval, next, free := minInterval, now, now;
    }

    /** Waits for the lane, then for the interval; the request then holds the lane until `Release`. */
    method Acquire(arrived: nat) returns (start: nat)
      modifies this`next
      ensures start >= arrived && start >= free && start >= old(next)
      ensures start == arrived || start == free || start == old(next)
      ensures next == start + minInterval
    {
      start := if arrived >= free then arrived else free;
      start := if start >= next then start else next;
      next := start + minInterval;
    }

    method Release(now: nat)
      modifies this`free
      ensures free == now
    {
      free := now;
    }
  }

  // ------------------------------------------------------------ requests through one client

  /** One logical request: when it is made, what it is, and what the world will do to it. */
  datatype Call = Call(arrived: nat, verb: string, idempotent: Option<bool>, budget: Option<nat>, expectBody: bool,
    world: World)

  /** Only what may change something waits for the lane. */
  predicate Mutates(c: Call) {
    c.verb != "GET" && c.verb != "HEAD"
  }

  function Repeatable(c: Call): bool {
    if c.idempotent.Some? then c.idempotent.value else AssumedIdempotent(c.verb)
  }

  function PolicyOf(p: Policy, c: Call): Policy {
    if c.budget.Some? then p.(budget := c.budget.value) else p
  }

  predicate Usable(p: Policy) {
    p.cap >= p.base > 0 && p.defaultWait >= 1000
  }

  ghost predicate FairCall(p: Policy, c: Call) {
    forall n :: Fair(PolicyOf(p, c), c.world, n)
  }

  /** When a request was under way: from when it had the lane, if it needed it, to when it let go. */
  datatype Span = Span(start: nat, end: nat)

  /** The span is this request's own: it holds its attempts and all its pauses, and the whole of its course. */
  ghost predicate IsSpanOf(p: Policy, kind: Kind, c: Call, span: Span, result: Result, pauses: seq<Pause>) {
    var q := PolicyOf(p, c);
    c.arrived <= span.start
    && Sent(q, kind, Repeatable(c), c.expectBody, c.arrived, span.start, c.world, result, span.end, pauses)
  }

  /** One request: a mutation takes the lane, keeps it through every attempt and pause, and lets it go. */
  method Request(lane: WriteLane, p: Policy, kind: Kind, c: Call)
    returns (result: Result, span: Span, ghost pauses: seq<Pause>)
    requires Usable(p) && FairCall(p, c)
    modifies lane
    ensures IsSpanOf(p, kind, c, span, result, pauses)
    ensures !Mutates(c) ==> span.start == c.arrived && lane.next == old(lane.next) && lane.free == old(lane.free)
    ensures Mutates(c) ==>
      && span.start >= old(lane.free) && span.start >= old(lane.next)
      && (span.start == c.arrived || span.start == old(lane.free) || span.start == old(lane.next))
      && lane.next == span.start + lane.minInterval && lane.free == span.end
  {
    hide Sent;
    var start := c.arrived;
    if Mutates(c) {
      start := lane.Acquire(c.arrived);
    }
    var attempts, end;
    result, attempts, end, pauses :=
      Send(PolicyOf(p, c), kind, Repeatable(c), c.expectBody, c.arrived, start, c.world);
    if Mutates(c) {
      lane.Release(end);
    }
    span := Span(start, end);
  }

  /** One mutation after the other, and paced. */
  predicate Serialised(calls: seq<Call>, spans: seq<Span>, minInterval: nat)
    requires |spans| <= |calls|
  {
    forall i, j :: 0 <= i < j < |spans| && Mutates(calls[i]) && Mutates(calls[j]) ==>
      spans[i].end <= spans[j].start && spans[i].start + minInterval <= spans[j].start
  }

  /**
   * Any number of requests through one client, mutations in whatever order they get the lane: no two
   * mutations overlap, each from its first attempt to the end of its last with every pause between,
   * and their starts are an interval apart; a GET or a HEAD is held up by none of them.
   */
  method Requests(lane: WriteLane, p: Policy, kind: Kind, calls: seq<Call>)
    returns (spans: seq<Span>, results: seq<Result>, ghost pauses: seq<seq<Pause>>)
    requires Usable(p) && forall i :: 0 <= i < |calls| ==> FairCall(p, calls[i])
    modifies lane
    ensures |spans| == |results| == |pauses| == |calls| && Serialised(calls, spans, lane.minInterval)
    ensures forall i :: 0 <= i < |calls| ==> IsSpanOf(p, kind, calls[i], spans[i], results[i], pauses[i])
    ensures forall i :: 0 <= i < |calls| && !Mutates(calls[i]) ==> spans[i].start == calls[i].arrived
  {
    hide IsSpanOf, FairCall, Mutates;
    spans, results, pauses := [], [], [];
    for i := 0 to |calls|
      invariant |spans| == |results| == |pauses| == i && Serialised(calls, spans, lane.minInterval)
      invariant forall k :: 0 <= k < i && Mutates(calls[k]) ==>
        spans[k].end <= lane.free && spans[k].start + lane.minInterval <= lane.next
      invariant forall k :: 0 <= k < i ==> IsSpanOf(p, kind, calls[k], spans[k], results[k], pauses[k])
      invariant forall k :: 0 <= k < i && !Mutates(calls[k]) ==> spans[k].start == calls[k].arrived
    {
      var result, span;
      ghost var taken;
      result, span, taken := Request(lane, p, kind, calls[i]);
      assert IsSpanOf(p, kind, calls[i], span, result, taken);
      assert span.start <= span.end by {
        SpansGoForward(p, kind, calls[i], span, result, taken);
      }
      spans, results, pauses := spans + [span], results + [result], pauses + [taken];
    }
  }

  lemma SpansGoForward(p: Policy, kind: Kind, c: Call, span: Span, result: Result, pauses: seq<Pause>)
    requires IsSpanOf(p, kind, c, span, result, pauses)
    ensures span.start <= span.end
  {
  }
}
