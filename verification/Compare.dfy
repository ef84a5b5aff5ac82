/** verify: one declared repository compared against the lock, and what every command reads off it. */
module Compare {
  import opened Text
  import opened ForgeModel

  /** One repository as the lock says it should be. */
  datatype LockRepo = LockRepo(
    name: string,
    defaultBranch: string,
    visibility: string,
    topics: seq<string>,
    archived: bool,
    empty: bool,
    tags: seq<string>,
    baseline: string)

  /** The forge's capabilities and the marker of the sandbox. */
  datatype Sandbox = Sandbox(caps: Caps, marker: string)

  /** What `load_spec` leaves behind: sorted topics, legal ref names, no baseline tag of its own. */
  predicate WellFormed(want: LockRepo) {
    && Sorted(want.topics)
    && '*' !in want.defaultBranch
    && BASELINE_TAG !in want.tags
    && (want.empty ==> want.tags == [])
  }

  predicate IsOurs(sb: Sandbox, r: Repo) {
    !sb.caps.marker || sb.marker <= r.description
  }

  datatype Guard = Missing | NotOurs | NoLongerEmpty | NeverSeeded | BaselineMoved

  datatype Drift =
    | VisibilityDiffers | ArchivedDiffers | TopicsDiffer | DefaultBranchDiffers
    | ExtraTag(tag: string) | TagMoved(tag: string) | TagMissing(tag: string)
    | ExtraBranch(branch: string) | BranchMissing | BranchMoved
    | OpenRequests(count: nat)

  datatype State = State(
    want: LockRepo,
    live: Option<Repo>,
    guards: seq<Guard>,
    drift: seq<Drift>,
    refsDirty: bool,
    extraBranches: seq<string>,
    extraTags: seq<string>,
    requests: seq<Request>)

  // ------------------------------------------------------------ what the comparison means

  /** Archived where archived means unreadable: nothing past the settings can be looked at. */
  predicate Blind(sb: Sandbox, r: Repo) {
    sb.caps.archivedUnreadable && r.archived
  }

  predicate BaselineIntact(want: LockRepo, r: Repo) {
    BASELINE_TAG in r.tags && r.tags[BASELINE_TAG] == want.baseline
  }

  function GuardOf(sb: Sandbox, want: LockRepo, live: Option<Repo>): Option<Guard> {
    match live
    case None => Some(Missing)
    case Some(r) =>
      if !IsOurs(sb, r) then Some(NotOurs)
      else if Blind(sb, r) then None
      else if want.empty then (if r.empty then None else Some(NoLongerEmpty))
      else if r.empty then Some(NeverSeeded)
      else if !BaselineIntact(want, r) then Some(BaselineMoved)
      else None
  }

  /** The comparison reached the refs: nothing stopped it, and there are refs to look at. */
  predicate RefsRead(sb: Sandbox, want: LockRepo, live: Option<Repo>) {
    GuardOf(sb, want, live).None? && !Blind(sb, live.value) && !want.empty
  }

  function ExtraTags(want: LockRepo, r: Repo): set<string> {
    set t | t in r.tags && t != BASELINE_TAG && t !in want.tags
  }

  function ExtraBranches(want: LockRepo, r: Repo): set<string> {
    r.branches.Keys - {want.defaultBranch}
  }

  predicate SettingsDrift(sb: Sandbox, want: LockRepo, r: Repo, d: Drift) {
    match d
    case VisibilityDiffers => sb.caps.visibility && r.visibility != want.visibility
    case ArchivedDiffers => r.archived != want.archived
    case TopicsDiffer => sb.caps.topics && Sort(r.topics) != want.topics
    case _ => false
  }

  /** Drift among the tags of `onForge` and the declared tags of `declared`. */
  predicate TagDrift(want: LockRepo, r: Repo, onForge: set<string>, declared: seq<string>, d: Drift) {
    match d
    case ExtraTag(t) => t in onForge && t != BASELINE_TAG && t !in want.tags
    case TagMoved(t) =>
      t in onForge && t != BASELINE_TAG && t in want.tags && (t in r.tags ==> r.tags[t] != want.baseline)
    case TagMissing(t) => t in declared && t !in r.tags
    case _ => false
  }

  predicate BranchDrift(want: LockRepo, r: Repo, d: Drift) {
    match d
    case ExtraBranch(b) => b in ExtraBranches(want, r)
    case BranchMissing => want.defaultBranch !in r.branches
    case BranchMoved => want.defaultBranch in r.branches && r.branches[want.defaultBranch] != want.baseline
    case _ => false
  }

  predicate RefDrift(want: LockRepo, r: Repo, d: Drift) {
    || (d.DefaultBranchDiffers? && r.defaultBranch != want.defaultBranch)
    || TagDrift(want, r, r.tags.Keys, want.tags, d)
    || BranchDrift(want, r, d)
    || (d.OpenRequests? && d.count == |r.requests| > 0)
  }

  /** What differs from the lock, when nothing forbids touching the repository. */
  predicate Differs(sb: Sandbox, want: LockRepo, r: Repo, d: Drift) {
    SettingsDrift(sb, want, r, d) || (RefsRead(sb, want, Some(r)) && RefDrift(want, r, d))
  }

  /** A declared tag has moved, or is one of `looked` and missing. */
  predicate TagAmiss(want: LockRepo, r: Repo, looked: seq<string>, t: string) {
    t in want.tags && (if t in r.tags then r.tags[t] != want.baseline else t in looked)
  }

  ghost predicate TagsDirty(want: LockRepo, r: Repo) {
    exists t :: TagAmiss(want, r, want.tags, t)
  }

  predicate BranchDirty(want: LockRepo, r: Repo) {
    want.defaultBranch !in r.branches || r.branches[want.defaultBranch] != want.baseline
  }

  /** A declared ref is missing or has moved, or cannot be checked until it is readable again. */
  ghost predicate RefsDirty(sb: Sandbox, want: LockRepo, r: Repo) {
    if Blind(sb, r) then !want.archived && !want.empty
    else !want.empty && (TagsDirty(want, r) || BranchDirty(want, r))
  }

  /** `xs` lists the elements of `s`, each once. */
  ghost predicate Enumerates<T(!new)>(xs: seq<T>, s: set<T>) {
    && (forall x :: x in xs <==> x in s)
    && (forall i, j :: 0 <= i < j < |xs| ==> xs[i] != xs[j])
  }

  lemma EnumerateOneMore<T(!new)>(xs: seq<T>, s: set<T>, x: T)
    requires Enumerates(xs, s) && x !in s
    ensures Enumerates(xs + [x], s + {x})
  {
    forall i, j | 0 <= i < j < |xs| + 1 ensures (xs + [x])[i] != (xs + [x])[j] {
      assert xs[i] in xs;
    }
  }

  /** What a comparison reports, up to the order in which it lists things. */
  ghost predicate Reports(sb: Sandbox, want: LockRepo, live: Option<Repo>, s: State) {
    && s.want == want && s.live == live
    && s.guards == (if GuardOf(sb, want, live).Some? then [GuardOf(sb, want, live).value] else [])
    && (s.guards == [] ==> live.Some? && ReportsDrift(sb, want, live.value, s))
  }

  ghost predicate ReportsDrift(sb: Sandbox, want: LockRepo, r: Repo, s: State) {
    var read := RefsRead(sb, want, Some(r));
    && (forall d :: d in s.drift <==> Differs(sb, want, r, d))
    && s.refsDirty == RefsDirty(sb, want, r)
    && Enumerates(s.extraBranches, if read then ExtraBranches(want, r) else {})
    && Enumerates(s.extraTags, if read then ExtraTags(want, r) else {})
    && Enumerates(s.requests, if read then r.requests.Keys else {})
  }

  // ------------------------------------------------------------ the comparison as it runs

  method CompareSettings(sb: Sandbox, want: LockRepo, r: Repo) returns (drift: seq<Drift>)
    ensures forall d :: d in drift <==> SettingsDrift(sb, want, r, d)
  {
    drift := [];
    if sb.caps.visibility && r.visibility != want.visibility {
      drift := drift + [VisibilityDiffers];
    }
    if r.archived != want.archived {
      drift := drift + [ArchivedDiffers];
    }
    if sb.caps.topics && Sort(r.topics) != want.topics {
      drift := drift + [TopicsDiffer];
    }
  }

  method CompareTags(want: LockRepo, r: Repo) returns (extra: seq<string>, drift: seq<Drift>, dirty: bool)
    requires BASELINE_TAG !in want.tags
    ensures Enumerates(extra, ExtraTags(want, r))
    ensures forall d :: d in drift <==> TagDrift(want, r, r.tags.Keys, want.tags, d)
    ensures dirty <==> TagsDirty(want, r)
  {
    extra, drift, dirty := [], [], false;
    var todo := r.tags.Keys;
    ghost var seen: set<string> := {};
    while todo != {}
      invariant seen + todo == r.tags.Keys && seen !! todo
      invariant Enumerates(extra, seen * ExtraTags(want, r))
      invariant forall d :: d in drift <==> TagDrift(want, r, seen, [], d)
      invariant dirty <==> exists t :: t in seen && TagAmiss(want, r, [], t)
      decreases todo
    {
      var t :| t in todo;
      todo := todo - {t};
      seen := seen + {t};
      assert t in seen && (TagAmiss(want, r, [], t) <==> t in want.tags && r.tags[t] != want.baseline);
      if t != BASELINE_TAG {
        if t !in want.tags {
          EnumerateOneMore(extra, (seen - {t}) * ExtraTags(want, r), t);
          extra := extra + [t];
          drift := drift + [ExtraTag(t)];
        } else if r.tags[t] != want.baseline {
          dirty := true;
          drift := drift + [TagMoved(t)];
        }
      }
    }
    ghost var moved := dirty;
    assert want.tags[..0] == [];
    for i := 0 to |want.tags|
      invariant forall d :: d in drift <==> TagDrift(want, r, r.tags.Keys, want.tags[..i], d)
      invariant dirty <==> moved || exists j :: 0 <= j < i && want.tags[j] !in r.tags
    {
      assert want.tags[..i + 1] == want.tags[..i] + [want.tags[i]];
      if want.tags[i] !in r.tags {
        dirty := true;
        drift := drift + [TagMissing(want.tags[i])];
      }
    }
    assert want.tags[..|want.tags|] == want.tags;
    forall j | 0 <= j < |want.tags| && want.tags[j] !in r.tags ensures TagsDirty(want, r) {
      assert TagAmiss(want, r, want.tags, want.tags[j]);
    }
    if moved {
      var t :| t in r.tags && TagAmiss(want, r, [], t);
      assert TagAmiss(want, r, want.tags, t);
    }
    if t :| TagAmiss(want, r, want.tags, t) {
      assert t in r.tags ==> TagAmiss(want, r, [], t);
    }
  }

  method CompareBranches(want: LockRepo, r: Repo) returns (extra: seq<string>, drift: seq<Drift>, dirty: bool)
    ensures Enumerates(extra, ExtraBranches(want, r))
    ensures forall d :: d in drift <==> BranchDrift(want, r, d)
    ensures dirty <==> BranchDirty(want, r)
  {
    extra, drift, dirty := [], [], false;
    var todo := r.branches.Keys;
    ghost var seen: set<string> := {};
    while todo != {}
      invariant seen + todo == r.branches.Keys && seen !! todo
      invariant Enumerates(extra, seen - {want.defaultBranch})
      invariant forall d :: d in drift <==> d.ExtraBranch? && d.branch in seen - {want.defaultBranch}
      decreases todo
    {
      var b :| b in todo;
      todo := todo - {b};
      seen := seen + {b};
      if b != want.defaultBranch {
        EnumerateOneMore(extra, seen - {b} - {want.defaultBranch}, b);
        extra := extra + [b];
        drift := drift + [ExtraBranch(b)];
      }
    }
    if want.defaultBranch !in r.branches {
      dirty := true;
      drift := drift + [BranchMissing];
    } else if r.branches[want.defaultBranch] != want.baseline {
      dirty := true;
      drift := drift + [BranchMoved];
    }
  }

  method ListRequests(r: Repo) returns (numbers: seq<Request>)
    ensures Enumerates(numbers, r.requests.Keys)
    ensures |numbers| == |r.requests|
  {
    numbers := [];
    var todo := r.requests.Keys;
    ghost var seen: set<Request> := {};
    while todo != {}
      invariant seen + todo == r.requests.Keys && seen !! todo
      invariant Enumerates(numbers, seen) && |numbers| == |seen|
      decreases todo
    {
      var n :| n in todo;
      EnumerateOneMore(numbers, seen, n);
      todo := todo - {n};
      seen := seen + {n};
      numbers := numbers + [n];
    }
    assert seen == r.requests.Keys;
  }

  method CompareRefs(want: LockRepo, r: Repo)
    returns (drift: seq<Drift>, dirty: bool, branches: seq<string>, tags: seq<string>, requests: seq<Request>)
    requires BASELINE_TAG !in want.tags
    ensures forall d :: d in drift <==> RefDrift(want, r, d)
    ensures dirty <==> TagsDirty(want, r) || BranchDirty(want, r)
    ensures Enumerates(branches, ExtraBranches(want, r)) && Enumerates(tags, ExtraTags(want, r))
    ensures Enumerates(requests, r.requests.Keys)
  {
    var tagDrift, tagsDirty, branchDrift, branchDirty;
    tags, tagDrift, tagsDirty := CompareTags(want, r);
    branches, branchDrift, branchDirty := CompareBranches(want, r);
    requests := ListRequests(r);
    drift := if r.defaultBranch != want.defaultBranch then [DefaultBranchDiffers] else [];
    drift := drift + tagDrift + branchDrift + (if requests == [] then [] else [OpenRequests(|requests|)]);
    dirty := tagsDirty || branchDirty;
  }

  method CompareOne(sb: Sandbox, want: LockRepo, live: Option<Repo>) returns (s: State)
    requires WellFormed(want)
    ensures Reports(sb, want, live, s)
  {
    s := State(want, live, [], [], false, [], [], []);
    if live.None? {
      return s.(guards := [Missing]);
    }
    var r := live.value;
    if !IsOurs(sb, r) {
      return s.(guards := [NotOurs]);
    }
    var drift := CompareSettings(sb, want, r);
    s := s.(drift := drift);
    if sb.caps.archivedUnreadable && r.archived {
      return s.(refsDirty := !want.archived && !want.empty);
    }
    if want.empty {
      return s.(guards := if r.empty then [] else [NoLongerEmpty]);
    }
    if r.empty {
      return s.(guards := [NeverSeeded]);
    }
    if !BaselineIntact(want, r) {
      return s.(guards := [BaselineMoved]);
    }
    var refDrift, dirty, branches, tags, requests := CompareRefs(want, r);
    s := State(want, live, [], drift + refDrift, dirty, branches, tags, requests);
  }

  // ------------------------------------------------------------ what a clean comparison says

  function BaselineTags(want: LockRepo): map<string, string> {
    map t | t in want.tags + [BASELINE_TAG] :: want.baseline
  }

  /** Everything the lock pins down, and nothing else. */
  predicate AtBaseline(sb: Sandbox, want: LockRepo, r: Repo) {
    && IsOurs(sb, r)
    && (sb.caps.visibility ==> r.visibility == want.visibility)
    && (sb.caps.topics ==> Sort(r.topics) == want.topics)
    && r.archived == want.archived
    && (want.empty ==> r.empty)
    && (!want.empty ==>
          && !r.empty
          && r.defaultBranch == want.defaultBranch
          && r.branches == map[want.defaultBranch := want.baseline]
          && r.tags == BaselineTags(want)
          && r.requests == map[])
  }

  /** No guard, and nothing that reset could repair. */
  ghost predicate Clean(sb: Sandbox, want: LockRepo, r: Repo) {
    GuardOf(sb, want, Some(r)).None? && forall d :: !Differs(sb, want, r, d)
  }

  /**
   * A readable repository compares clean exactly when it is at its baseline: no more, no less
   * than the one branch, the declared tags and the settings of the lock.
   */
  lemma CleanIsAtBaseline(sb: Sandbox, want: LockRepo, r: Repo)
    requires WellFormed(want) && !Blind(sb, r)
    ensures Clean(sb, want, r) <==> AtBaseline(sb, want, r)
  {
    if Clean(sb, want, r) {
      assert !Differs(sb, want, r, VisibilityDiffers) && !Differs(sb, want, r, ArchivedDiffers);
      assert !Differs(sb, want, r, TopicsDiffer);
      if !want.empty {
        forall d ensures !RefDrift(want, r, d) {
          assert !Differs(sb, want, r, d);
        }
        CleanRefs(want, r);
      }
    }
    if AtBaseline(sb, want, r) && !want.empty {
      assert BASELINE_TAG in want.tags + [BASELINE_TAG];
    }
  }

  lemma CleanRefs(want: LockRepo, r: Repo)
    requires WellFormed(want) && BaselineIntact(want, r)
    requires forall d :: !RefDrift(want, r, d)
    ensures r.defaultBranch == want.defaultBranch && r.requests == map[]
    ensures r.branches == map[want.defaultBranch := want.baseline]
    ensures r.tags == BaselineTags(want)
  {
    assert !RefDrift(want, r, DefaultBranchDiffers) && !RefDrift(want, r, OpenRequests(|r.requests|));
    assert !RefDrift(want, r, BranchMissing) && !RefDrift(want, r, BranchMoved);
    forall t ensures t in r.tags <==> t in want.tags + [BASELINE_TAG] {
      assert !RefDrift(want, r, ExtraTag(t)) && !RefDrift(want, r, TagMissing(t));
    }
    forall t | t in r.tags ensures r.tags[t] == want.baseline {
      assert !RefDrift(want, r, TagMoved(t)) && !RefDrift(want, r, ExtraTag(t));
    }
    forall b | b in r.branches ensures b == want.defaultBranch {
      assert !RefDrift(want, r, ExtraBranch(b));
    }
  }
}
