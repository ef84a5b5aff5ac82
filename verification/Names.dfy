/** Names of repositories and namespaces: where they nest, where they land, and that they never collide. */
module Names {
  import opened Text
  import ForgejoGlob

  // ------------------------------------------------------------ namespaces

  /** `a` is a namespace that `name` sits in, however deep. */
  predicate Above(a: string, name: string) {
    |a| < |name| && name[..|a|] == a && name[|a|] == '/'
  }

  /** The innermost namespace of a name: what is before its last slash. */
  function Parent(name: string): (p: Option<string>)
    ensures p.None? <==> '/' !in name
    ensures p.Some? ==> Above(p.value, name)
  {
    if name == [] then None
    else
      var n := |name| - 1;
      assert name == name[..n] + [name[n]];
      if name[n] == '/' then Some(name[..n])
      else
        var p := Parent(name[..n]);
        assert p.Some? ==> name[..n][..|p.value|] == name[..|p.value|];
        p
  }

  lemma {:induction false} ParentIsInnermost(name: string, a: string)
    requires Above(a, name)
    ensures Parent(name).Some? && (a == Parent(name).value || Above(a, Parent(name).value))
  {
    var n := |name| - 1;
    if name[n] == '/' {
      if |a| < n {
        assert name[..n][..|a|] == a;
      }
    } else {
      assert name[..n][..|a|] == a && name[..n][|a|] == '/';
      ParentIsInnermost(name[..n], a);
    }
  }

  lemma AboveIsTransitive(a: string, b: string, c: string)
    requires Above(a, b) && Above(b, c)
    ensures Above(a, c)
  {
    assert c[..|b|][..|a|] == c[..|a|];
  }

  lemma AboveSortsFirst(a: string, name: string)
    requires Above(a, name)
    ensures Less(a, name)
  {
    PrefixIsLess(a, name);
  }

  /** An ordered set of strings, kept as the strictly sorted list of its elements. */
  function Put(x: string, xs: seq<string>): (r: seq<string>)
    requires StrictlySorted(xs)
    ensures StrictlySorted(r) && forall y :: y in r <==> y == x || y in xs
  {
    if xs == [] || Less(x, xs[0]) then
      PutFront(x, xs);
      [x] + xs
    else if x == xs[0] then xs
    else
      LessTotal(x, xs[0]);
      var rest := Put(x, xs[1..]);
      assert xs == [xs[0]] + xs[1..];
      assert forall y :: y in rest ==> Less(xs[0], y) by {
        forall y | y in xs[1..] ensures Less(xs[0], y) {
          var i :| 0 <= i < |xs[1..]| && xs[1..][i] == y;
          assert Less(xs[0], xs[i + 1]);
        }
      }
      [xs[0]] + rest
  }

  lemma PutFront(x: string, xs: seq<string>)
    requires StrictlySorted(xs) && (xs == [] || Less(x, xs[0]))
    ensures StrictlySorted([x] + xs)
  {
    forall i | 0 <= i < |xs| ensures Less(x, xs[i]) {
      if i > 0 {
        assert Less(xs[0], xs[i]);
        LessTransitive(x, xs[0], xs[i]);
      }
    }
  }

  /** Whoever is in is in with everything above it. */
  ghost predicate Closed(xs: seq<string>) {
    forall a, b :: b in xs && Above(a, b) ==> a in xs
  }

  /** The same, but for what is above `p`, which is still to come. */
  ghost predicate ClosedBut(xs: seq<string>, p: Option<string>) {
    forall a, b :: b in xs && Above(a, b) ==> a in xs || (p.Some? && (a == p.value || Above(a, p.value)))
  }

  lemma ClosedStep(xs: seq<string>, p: string, ys: seq<string>)
    requires ClosedBut(xs, Some(p)) && forall y :: y in ys <==> y == p || y in xs
    ensures ClosedBut(ys, Parent(p))
  {
    forall a | Above(a, p) ensures Parent(p).Some? && (a == Parent(p).value || Above(a, Parent(p).value)) {
      ParentIsInnermost(p, a);
    }
  }

  /** Exactly the namespaces the names sit in, each once, and each before all that is inside it. */
  ghost predicate AreNamespaces(names: seq<string>, out: seq<string>) {
    && StrictlySorted(out)
    && (forall a :: a in out <==> exists n :: n in names && Above(a, n))
  }

  method Namespaces(names: seq<string>) returns (out: seq<string>)
    ensures AreNamespaces(names, out)
  {
    out := [];
    for i := 0 to |names|
      invariant StrictlySorted(out) && Closed(out)
      invariant forall a :: a in out <==> exists n :: n in names[..i] && Above(a, n)
    {
      ghost var before := out;
      var name := names[i];
      assert names[..i + 1] == names[..i] + [name];
      out := AddAbove(name, out);
      forall a ensures a in out <==> exists n :: n in names[..i + 1] && Above(a, n) {
        if Above(a, name) {
          assert name in names[..i + 1];
        }
      }
    }
    assert names[..|names|] == names;
  }

  /** The inner loop: up from one name, and no further than what is there already. */
  method AddAbove(name: string, seen: seq<string>) returns (out: seq<string>)
    requires StrictlySorted(seen) && Closed(seen)
    ensures StrictlySorted(out) && Closed(out)
    ensures forall a :: a in out <==> a in seen || Above(a, name)
  {
    out := seen;
    var ns := Parent(name);
    forall a | Above(a, name) ensures ns.Some? && (a == ns.value || Above(a, ns.value)) {
      ParentIsInnermost(name, a);
    }
    while ns.Some?
      invariant StrictlySorted(out)
      invariant ns.Some? ==> Above(ns.value, name)
      invariant forall a :: a in out ==> a in seen || Above(a, name)
      invariant forall a :: a in seen ==> a in out
      invariant forall a :: Above(a, name) ==> a in out || (ns.Some? && (a == ns.value || Above(a, ns.value)))
      invariant ClosedBut(out, ns)
      invariant forall b :: b in out && b !in seen ==> ns.Some? ==> Above(ns.value, b)
      decreases if ns.Some? then |ns.value| + 1 else 0
    {
      var p := ns.value;
      if p in out {
        assert Above(p, p) || p in seen;
        break;
      }
      ghost var before := out;
      out := Put(p, out);
      ns := Parent(p);
      ClosedStep(before, p, out);
      StepUp(name, p);
      forall b | b in out && b !in seen ensures ns.Some? ==> Above(ns.value, b) {
        if b != p && ns.Some? {
          AboveIsTransitive(ns.value, p, b);
        }
      }
    }
    if ns.Some? {
      assert forall a :: Above(a, ns.value) ==> a in seen;
    }
  }

  lemma StepUp(name: string, p: string)
    requires Above(p, name)
    ensures forall a :: Above(a, p) ==> Parent(p).Some? && (a == Parent(p).value || Above(a, Parent(p).value))
    ensures Parent(p).Some? ==> Above(Parent(p).value, name) && |Parent(p).value| < |p|
  {
    forall a | Above(a, p) ensures Parent(p).Some? && (a == Parent(p).value || Above(a, Parent(p).value)) {
      ParentIsInnermost(p, a);
    }
    if Parent(p).Some? {
      AboveIsTransitive(Parent(p).value, p, name);
    }
  }

  /** Nothing is listed after something inside it. */
  predicate OutermostFirst(out: seq<string>) {
    forall i, j :: 0 <= i < j < |out| ==> !Above(out[j], out[i])
  }

  lemma SortedIsOutermostFirst(out: seq<string>)
    requires StrictlySorted(out)
    ensures OutermostFirst(out)
  {
    forall i, j | 0 <= i < j < |out| ensures !Above(out[j], out[i]) {
      if Above(out[j], out[i]) {
        AboveSortsFirst(out[j], out[i]);
        LessAsymmetric(out[i], out[j]);
      }
    }
  }

  // ------------------------------------------------------------ the namespaces a destroy removes

  /** How many leading segments of a namespace are things of their own on the forge. */
  datatype Depth = Flat | Levels(n: nat) | Any

  function Slashes(s: string): nat {
    if s == [] then 0 else (if s[0] == '/' then 1 else 0) + Slashes(s[1..])
  }

  predicate Holds(depth: Depth, ns: string) {
    match depth
    case Flat => false
    case Any => true
    case Levels(n) => Slashes(ns) < n
  }

  lemma {:induction false} SlashesGrow(a: string, name: string)
    requires Above(a, name)
    ensures Slashes(a) < Slashes(name)
  {
    if a != [] {
      assert Above(a[1..], name[1..]) by {
        assert name[1..][..|a| - 1] == name[..|a|][1..];
      }
      SlashesGrow(a[1..], name[1..]);
      assert a[0] == name[0] by {
        assert name[..|a|][0] == name[0];
      }
    }
  }

  /** What a forge holds as a thing of its own, it holds with everything above it. */
  lemma HoldsUpwards(depth: Depth, a: string, ns: string)
    requires Holds(depth, ns) && Above(a, ns)
    ensures Holds(depth, a)
  {
    if depth.Levels? {
      SlashesGrow(a, ns);
    }
  }

  /** The home of repositories without a namespace is doomed only where this fleet put one there. */
  predicate UsesHome(names: seq<string>, defaultProject: string) {
    defaultProject != "" && exists n :: n in names && '/' !in n
  }

  ghost predicate AreDoomed(names: seq<string>, depth: Depth, namespaces: seq<string>) {
    && StrictlySorted(namespaces)
    && (forall a :: a in namespaces <==> Holds(depth, a) && exists n :: n in names && Above(a, n))
  }

  /**
   * What destroy removes besides repositories: exactly the namespaces the forge holds that a
   * declared name sits in, outermost first and each with all that is above it, and after them the
   * home, `""`, if this fleet used it.
   */
  method DoomedNamespaces(names: seq<string>, depth: Depth, defaultProject: string) returns (out: seq<string>)
    ensures UsesHome(names, defaultProject) ==> |out| > 0 && out[|out| - 1] == ""
    ensures
      var namespaces := if UsesHome(names, defaultProject) then out[..|out| - 1] else out;
      && AreDoomed(names, depth, namespaces)
      && OutermostFirst(namespaces)
      && forall a, b :: b in namespaces && Above(a, b) ==> a in namespaces
  {
    out := [];
    if depth != Flat {
      var all := Namespaces(names);
      for i := 0 to |all|
        invariant StrictlySorted(out)
        invariant forall a :: a in out <==> Holds(depth, a) && a in all[..i]
      {
        assert all[..i + 1] == all[..i] + [all[i]];
        if Holds(depth, all[i]) {
          AppendKeepsOrder(out, all, i);
          out := out + [all[i]];
        }
      }
      assert all[..|all|] == all;
    }
    SortedIsOutermostFirst(out);
    forall a, b | b in out && Above(a, b) ensures a in out {
      DoomedWithAllAbove(names, depth, a, b);
    }
    ghost var namespaces := out;
    if defaultProject != "" && exists n :: n in names && '/' !in n {
      out := out + [""];
      assert out[..|out| - 1] == namespaces;
    }
  }

  lemma AppendKeepsOrder(out: seq<string>, all: seq<string>, i: nat)
    requires StrictlySorted(out) && StrictlySorted(all) && i < |all|
    requires forall a :: a in out ==> a in all[..i]
    ensures StrictlySorted(out + [all[i]])
  {
    forall k | 0 <= k < |out| ensures Less(out[k], all[i]) {
      assert out[k] in all[..i];
      var j :| 0 <= j < i && all[..i][j] == out[k];
      assert Less(all[j], all[i]);
    }
  }

  lemma DoomedWithAllAbove(names: seq<string>, depth: Depth, a: string, b: string)
    requires Holds(depth, b) && (exists n :: n in names && Above(b, n)) && Above(a, b)
    ensures Holds(depth, a) && exists n :: n in names && Above(a, n)
  {
    HoldsUpwards(depth, a, b);
    var n :| n in names && Above(b, n);
    AboveIsTransitive(a, b, n);
  }

  // ------------------------------------------------------------ where names land

  /** A name on a forge that has no namespaces. */
  function FlatName(name: string): (r: string)
    ensures |r| == |name| && '/' !in r
    ensures forall i :: 0 <= i < |name| ==> r[i] == if name[i] == '/' then '-' else name[i]
  {
    if name == [] then [] else [if name[0] == '/' then '-' else name[0]] + FlatName(name[1..])
  }

  function Landing(name: string): string {
    Lower(FlatName(name))
  }

  ghost predicate NeverCollide(names: seq<string>) {
    forall i, j :: 0 <= i < j < |names| ==> Landing(names[i]) != Landing(names[j])
  }

  /** The fleet's own check: none of its names lands where another does, ignoring case. */
  method Collision(names: seq<string>) returns (clash: Option<(string, string)>)
    ensures clash.None? <==> NeverCollide(names)
    ensures clash.Some? ==> clash.value.0 in names && clash.value.1 in names
    ensures clash.Some? ==> Landing(clash.value.0) == Landing(clash.value.1)
  {
    var flat: map<string, string> := map[];
    for i := 0 to |names|
      invariant NeverCollide(names[..i])
      invariant forall f :: f in flat <==> exists j :: 0 <= j < i && Landing(names[j]) == f
      invariant forall f :: f in flat ==> flat[f] in names && Landing(flat[f]) == f
    {
      var f := Landing(names[i]);
      if f in flat {
        var j :| 0 <= j < i && Landing(names[j]) == f;
        return Some((flat[f], names[i]));
      }
      flat := flat[f := names[i]];
    }
    assert names[..|names|] == names;
    clash := None;
  }

  /** Where an Azure DevOps organisation puts a name: a project and a repository in it. */
  datatype Place = Place(project: string, repo: string)

  predicate SamePlace(a: Place, b: Place) {
    Lower(a.project) == Lower(b.project) && Lower(a.repo) == Lower(b.repo)
  }

  /** Up to the first slash, and what follows it. */
  function SplitOnce(name: string): (r: Option<(string, string)>)
    ensures r.None? <==> '/' !in name
    ensures r.Some? ==> name == r.value.0 + "/" + r.value.1 && '/' !in r.value.0
  {
    if name == [] then None
    else if name[0] == '/' then Some(("", name[1..]))
    else
      match SplitOnce(name[1..])
      case None => None
      case Some((project, rest)) => Some(([name[0]] + project, rest))
  }

  /** Where a name would go: its first namespace is the project, the rest is flat. */
  function AzurePlace(home: string, name: string): Place {
    match SplitOnce(name)
    case None => Place(home, name)
    case Some((project, rest)) => Place(project, FlatName(rest))
  }

  /** The namespace that is the sandbox's own project is refused. */
  function AzureSplit(home: string, name: string): Option<Place> {
    var split := SplitOnce(name);
    if split.Some? && Lower(split.value.0) == Lower(home) then None else Some(AzurePlace(home, name))
  }

  lemma LandingOfSplit(project: string, rest: string)
    requires '/' !in project
    ensures Landing(project + "/" + rest) == Lower(project) + "-" + Lower(FlatName(rest))
  {
    var name, joined := project + "/" + rest, project + "-" + FlatName(rest);
    assert FlatName(name) == joined;
    LowerConcat(project + "-", FlatName(rest));
    LowerConcat(project, "-");
    assert joined == (project + "-") + FlatName(rest);
    assert Lower("-") == "-";
  }

  /** Names that do not collide flat do not share a place on Azure DevOps either. */
  lemma SplitIsInjective(home: string, a: string, b: string)
    requires AzureSplit(home, a).Some? && AzureSplit(home, b).Some?
    requires SamePlace(AzureSplit(home, a).value, AzureSplit(home, b).value)
    ensures Landing(a) == Landing(b)
  {
    match (SplitOnce(a), SplitOnce(b))
    case (None, None) =>
      assert FlatName(a) == a && FlatName(b) == b;
    case (Some(x), Some(y)) =>
      LandingOfSplit(x.0, x.1);
      LandingOfSplit(y.0, y.1);
    case _ =>
  }

  /** A fleet the check accepts never puts two names in one place, on any kind of forge. */
  lemma AcceptedNamesNeverShare(names: seq<string>, home: string, i: nat, j: nat)
    requires NeverCollide(names) && i < j < |names|
    ensures Lower(FlatName(names[i])) != Lower(FlatName(names[j]))
    ensures AzureSplit(home, names[i]).Some? && AzureSplit(home, names[j]).Some? ==>
      !SamePlace(AzureSplit(home, names[i]).value, AzureSplit(home, names[j]).value)
  {
    assert Landing(names[i]) != Landing(names[j]);
    if AzureSplit(home, names[i]).Some? && AzureSplit(home, names[j]).Some? {
      if SamePlace(AzureSplit(home, names[i]).value, AzureSplit(home, names[j]).value) {
        SplitIsInjective(home, names[i], names[j]);
      }
    }
  }

  /**
   * Why Azure refuses one namespace, and refuses no more than it must: a name in it would share its
   * place with a name the fleet's check never holds against it, and no name outside it does.
   */
  lemma HomeMustBeRefused(home: string, project: string, rest: string)
    requires '/' !in project
    ensures
      var name, other := project + "/" + rest, FlatName(rest);
      && Landing(name) != Landing(other)
      && (AzureSplit(home, name).None? <==> Lower(project) == Lower(home))
      && (AzureSplit(home, name).None? <==> SamePlace(AzurePlace(home, name), AzurePlace(home, other)))
  {
    LandingOfSplit(project, rest);
    SplitOnceOf(project, rest);
    FlatIsFlat(FlatName(rest));
  }

  lemma {:induction false} FlatIsFlat(name: string)
    requires '/' !in name
    ensures FlatName(name) == name && SplitOnce(name).None?
  {
    assert forall i :: 0 <= i < |name| ==> name[i] in name;
  }

  lemma {:induction false} SplitOnceOf(project: string, rest: string)
    requires '/' !in project
    ensures SplitOnce(project + "/" + rest) == Some((project, rest))
  {
    var name := project + "/" + rest;
    if project == [] {
      assert name[1..] == rest;
    } else {
      assert name[1..] == project[1..] + "/" + rest;
      SplitOnceOf(project[1..], rest);
      assert name[0] == project[0] && project[0] in project;
      assert [project[0]] + project[1..] == project;
    }
  }

  // ------------------------------------------------------------ ref names

  datatype Refusal = Empty | Slashed | EmptyComponent | Dashed | At | Dots | Ending | Component | Character

  predicate Forbidden(c: char) {
    c < ' ' || '\U{7f}' <= c <= '\U{9f}' || c in " ~^:?*[\\"
  }

  predicate BadComponent(x: string) {
    "." <= x || EndsWith(x, ".lock")
  }

  function CheckRefname(name: string): Option<Refusal> {
    if name == "" then Some(Empty)
    else if "/" <= name || EndsWith(name, "/") then Some(Slashed)
    else if Has(name, "//") then Some(EmptyComponent)
    else if "-" <= name then Some(Dashed)
    else if name == "@" then Some(At)
    else if Has(name, "..") || Has(name, "@{") then Some(Dots)
    else if EndsWith(name, ".") || EndsWith(name, ".lock") then Some(Ending)
    else if exists i :: 0 <= i < |Split(name, '/')| && BadComponent(Split(name, '/')[i])
      then Some(Component)
    else if exists i :: 0 <= i < |name| && Forbidden(name[i]) then Some(Character)
    else None
  }

  lemma AcceptedHasNoStar(branch: string)
    requires CheckRefname(branch).None?
    ensures '*' !in branch
  {
    hide Has, HasAt, EndsWith, Split;
    assert Forbidden('*');
    forall i | 0 <= i < |branch| ensures branch[i] != '*' {
      assert !Forbidden(branch[i]);
    }
  }

  /**
   * Every default branch that can be declared is one the forge's glob loop gets right: with any
   * rule, the loop says the rule covers the branch exactly when the rule means it.
   */
  lemma DeclaredBranchesAreGlobSafe(branch: string, rule: string)
    requires CheckRefname(branch).None?
    ensures '*' !in branch && ForgejoGlob.Glob(rule, branch) == ForgejoGlob.Matches(rule, branch)
  {
    hide *;
    AcceptedHasNoStar(branch);
    ForgejoGlob.GlobIsExact(rule, branch);
  }
}
