/**
 * The forge as its client sees it: repositories and namespaces by name, reads that may miss what
 * is there, and writes that may fail whether or not they landed.
 */
module ForgeApi {
  import opened Text
  import opened ForgeModel
  import opened Compare
  import opened Names

  const NAMESPACE_MARKER := "forgelab-managed"

  datatype World = World(repos: map<string, Repo>, namespaces: map<string, string>)

  /** A repository under a namespace; `""` is the home of those that have none. */
  predicate Inside(ns: string, name: string) {
    if ns == "" then '/' !in name else Above(ns, name)
  }

  datatype Answer = Made | Conflict | Transient | Fatal

  /** A request and how it was answered. */
  datatype Event =
    | Sent(name: string, answer: Answer)
    | Looked(name: string, answered: bool, found: bool)
    | Wrote(name: string, step: Step, ok: bool)
    | Lifting(name: string, ok: bool)
    | Deleting(name: string, ok: bool)
    | Removing(name: string, ok: bool)

  class Forge {
    const caps: Caps
    const depth: Depth
    /** The project of repositories without a namespace, on a forge that has one. */
    const home: string
    /** Every write the forge takes lands, and is answered as it went. */
    const reliable: bool
    /** Every read is answered, and none misses a repository that is there. */
    const truthful: bool
    /** Several repositories are looked up at once. */
    const batched: bool
    var world: World
    var log: seq<Event>

    constructor (caps: Caps, depth: Depth, home: string, reliable: bool, truthful: bool, batched: bool, world: World)
      ensures this.caps == caps && this.depth == depth && this.home == home
      ensures this.reliable == reliable && this.truthful == truthful && this.batched == batched
      ensures this.world == world && log == []
    {
      this.caps, this.depth, this.home := caps, depth, home;
      this.reliable, this.truthful, this.batched, this.world, this.log := reliable, truthful, batched, world, [];
    }

    /** A namespace that is a thing of its own here, made by `Create` and removed by `DeleteNamespace`. */
    predicate Held(ns: string) {
      if ns == "" then home != "" else Holds(depth, ns)
    }

    /** A read may get no answer, and what is there may be missed for a moment; what is found is as it is. */
    method Get(name: string) returns (answered: bool, r: Option<Repo>)
      modifies this`log
      ensures r.Some? ==> answered && name in world.repos && r.value == world.repos[name]
      ensures truthful ==> answered && (name in world.repos ==> r.Some?)
      ensures log == old(log) + [Looked(name, answered, r.Some?)]
    {
      var failed: bool, seen: bool := *, *;
      answered := truthful || !failed;
      r := if answered && name in world.repos && (truthful || seen) then Some(world.repos[name]) else None;
      log := log + [Looked(name, answered, r.Some?)];
    }

    /** One write. Without an answer it may still have landed. */
    method Perform(name: string, step: Step) returns (ok: bool)
      modifies this
      ensures world.namespaces == old(world.namespaces)
      ensures log == old(log) + [Wrote(name, step, ok)]
      ensures name !in old(world.repos) ==> !ok && world == old(world)
      ensures name in old(world.repos) ==>
        var r, o := old(world.repos)[name], Do(caps, step, old(world.repos)[name]);
        && (world.repos == old(world.repos)[name := o.repo] || (!ok && !reliable && world.repos == old(world.repos)))
        && (ok ==> o.ok) && (reliable ==> ok == o.ok)
    {
      ok := false;
      if name in world.repos {
        var landed: bool, answered: bool := *, *;
        var o := Do(caps, step, world.repos[name]);
        if reliable || landed {
          world := world.(repos := world.repos[name := o.repo]);
          ok := o.ok && (reliable || answered);
        }
      }
      log := log + [Wrote(name, step, ok)];
    }

    /** Lifts every rule that the forge's glob loop says covers the branch. */
    method AllowForcePush(name: string, branch: string) returns (ok: bool)
      modifies this
      ensures world.namespaces == old(world.namespaces)
      ensures log == old(log) + [Lifting(name, ok)]
      ensures name !in old(world.repos) || old(world.repos)[name].archived ==> !ok && world == old(world)
      ensures name in old(world.repos) && !old(world.repos)[name].archived ==>
        && (world.repos == old(world.repos)[name := Lifted(old(world.repos)[name], branch)]
            || (!ok && !reliable && world.repos == old(world.repos)))
        && (reliable ==> ok)
    {
      ok := false;
      if name in world.repos && !world.repos[name].archived {
        var landed: bool, answered: bool := *, *;
        if reliable || landed {
          world := world.(repos := world.repos[name := Lifted(world.repos[name], branch)]);
        }
        ok := reliable || (landed && answered);
      }
      log := log + [Lifting(name, ok)];
    }

    /** As a create leaves it: marked, empty, with or without its topics. */
    predicate Fresh(marker: string, r: Repo) {
      && (caps.marker ==> r.description == marker)
      && !r.archived && r.empty && !r.pending && r.branches == map[] && r.tags == map[] && r.requests == map[]
    }

    /** Fresh, with the visibility asked for, and with the topics or none. */
    predicate MadeAs(visibility: string, topics: seq<string>, marker: string, r: Repo) {
      Fresh(marker, r) && r.visibility == visibility && (r.topics == topics || r.topics == [])
    }

    /** A create did nothing, or made a fresh repository and the namespaces on the way to it. */
    predicate Creation(before: World, after: World, name: string, visibility: string, topics: seq<string>,
          marker: string)
    {
      after == before ||
      (&& name !in before.repos && name in after.repos && MadeAs(visibility, topics, marker, after.repos[name])
       && after == World(before.repos[name := after.repos[name]], WithNamespaces(before.namespaces, name)))
    }

    /** A create lands, if at all, with its namespaces; whatever is there already is refused. */
    method Create(name: string, visibility: string, topics: seq<string>, marker: string) returns (a: Answer)
      modifies this
      ensures log == old(log) + [Sent(name, a)]
      ensures Creation(old(world), world, name, visibility, topics, marker)
      ensures a == Made ==> name !in old(world.repos) && name in world.repos
      ensures a == Conflict ==> world.repos == old(world.repos)
      ensures reliable ==> a == if name in old(world.repos) then Conflict else Made
    {
      var landed: bool, failure: Answer, kept: bool, branch: string := *, *, *, *;
      if name in world.repos {
        a := if reliable || failure == Made then Conflict else failure;
      } else if reliable || landed {
        var r := Repo(if caps.marker then marker else "", false, visibility, if kept then topics else [], branch,
                      true, false, map[], map[], map[], {});
        world := World(world.repos[name := r], WithNamespaces(world.namespaces, name));
        a := if reliable || failure == Conflict then Made else failure;
      } else {
        a := if failure == Made then Transient else failure;
      }
      log := log + [Sent(name, a)];
    }

    /** The namespaces a create makes on the way, each with the marker; those that are there stay. */
    function WithNamespaces(namespaces: map<string, string>, name: string): (r: map<string, string>)
      ensures forall ns :: ns in namespaces ==> ns in r && r[ns] == namespaces[ns]
      ensures forall ns :: ns in r && ns !in namespaces ==> Held(ns) && r[ns] == NAMESPACE_MARKER
    {
      var above := set i | 0 <= i < |name| && name[i] == '/' && i > 0 && Holds(depth, name[..i]) :: name[..i];
      var made := if '/' !in name && home != "" then above + {""} else above;
      (map ns | ns in made :: NAMESPACE_MARKER) + namespaces
    }

    method Delete(name: string) returns (ok: bool)
      modifies this
      ensures world.namespaces == old(world.namespaces)
      ensures log == old(log) + [Deleting(name, ok)]
      ensures world.repos == old(world.repos) - {name} || (!ok && !reliable && world.repos == old(world.repos))
      ensures reliable ==> ok
    {
      var landed: bool, answered: bool := *, *;
      if reliable || landed {
        world := world.(repos := world.repos - {name});
      }
      ok := reliable || (landed && answered);
      log := log + [Deleting(name, ok)];
    }

    predicate Marked(namespaces: map<string, string>, ns: string) {
      ns in namespaces && NAMESPACE_MARKER <= namespaces[ns]
    }

    /** What is left when a namespace goes with all it holds. */
    function Without(w: World, ns: string): (r: World)
      ensures forall n :: n in r.repos <==> n in w.repos && !Inside(ns, n)
      ensures forall n :: n in r.repos ==> r.repos[n] == w.repos[n]
      ensures forall x :: x in r.namespaces <==> x in w.namespaces && x != ns && !(ns != "" && Above(ns, x))
      ensures forall x :: x in r.namespaces ==> r.namespaces[x] == w.namespaces[x]
    {
      World(map n | n in w.repos && !Inside(ns, n) :: w.repos[n],
            map x | x in w.namespaces && x != ns && !(ns != "" && Above(ns, x)) :: w.namespaces[x])
    }

    /** Only one that forgelab made goes, and all it holds with it. */
    method DeleteNamespace(ns: string) returns (ok: bool)
      modifies this
      ensures log == old(log) + [Removing(ns, ok)]
      ensures world == old(world) || (Marked(old(world.namespaces), ns) && world == Without(old(world), ns))
      ensures reliable ==> ok
      ensures ok && Marked(old(world.namespaces), ns) ==> world == Without(old(world), ns)
    {
      var landed: bool, answered: bool := *, *;
      ok := reliable || answered;
      if Marked(world.namespaces, ns) {
        if reliable || landed {
          world := Without(world, ns);
        } else {
          ok := false;
        }
      }
      log := log + [Removing(ns, ok)];
    }
  }
}
