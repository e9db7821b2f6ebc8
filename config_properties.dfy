/**
 * What the configuration promises, proved about the reference semantics in ConfigSpec:
 * the naming of queued descriptors, the "already applied" guard, the resource map,
 * first-in-first-out draining that stops at the first failure, plugin loading in
 * queue order, the transient base-path slot, and the fixed phase order of `apply`.
 */
module ConfigProperties {
  import opened Types
  import opened ConfigSpec
  import PluginNames

  // ---------------------------------------------------------------------------
  // Projections of the trace
  // ---------------------------------------------------------------------------

  /** The tasks of a queue in order, leaving out falsy entries. */
  function Tasks(q: seq<Option<Task>>): seq<Task>
    decreases |q|
  {
    if q == [] then [] else (if q[0].Some? then [q[0].value] else []) + Tasks(q[1..])
  }

  /** The module ids of a plugin queue in order, leaving out falsy entries. */
  function ModuleIds(info: seq<Option<PluginInfo>>): seq<string>
    decreases |info|
  {
    if info == [] then [] else (if info[0].Some? then [info[0].value.moduleId] else []) + ModuleIds(info[1..])
  }

  /** The tasks that were run, in the order they were run. */
  function Runs(s: seq<Event>): seq<Task>
    decreases |s|
  {
    if s == [] then [] else (if s[0].RanTask? then [s[0].task] else []) + Runs(s[1..])
  }

  /** The modules that were requested from the loader, in order. */
  function Loads(s: seq<Event>): seq<string>
    decreases |s|
  {
    if s == [] then [] else (if s[0].LoadedModule? then [s[0].moduleId] else []) + Loads(s[1..])
  }

  /**
   * The stage of `apply` an event belongs to: pre-task runs, plugin loading, marking the
   * configuration processed, post-task runs. Calls made from inside a task are not ranked.
   */
  function Rank(e: Event): int {
    match e
    case RanTask(phase, _) => PhaseRank(phase)
    case LoadedModule(_) => 1
    case Configured(_, _, _) => 1
    case MarkedProcessed => 2
    case _ => -1
  }

  function PhaseRank(phase: Phase): int {
    match phase
    case Pre => 0
    case Post => 3
  }

  ghost predicate Within(s: seq<Event>, lo: int, hi: int) {
    forall i :: 0 <= i < |s| && Rank(s[i]) >= 0 ==> lo <= Rank(s[i]) <= hi
  }

  ghost predicate Unranked(s: seq<Event>) {
    forall i :: 0 <= i < |s| ==> Rank(s[i]) < 0
  }

  /** No ranked event comes after one of a later stage. */
  ghost predicate Ordered(s: seq<Event>) {
    forall i, j :: 0 <= i < j < |s| && Rank(s[i]) >= 0 && Rank(s[j]) >= 0 ==> Rank(s[i]) <= Rank(s[j])
  }

  lemma {:induction false} RunsAppend(a: seq<Event>, b: seq<Event>)
    ensures Runs(a + b) == Runs(a) + Runs(b)
    decreases |a|
  {
    if a == [] {
      assert a + b == b;
    } else {
      assert (a + b)[1..] == a[1..] + b;
      RunsAppend(a[1..], b);
      var h := if a[0].RanTask? then [a[0].task] else [];
      assert Runs(a + b) == h + Runs(a[1..] + b);
      AppendAssoc(h, Runs(a[1..]), Runs(b));
    }
  }

  lemma {:induction false} LoadsAppend(a: seq<Event>, b: seq<Event>)
    ensures Loads(a + b) == Loads(a) + Loads(b)
    decreases |a|
  {
    if a == [] {
      assert a + b == b;
    } else {
      assert (a + b)[1..] == a[1..] + b;
      LoadsAppend(a[1..], b);
      var h := if a[0].LoadedModule? then [a[0].moduleId] else [];
      assert Loads(a + b) == h + Loads(a[1..] + b);
      AppendAssoc(h, Loads(a[1..]), Loads(b));
    }
  }

  lemma {:induction false} UnrankedHasNoRunsOrLoads(s: seq<Event>)
    requires Unranked(s)
    ensures Runs(s) == [] && Loads(s) == []
    decreases |s|
  {
    if s != [] {
      assert Rank(s[0]) < 0;
      assert Unranked(s[1..]) by {
        forall i | 0 <= i < |s[1..]| ensures Rank(s[1..][i]) < 0 { assert s[1..][i] == s[i + 1]; }
      }
      UnrankedHasNoRunsOrLoads(s[1..]);
    }
  }

  lemma WithinAppend(a: seq<Event>, b: seq<Event>, lo: int, hi: int)
    requires Within(a, lo, hi) && Within(b, lo, hi)
    ensures Within(a + b, lo, hi)
  {
    forall i | 0 <= i < |a + b| && Rank((a + b)[i]) >= 0 ensures lo <= Rank((a + b)[i]) <= hi {
      if i < |a| { assert (a + b)[i] == a[i]; } else { assert (a + b)[i] == b[i - |a|]; }
    }
  }

  /** Two stretches of the trace in stage order make an ordered whole. */
  lemma Chain(a: seq<Event>, b: seq<Event>, lo: int, mid: int, mid': int, hi: int)
    requires Ordered(a) && Ordered(b) && Within(a, lo, mid) && Within(b, mid', hi)
    requires lo <= mid <= mid' <= hi
    ensures Ordered(a + b) && Within(a + b, lo, hi)
  {
    forall i, j | 0 <= i < j < |a + b| && Rank((a + b)[i]) >= 0 && Rank((a + b)[j]) >= 0
      ensures Rank((a + b)[i]) <= Rank((a + b)[j])
    {
      if j < |a| {
        assert (a + b)[i] == a[i] && (a + b)[j] == a[j];
      } else if i >= |a| {
        assert (a + b)[i] == b[i - |a|] && (a + b)[j] == b[j - |a|];
      } else {
        assert (a + b)[i] == a[i] && (a + b)[j] == b[j - |a|];
      }
    }
    forall i | 0 <= i < |a + b| && Rank((a + b)[i]) >= 0 ensures lo <= Rank((a + b)[i]) <= hi {
      if i < |a| { assert (a + b)[i] == a[i]; } else { assert (a + b)[i] == b[i - |a|]; }
    }
  }

  /** Concatenation regroups freely, whatever the queue or trace. */
  lemma AppendAssoc<T>(a: seq<T>, b: seq<T>, c: seq<T>)
    ensures (a + b) + c == a + (b + c)
  {
  }

  /** The trace of four consecutive stages, regrouped behind what came before. */
  lemma Regroup(t: seq<Event>, a: seq<Event>, b: seq<Event>, m: seq<Event>, d: seq<Event>)
    ensures t + a + b == t + (a + b)
    ensures t + a + b + m + d == t + (a + b + m + d)
  {
    AppendAssoc(t, a, b);
    AppendAssoc(t, a + b, m);
    AppendAssoc(t, a + b + m, d);
  }

  lemma SingleStage(s: seq<Event>, k: int)
    requires Within(s, k, k)
    ensures Ordered(s)
  {
  }

  // ---------------------------------------------------------------------------
  // Queuing plugins
  // ---------------------------------------------------------------------------

  /**
   * `plugin(name, config)` appends one descriptor and changes nothing else: its module id
   * is the name with at most one `.js`/`.ts` suffix removed, its base path is the same
   * string, and its settings are `config || {}`.
   */
  lemma PluginQueuesStrippedName(c: Config, name: string, config: Option<Payload>)
    requires !c.processed
    ensures var (d, o) := Plugin(c, Named(name), config);
      && o == Ok
      && d == c.(info := d.info, nextUid := c.nextUid + 1)
      && |d.info| == |c.info| + 1 && d.info[..|c.info|] == c.info
      && d.info[|c.info|].Some?
      && var p := d.info[|c.info|].value;
         && p.uid == c.nextUid
         && p.resourcesRelativeTo == Some(p.moduleId)
         && p.config == Some(config.GetOr(map[]))
         && (name == p.moduleId || name == p.moduleId + ".js" || name == p.moduleId + ".ts")
         && (p.moduleId != name <==> PluginNames.HasScriptSuffix(name))
  {
    var d := Plugin(c, Named(name), config).0;
    assert d.info[..|c.info|] == c.info;
  }

  /**
   * `feature(folder, config)` queues the folder's `index` module with the folder, less one
   * script suffix, as its base path.
   */
  lemma FeatureQueuesIndexModule(c: Config, folder: string, config: Option<Payload>)
    requires !c.processed
    ensures var (d, o) := Feature(c, folder, config);
      && o == Ok
      && d == c.(info := d.info, nextUid := c.nextUid + 1)
      && |d.info| == |c.info| + 1 && d.info[..|c.info|] == c.info
      && d.info[|c.info|].Some?
      && var p := d.info[|c.info|].value;
         && p.resourcesRelativeTo.Some?
         && var base := p.resourcesRelativeTo.value;
         && p.moduleId == base + "/index"
         && p.uid == c.nextUid
         && p.config == Some(config.GetOr(map[]))
         && (base != folder <==> PluginNames.HasScriptSuffix(folder))
         && (base != folder ==> folder == base + ".js" || folder == base + ".ts")
  {
    var d := Feature(c, folder, config).0;
    assert d.info[..|c.info|] == c.info;
  }

  /**
   * `_addNormalizedPlugin(name, config)` queues the descriptor under the bare name and a
   * pre-task holding that descriptor's identity.
   */
  lemma NormalizedPluginQueuesBoth(c: Config, name: string, config: Option<Payload>)
    requires !c.processed
    ensures var (d, o) := AddNormalizedPlugin(c, name, config);
      && o == Ok
      && d.info == c.info + [Some(PluginInfo(c.nextUid, name, Some(name), Some(config.GetOr(map[]))))]
      && d.preTasks == c.preTasks + [Some(NormalizePlugin(c.nextUid, name))]
      && d == c.(info := d.info, preTasks := d.preTasks, nextUid := c.nextUid + 1)
  {
  }

  /**
   * A chain of `_addNormalizedPlugin` calls queues, in call order, one descriptor and one
   * normalization pre-task per name, with consecutive identities.
   */
  lemma {:induction false} NormalizedPluginsQueueInOrder(c: Config, names: seq<string>)
    requires !c.processed
    ensures var r := AddNormalizedPlugins(c, names);
      && r.1 == Ok
      && r.0.info == c.info + seq(|names|, i requires 0 <= i < |names| =>
           Some(PluginInfo(c.nextUid + i, names[i], Some(names[i]), Some(map[]))))
      && r.0.preTasks == c.preTasks + seq(|names|, i requires 0 <= i < |names| =>
           Some(NormalizePlugin(c.nextUid + i, names[i])))
      && r.0 == c.(info := r.0.info, preTasks := r.0.preTasks, nextUid := c.nextUid + |names|)
    decreases |names|
  {
    if names != [] {
      var c1 := AddNormalizedPlugin(c, names[0], None).0;
      NormalizedPluginQueuesBoth(c, names[0], None);
      NormalizedPluginsQueueInOrder(c1, names[1..]);
      var r := AddNormalizedPlugins(c1, names[1..]);
      var ds := seq(|names|, i requires 0 <= i < |names| =>
        Some(PluginInfo(c.nextUid + i, names[i], Some(names[i]), Some(map[]))));
      var ds' := seq(|names[1..]|, i requires 0 <= i < |names[1..]| =>
        Some(PluginInfo(c1.nextUid + i, names[1..][i], Some(names[1..][i]), Some(map[]))));
      assert ds == [ds[0]] + ds';
      var ts := seq(|names|, i requires 0 <= i < |names| => Some(NormalizePlugin(c.nextUid + i, names[i])));
      var ts' := seq(|names[1..]|, i requires 0 <= i < |names[1..]| =>
        Some(NormalizePlugin(c1.nextUid + i, names[1..][i])));
      assert ts == [ts[0]] + ts';
      AppendAssoc(c.info, [ds[0]], ds');
      AppendAssoc(c.preTasks, [ts[0]], ts');
    }
  }

  /**
   * `standardConfiguration()` queues the binding language, the templating resources, the
   * browser history, the router and the event aggregator, in that order, each with a
   * normalization pre-task; once applied it fails and changes nothing.
   */
  lemma StandardConfigurationQueuesFive(c: Config)
    ensures c.processed ==> StandardConfiguration(c) == (c, Err(AlreadyApplied))
    ensures !c.processed ==>
      var r := StandardConfiguration(c);
      && r.1 == Ok
      && r.0.info == c.info + seq(5, i requires 0 <= i < 5 =>
           Some(PluginInfo(c.nextUid + i, StandardPlugins[i], Some(StandardPlugins[i]), Some(map[]))))
      && r.0.preTasks == c.preTasks + seq(5, i requires 0 <= i < 5 =>
           Some(NormalizePlugin(c.nextUid + i, StandardPlugins[i])))
      && r.0 == c.(info := r.0.info, preTasks := r.0.preTasks, nextUid := c.nextUid + 5)
  {
    if !c.processed {
      NormalizedPluginsQueueInOrder(c, StandardPlugins);
    }
  }

  /**
   * The normalization pre-task rewrites, in place, exactly the descriptors carrying its
   * identity: every position keeps its identity, settings and presence, and every other
   * descriptor is untouched.
   */
  lemma NormalizationRewritesInPlace(c: Config, env: LoaderEnv, phase: Phase, uid: nat, name: string)
    requires env.normalize(name, c.bootstrapperName).Some?
    ensures var (d, o) := RunTask(c, env, phase, NormalizePlugin(uid, name));
      var id := PluginNames.StripScriptSuffix(env.normalize(name, c.bootstrapperName).value);
      && o == Ok
      && |d.info| == |c.info|
      && (forall i :: 0 <= i < |c.info| && c.info[i].Some? && c.info[i].value.uid == uid ==>
            d.info[i] == Some(c.info[i].value.(moduleId := id, resourcesRelativeTo := Some(id))))
      && (forall i :: 0 <= i < |c.info| && !(c.info[i].Some? && c.info[i].value.uid == uid) ==>
            d.info[i] == c.info[i])
      && d.trace == c.trace + [RanTask(phase, NormalizePlugin(uid, name)), Normalized(name, c.bootstrapperName), AliasMapped(name, id)]
  {
  }

  /** A normalization that fails rejects and leaves every descriptor as it was. */
  lemma NormalizationFailureKeepsDescriptors(c: Config, env: LoaderEnv, phase: Phase, uid: nat, name: string)
    requires env.normalize(name, c.bootstrapperName).None?
    ensures var (d, o) := RunTask(c, env, phase, NormalizePlugin(uid, name));
      && o == Err(NormalizeFailed(name))
      && d == c.(trace := c.trace + [RanTask(phase, NormalizePlugin(uid, name)), Normalized(name, c.bootstrapperName)])
  {
  }

  // ---------------------------------------------------------------------------
  // The "already applied" guard
  // ---------------------------------------------------------------------------

  /**
   * Once processed, every guarded operation throws the "already applied" error and leaves
   * the whole state as it was; registering into the container is not guarded.
   */
  lemma AppliedConfigurationRefusesChanges(c: Config, env: LoaderEnv, t: Option<Task>, p: PluginRef,
                                           config: Option<Payload>, name: string, rs: seq<Resource>,
                                           resourcePath: string, newName: string, key: Key)
    requires c.processed
    ensures PreTask(c, t) == (c, Err(AlreadyApplied))
    ensures PostTask(c, t) == (c, Err(AlreadyApplied))
    ensures Plugin(c, p, config) == (c, Err(AlreadyApplied))
    ensures Feature(c, name, config) == (c, Err(AlreadyApplied))
    ensures AddNormalizedPlugin(c, name, config) == (c, Err(AlreadyApplied))
    ensures GlobalResources(c, env, rs) == (c, Err(AlreadyApplied))
    ensures GlobalName(c, resourcePath, newName) == (c, Err(AlreadyApplied))
    ensures Register(c, key).container == c.container + {key}
  {
  }

  // ---------------------------------------------------------------------------
  // The resource map
  // ---------------------------------------------------------------------------

  /** The index of the first element that is not a string, or the length. */
  function FirstNonString(rs: seq<Resource>): (k: nat)
    ensures k <= |rs|
    ensures forall i :: 0 <= i < k ==> rs[i].Path?
    ensures k < |rs| ==> rs[k].NotAString?
    decreases |rs|
  {
    if rs == [] || rs[0].NotAString? then 0 else 1 + FirstNonString(rs[1..])
  }

  /** The keys the strings of `rs` join to. */
  ghost function JoinedKeys(join: (string, string) -> string, base: string, rs: seq<Resource>): set<string> {
    set x | x in rs && x.Path? :: join(base, x.path)
  }

  /**
   * The `globalResources` loop adds the joined key of every string before the first
   * non-string and no other key, keeps every export name already stored, stores no name
   * for a new key, and fails exactly when a non-string is met.
   */
  lemma {:induction false} AddResourcesSpec(m: map<string, Option<string>>, join: (string, string) -> string,
                                            base: string, rs: seq<Resource>)
    ensures var (m', o) := AddResources(m, join, base, rs);
      var k := FirstNonString(rs);
      && (o == Ok <==> k == |rs|)
      && (o != Ok ==> o == Err(InvalidResourcePath))
      && m'.Keys == m.Keys + JoinedKeys(join, base, rs[..k])
      && (forall key :: key in m ==> m'[key] == m[key])
      && (forall key :: key in m' && key !in m ==> m'[key] == None)
    decreases |rs|
  {
    if rs != [] && rs[0].Path? {
      var key := join(base, rs[0].path);
      var m1 := if key in m then m else m[key := None];
      AddResourcesSpec(m1, join, base, rs[1..]);
      JoinedKeysCons(join, base, rs, FirstNonString(rs));
    } else if rs != [] {
      assert rs[..0] == [];
    }
  }

  /** The keys of a prefix that starts with a string: that string's key and the rest's keys. */
  lemma JoinedKeysCons(join: (string, string) -> string, base: string, rs: seq<Resource>, k: nat)
    requires 0 < k <= |rs| && rs[0].Path?
    ensures JoinedKeys(join, base, rs[..k]) == {join(base, rs[0].path)} + JoinedKeys(join, base, rs[1..][..k - 1])
  {
    var rest := rs[1..][..k - 1];
    assert rs[..k] == [rs[0]] + rest;
    assert forall x :: x in rs[..k] <==> x == rs[0] || x in rest;
  }

  /**
   * `globalResources` on a configuration that is not yet applied: on success every string
   * resource's key, joined to the current base path (or `''`), is present, every export
   * name stored before is kept, and nothing but the resource map changes.
   */
  lemma GlobalResourcesAddsJoinedKeys(c: Config, env: LoaderEnv, rs: seq<Resource>)
    requires !c.processed
    ensures var (d, o) := GlobalResources(c, env, rs);
      && d == c.(resourcesToLoad := d.resourcesToLoad)
      && (o == Ok <==> forall i :: 0 <= i < |rs| ==> rs[i].Path?)
      && (o != Ok ==> o == Err(InvalidResourcePath))
      && (o == Ok ==> forall i :: 0 <= i < |rs| ==>
            env.join(Base(c.resourcesRelativeTo), rs[i].path) in d.resourcesToLoad)
      && c.resourcesToLoad.Keys <= d.resourcesToLoad.Keys
      && (forall key :: key in c.resourcesToLoad ==> d.resourcesToLoad[key] == c.resourcesToLoad[key])
      && (forall key :: key in d.resourcesToLoad && key !in c.resourcesToLoad ==> d.resourcesToLoad[key] == None)
  {
    var base := Base(c.resourcesRelativeTo);
    AddResourcesSpec(c.resourcesToLoad, env.join, base, rs);
    var k := FirstNonString(rs);
    if k == |rs| {
      assert rs[..k] == rs;
      forall i | 0 <= i < |rs| ensures env.join(base, rs[i].path) in JoinedKeys(env.join, base, rs) {
        assert rs[i] in rs;
      }
    }
  }

  /** `globalName(path, name)` stores `name` under `path` and leaves every other entry alone. */
  lemma GlobalNameSetsOneEntry(c: Config, resourcePath: string, newName: string)
    requires !c.processed
    ensures var (d, o) := GlobalName(c, resourcePath, newName);
      && o == Ok
      && d == c.(resourcesToLoad := d.resourcesToLoad)
      && resourcePath in d.resourcesToLoad && d.resourcesToLoad[resourcePath] == Some(newName)
      && (forall key :: key != resourcePath ==> (key in d.resourcesToLoad <==> key in c.resourcesToLoad))
      && (forall key :: key != resourcePath && key in c.resourcesToLoad ==>
            d.resourcesToLoad[key] == c.resourcesToLoad[key])
  {
  }

  /** A body never removes a resource key or a container key. */
  lemma {:induction false} ScriptOnlyAdds(c: Config, env: LoaderEnv, body: seq<Action>)
    ensures var d := RunScript(c, env, body).0;
      c.resourcesToLoad.Keys <= d.resourcesToLoad.Keys && c.container <= d.container
    decreases |body|
  {
    if body != [] {
      var r := Perform(c, env, body[0]);
      if body[0].DeclareResources? && !c.processed {
        GlobalResourcesAddsJoinedKeys(c, env, body[0].resources);
      }
      if r.1.Ok? { ScriptOnlyAdds(r.0, env, body[1..]); }
    }
  }

  /**
   * A body that succeeds on a configuration that is not yet applied has made present the
   * key of every string resource it declared, joined to the base path in force.
   */
  lemma {:induction false} ScriptDeclaresAgainstBase(c: Config, env: LoaderEnv, body: seq<Action>)
    requires !c.processed
    requires RunScript(c, env, body).1 == Ok
    ensures forall a, r :: a in body && a.DeclareResources? && r in a.resources ==>
      r.Path? && env.join(Base(c.resourcesRelativeTo), r.path) in RunScript(c, env, body).0.resourcesToLoad
    decreases |body|
  {
    if body != [] {
      var (c1, o) := Perform(c, env, body[0]);
      var d := RunScript(c, env, body).0;
      ScriptDeclaresAgainstBase(c1, env, body[1..]);
      ScriptOnlyAdds(c1, env, body[1..]);
      if body[0].DeclareResources? {
        GlobalResourcesAddsJoinedKeys(c, env, body[0].resources);
        forall r | r in body[0].resources
          ensures r.Path? && env.join(Base(c.resourcesRelativeTo), r.path) in d.resourcesToLoad
        {
          var i :| 0 <= i < |body[0].resources| && body[0].resources[i] == r;
        }
      }
      forall a | a in body ensures a == body[0] || a in body[1..] {
        var i :| 0 <= i < |body| && body[i] == a;
        if i > 0 { assert body[1..][i - 1] == a; }
      }
    }
  }

  // ---------------------------------------------------------------------------
  // Draining task queues
  // ---------------------------------------------------------------------------

  /** One task records its run first and then only calls on collaborators. */
  lemma RunTaskTrace(c: Config, env: LoaderEnv, phase: Phase, t: Task) returns (ext: seq<Event>)
    ensures RunTask(c, env, phase, t).0.trace == c.trace + [RanTask(phase, t)] + ext
    ensures Unranked(ext)
  {
    match t
    case NormalizeBootstrapper =>
      ext := [Normalized(Bootstrapper, None)];
    case ImportResources =>
      ext := [ImportedResources(c.resourcesToLoad)];
    case NormalizePlugin(uid, name) =>
      var n := env.normalize(name, c.bootstrapperName);
      ext := if n.None? then [Normalized(name, c.bootstrapperName)]
             else [Normalized(name, c.bootstrapperName), AliasMapped(name, PluginNames.StripScriptSuffix(n.value))];
    case Custom(_, _) =>
      ext := [];
  }

  /**
   * How many entries `runTasks` takes off its queue before it settles. It follows the same
   * recursion as `RunTasks` step for step and only counts; it is a ghost measure for the
   * lemmas below and no part of the modelled behaviour.
   */
  ghost function TasksTaken(c: Config, env: LoaderEnv, phase: Phase): (n: nat)
    ensures n <= |Queue(c, phase)|
    ensures Queue(c, phase) != [] ==> n > 0
    decreases |Queue(c, phase)|
  {
    var q := Queue(c, phase);
    if q == [] then 0
    else
      match q[0]
      case None => 1
      case Some(t) =>
        var r := RunTask(WithQueue(c, phase, q[1..]), env, phase, t);
        if r.1 != Ok then 1 else 1 + TasksTaken(r.0, env, phase)
  }

  /**
   * `runTasks` removes exactly the entries it took from the front of the queue and leaves
   * the rest queued; it stops before the end only at a failing task (the last one taken)
   * or at a falsy entry.
   */
  lemma RunTasksLeavesRest(c: Config, env: LoaderEnv, phase: Phase)
    ensures var (d, o) := RunTasks(c, env, phase);
      var q := Queue(c, phase);
      var n := TasksTaken(c, env, phase);
      && Queue(d, phase) == q[n..]
      && (o == Ok ==> n == |q| || q[n - 1].None?)
      && (o != Ok ==> q[n - 1].Some?)
      && (o != Ok ==> exists s: Config :: Queue(s, phase) == q[n..] && RunTask(s, env, phase, q[n - 1].value) == (d, o))
      && (o == Ok && 0 < n && q[n - 1].Some? ==>
            exists s: Config :: Queue(s, phase) == q[n..] && RunTask(s, env, phase, q[n - 1].value) == (d, Ok))
  {
    RunTasksTakes(c, env, phase);
    var q := Queue(c, phase);
    var n := TasksTaken(c, env, phase);
    if RunTasks(c, env, phase).1 != Ok {
      RunTasksFailure(c, env, phase);
    } else if 0 < n && q[n - 1].Some? {
      RunTasksLastSucceeded(c, env, phase);
    }
  }

  /** The queue `runTasks` leaves, and where it stops. */
  lemma {:induction false} RunTasksTakes(c: Config, env: LoaderEnv, phase: Phase)
    ensures var (d, o) := RunTasks(c, env, phase);
      var q := Queue(c, phase);
      var n := TasksTaken(c, env, phase);
      && Queue(d, phase) == q[n..]
      && (o == Ok ==> n == |q| || q[n - 1].None?)
      && (o != Ok ==> q[n - 1].Some?)
    decreases |Queue(c, phase)|
  {
    var q := Queue(c, phase);
    if q != [] && q[0].Some? {
      var r := RunTask(WithQueue(c, phase, q[1..]), env, phase, q[0].value);
      if r.1 == Ok {
        RunTasksTakes(r.0, env, phase);
        assert q[1..][TasksTaken(r.0, env, phase)..] == q[TasksTaken(c, env, phase)..];
      }
    }
  }

  /**
   * A failing `runTasks` rejects with exactly the outcome of the last task it took, run on
   * the queue that task left behind.
   */
  lemma {:induction false} RunTasksFailure(c: Config, env: LoaderEnv, phase: Phase)
    requires RunTasks(c, env, phase).1 != Ok
    ensures var q := Queue(c, phase);
      var n := TasksTaken(c, env, phase);
      && 0 < n <= |q| && q[n - 1].Some?
      && exists s: Config :: Queue(s, phase) == q[n..] && RunTask(s, env, phase, q[n - 1].value) == RunTasks(c, env, phase)
    decreases |Queue(c, phase)|
  {
    var q := Queue(c, phase);
    assert q != [] && q[0].Some?;
    RunTasksStep(c, env, phase);
    var s := WithQueue(c, phase, q[1..]);
    var r := RunTask(s, env, phase, q[0].value);
    if r.1 != Ok {
      assert Queue(s, phase) == q[1..];
    } else {
      RunTasksFailure(r.0, env, phase);
      var n' := TasksTaken(r.0, env, phase);
      var q' := Queue(r.0, phase);
      assert q' == q[1..];
      var s' :| Queue(s', phase) == q'[n'..] && RunTask(s', env, phase, q'[n' - 1].value) == RunTasks(r.0, env, phase);
      assert q'[n'..] == q[1 + n'..];
      assert q'[n' - 1] == q[n'];
    }
  }

  /**
   * A `runTasks` that succeeds with a task as the last entry it took has drained the whole
   * queue, and its result is exactly that task's successful outcome: the last task's
   * failure is never turned into success.
   */
  lemma {:induction false} RunTasksLastSucceeded(c: Config, env: LoaderEnv, phase: Phase)
    requires var q := Queue(c, phase);
      var n := TasksTaken(c, env, phase);
      RunTasks(c, env, phase).1 == Ok && 0 < n && q[n - 1].Some?
    ensures var q := Queue(c, phase);
      var n := TasksTaken(c, env, phase);
      && n == |q|
      && exists s: Config :: Queue(s, phase) == [] && RunTask(s, env, phase, q[n - 1].value) == RunTasks(c, env, phase)
    decreases |Queue(c, phase)|
  {
    var q := Queue(c, phase);
    assert q != [] && q[0].Some?;
    RunTasksStep(c, env, phase);
    var s := WithQueue(c, phase, q[1..]);
    var r := RunTask(s, env, phase, q[0].value);
    assert r.1 == Ok;
    var n' := TasksTaken(r.0, env, phase);
    var q' := Queue(r.0, phase);
    assert q' == q[1..];
    if n' == 0 {
      assert q' == [] && Queue(s, phase) == [];
    } else {
      assert q'[n' - 1] == q[n'];
      RunTasksLastSucceeded(r.0, env, phase);
      var s': Config :| Queue(s', phase) == [] && RunTask(s', env, phase, q'[n' - 1].value) == RunTasks(r.0, env, phase);
    }
  }

  /**
   * Two plugin queues hold the same descriptors position by position: the same falsy
   * entries, and the same identity and settings wherever there is a descriptor.
   */
  ghost predicate SameIdentities(a: seq<Option<PluginInfo>>, b: seq<Option<PluginInfo>>) {
    && |a| == |b|
    && (forall i :: 0 <= i < |a| ==> (a[i].Some? <==> b[i].Some?))
    && (forall i :: 0 <= i < |a| && a[i].Some? ==>
          b[i].value.uid == a[i].value.uid && b[i].value.config == a[i].value.config)
  }

  /** A task may rename descriptors but never adds, drops, reorders or reconfigures one. */
  lemma RunTaskKeepsIdentities(c: Config, env: LoaderEnv, phase: Phase, t: Task)
    ensures SameIdentities(c.info, RunTask(c, env, phase, t).0.info)
  {
  }

  /**
   * Draining a task queue keeps the plugin queue in registration order: each position
   * holds the descriptor registered there, renamed at most.
   */
  lemma {:induction false} TasksKeepIdentities(c: Config, env: LoaderEnv, phase: Phase)
    ensures SameIdentities(c.info, RunTasks(c, env, phase).0.info)
    decreases |Queue(c, phase)|
  {
    var q := Queue(c, phase);
    if q != [] && q[0].Some? {
      var s := WithQueue(c, phase, q[1..]);
      var r := RunTask(s, env, phase, q[0].value);
      RunTaskKeepsIdentities(s, env, phase, q[0].value);
      if r.1 == Ok {
        TasksKeepIdentities(r.0, env, phase);
      }
    }
  }

  /** One step of `runTasks` on a queue whose head is a task. */
  lemma RunTasksStep(c: Config, env: LoaderEnv, phase: Phase)
    requires Queue(c, phase) != [] && Queue(c, phase)[0].Some?
    ensures var r := RunTask(WithQueue(c, phase, Queue(c, phase)[1..]), env, phase, Queue(c, phase)[0].value);
      && RunTasks(c, env, phase) == (if r.1 != Ok then r else RunTasks(r.0, env, phase))
      && TasksTaken(c, env, phase) == (if r.1 != Ok then 1 else 1 + TasksTaken(r.0, env, phase))
      && Queue(r.0, phase) == Queue(c, phase)[1..]
  {
  }

  /**
   * What `runTasks` adds to the trace: exactly the tasks it took, in queue order (falsy
   * entries aside), each with the collaborator calls it made, and no plugin load or run
   * of the other queue.
   */
  ghost predicate RunsTraced(c: Config, env: LoaderEnv, phase: Phase, ext: seq<Event>) {
    && RunTasks(c, env, phase).0.trace == c.trace + ext
    && Within(ext, PhaseRank(phase), PhaseRank(phase))
    && Runs(ext) == Tasks(Queue(c, phase)[..TasksTaken(c, env, phase)])
    && Loads(ext) == []
  }

  /** `runTasks` runs the tasks it took once each, in queue order, and nothing else. */
  lemma {:induction false} RunTasksTrace(c: Config, env: LoaderEnv, phase: Phase) returns (ext: seq<Event>)
    ensures RunsTraced(c, env, phase, ext)
    decreases |Queue(c, phase)|
  {
    var q := Queue(c, phase);
    if q == [] || q[0].None? {
      ext := RunsTracedStop(c, env, phase);
    } else {
      var r := RunTask(WithQueue(c, phase, q[1..]), env, phase, q[0].value);
      if r.1 != Ok {
        ext := RunsTracedFail(c, env, phase);
      } else {
        var e2 := RunTasksTrace(r.0, env, phase);
        ext := RunsTracedMore(c, env, phase, e2);
      }
    }
  }

  lemma RunsTracedStop(c: Config, env: LoaderEnv, phase: Phase) returns (ext: seq<Event>)
    requires Queue(c, phase) == [] || Queue(c, phase)[0].None?
    ensures RunsTraced(c, env, phase, ext)
  {
    ext := [];
    var q := Queue(c, phase);
    if q != [] {
      assert q[..TasksTaken(c, env, phase)] == [q[0]];
    }
  }

  /** The first task taken, with what it reported, as a stretch of trace. */
  lemma FirstRun(c: Config, env: LoaderEnv, phase: Phase) returns (e: seq<Event>)
    requires Queue(c, phase) != [] && Queue(c, phase)[0].Some?
    ensures var t := Queue(c, phase)[0].value;
      var r := RunTask(WithQueue(c, phase, Queue(c, phase)[1..]), env, phase, t);
      && r.0.trace == c.trace + e
      && Within(e, PhaseRank(phase), PhaseRank(phase))
      && Runs(e) == [t] && Loads(e) == []
  {
    var t := Queue(c, phase)[0].value;
    var head := [RanTask(phase, t)];
    var e1 := RunTaskTrace(WithQueue(c, phase, Queue(c, phase)[1..]), env, phase, t);
    UnrankedHasNoRunsOrLoads(e1);
    RunsAppend(head, e1);
    LoadsAppend(head, e1);
    assert Within(head, PhaseRank(phase), PhaseRank(phase));
    WithinAppend(head, e1, PhaseRank(phase), PhaseRank(phase));
    e := head + e1;
  }

  lemma RunsTracedFail(c: Config, env: LoaderEnv, phase: Phase) returns (ext: seq<Event>)
    requires Queue(c, phase) != [] && Queue(c, phase)[0].Some?
    requires RunTask(WithQueue(c, phase, Queue(c, phase)[1..]), env, phase, Queue(c, phase)[0].value).1 != Ok
    ensures RunsTraced(c, env, phase, ext)
  {
    RunTasksStep(c, env, phase);
    ext := FirstRun(c, env, phase);
    var q := Queue(c, phase);
    assert q[..1] == [q[0]];
  }

  /** The runs of a first task followed by the runs of the rest of the queue. */
  lemma CombineRuns(q: seq<Option<Task>>, n': nat, phase: Phase, e1: seq<Event>, e2: seq<Event>)
    requires q != [] && q[0].Some? && n' <= |q| - 1
    requires Within(e1, PhaseRank(phase), PhaseRank(phase)) && Runs(e1) == [q[0].value] && Loads(e1) == []
    requires Within(e2, PhaseRank(phase), PhaseRank(phase)) && Runs(e2) == Tasks(q[1..][..n']) && Loads(e2) == []
    ensures Within(e1 + e2, PhaseRank(phase), PhaseRank(phase))
    ensures Runs(e1 + e2) == Tasks(q[..1 + n']) && Loads(e1 + e2) == []
  {
    RunsAppend(e1, e2);
    LoadsAppend(e1, e2);
    WithinAppend(e1, e2, PhaseRank(phase), PhaseRank(phase));
    TasksOfPrefix(q, n');
  }

  lemma TasksOfPrefix(q: seq<Option<Task>>, n': nat)
    requires q != [] && q[0].Some? && n' <= |q| - 1
    ensures Tasks(q[..1 + n']) == [q[0].value] + Tasks(q[1..][..n'])
  {
    assert q[..1 + n'][0] == q[0] && q[..1 + n'][1..] == q[1..][..n'];
  }

  lemma RunsTracedMore(c: Config, env: LoaderEnv, phase: Phase, e2: seq<Event>) returns (ext: seq<Event>)
    requires Queue(c, phase) != [] && Queue(c, phase)[0].Some?
    requires var r := RunTask(WithQueue(c, phase, Queue(c, phase)[1..]), env, phase, Queue(c, phase)[0].value);
      r.1 == Ok && RunsTraced(r.0, env, phase, e2)
    ensures RunsTraced(c, env, phase, ext)
  {
    var q := Queue(c, phase);
    var r := RunTask(WithQueue(c, phase, q[1..]), env, phase, q[0].value);
    RunTasksStep(c, env, phase);
    var e1 := FirstRun(c, env, phase);
    CombineRuns(q, TasksTaken(r.0, env, phase), phase, e1, e2);
    AppendAssoc(c.trace, e1, e2);
    ext := e1 + e2;
  }

  /** Draining an empty queue changes nothing. */
  lemma RunTasksOnEmptyQueue(c: Config, env: LoaderEnv, phase: Phase)
    requires Queue(c, phase) == []
    ensures RunTasks(c, env, phase) == (c, Ok)
  {
  }

  /**
   * On success over a queue with no falsy entry, `runTasks` ran every queued task exactly
   * once, in queue order, and left the queue empty.
   */
  lemma RunTasksDrainsAll(c: Config, env: LoaderEnv, phase: Phase) returns (ext: seq<Event>)
    requires RunTasks(c, env, phase).1 == Ok
    requires forall i :: 0 <= i < |Queue(c, phase)| ==> Queue(c, phase)[i].Some?
    ensures var d := RunTasks(c, env, phase).0;
      && Queue(d, phase) == []
      && d.trace == c.trace + ext
      && Runs(ext) == Tasks(Queue(c, phase))
  {
    RunTasksLeavesRest(c, env, phase);
    ext := RunTasksTrace(c, env, phase);
    var q := Queue(c, phase);
    assert q[..TasksTaken(c, env, phase)] == q;
  }

  // ---------------------------------------------------------------------------
  // Loading plugins
  // ---------------------------------------------------------------------------

  /**
   * `loadPlugin` sets the base-path slot to the descriptor's own base path before anything
   * else, so the `configure` hook, if the module has one, runs with that slot and receives
   * `info.config || {}`; once the plugin settles successfully the slot is cleared, with or
   * without a hook. A failing load or hook leaves the slot set.
   */
  lemma LoadPluginSlot(c: Config, env: LoaderEnv, p: PluginInfo)
    ensures var (d, o) := LoadPlugin(c, env, p);
      && (o == Ok ==> d.resourcesRelativeTo == None)
      && (o != Ok ==> d.resourcesRelativeTo == p.resourcesRelativeTo)
      && (p.moduleId !in env.modules ==>
            o == Err(ModuleLoadFailed(p.moduleId)) && d.trace == c.trace + [LoadedModule(p.moduleId)])
      && (p.moduleId in env.modules && env.modules[p.moduleId].configure.None? ==>
            o == Ok && d == c.(resourcesRelativeTo := None, trace := c.trace + [LoadedModule(p.moduleId)]))
      && (p.moduleId in env.modules && env.modules[p.moduleId].configure.Some? ==>
            d.trace == c.trace + [LoadedModule(p.moduleId), Configured(p.moduleId, p.resourcesRelativeTo, p.config.GetOr(map[]))])
  {
  }

  /**
   * A resource declared by a plugin's `configure` hook resolves against that plugin's own
   * base path, whatever base path was in force before the plugin was taken.
   */
  lemma HookResourcesResolveAgainstPlugin(c: Config, env: LoaderEnv, p: PluginInfo)
    requires !c.processed
    requires p.moduleId in env.modules && env.modules[p.moduleId].configure.Some?
    requires LoadPlugin(c, env, p).1 == Ok
    ensures var hook := env.modules[p.moduleId].configure.value;
      forall a, r :: a in hook && a.DeclareResources? && r in a.resources ==>
        r.Path? && env.join(Base(p.resourcesRelativeTo), r.path) in LoadPlugin(c, env, p).0.resourcesToLoad
  {
    var hook := env.modules[p.moduleId].configure.value;
    var c1 := c.(resourcesRelativeTo := p.resourcesRelativeTo, trace := c.trace + [LoadedModule(p.moduleId)]);
    var c2 := c1.(trace := c1.trace + [Configured(p.moduleId, c1.resourcesRelativeTo, p.config.GetOr(map[]))]);
    ScriptDeclaresAgainstBase(c2, env, hook);
  }

  /** One plugin's load records the request first and then only its configuration. */
  lemma LoadPluginTrace(c: Config, env: LoaderEnv, p: PluginInfo) returns (ext: seq<Event>)
    ensures LoadPlugin(c, env, p).0.trace == c.trace + [LoadedModule(p.moduleId)] + ext
    ensures Within(ext, 1, 1) && Loads(ext) == [] && Runs(ext) == []
  {
    if p.moduleId in env.modules && env.modules[p.moduleId].configure.Some? {
      ext := [Configured(p.moduleId, p.resourcesRelativeTo, p.config.GetOr(map[]))];
    } else {
      ext := [];
    }
  }

  /**
   * How many entries the plugin loop of `apply` takes off the plugin queue. It follows the
   * same recursion as `DrainPlugins` step for step and only counts; it is a ghost measure
   * for the lemmas below and no part of the modelled behaviour.
   */
  ghost function PluginsTaken(c: Config, env: LoaderEnv): (n: nat)
    ensures n <= |c.info|
    ensures c.info != [] ==> n > 0
    decreases |c.info|
  {
    if c.info == [] then 0
    else
      match c.info[0]
      case None => 1
      case Some(p) =>
        var r := LoadPlugin(c.(info := c.info[1..]), env, p);
        if r.1 != Ok then 1 else 1 + PluginsTaken(r.0, env)
  }

  /**
   * The plugin loop removes exactly the entries it took and leaves the rest queued; it
   * stops before the end only at a failing plugin (the last one taken) or a falsy entry,
   * and when the last entry it took is a descriptor, its outcome is that plugin's: the
   * plugin's failure, or its success followed by the mark that the configuration is
   * processed.
   */
  lemma DrainLeavesRest(c: Config, env: LoaderEnv)
    ensures var (d, o) := DrainPlugins(c, env);
      var n := PluginsTaken(c, env);
      && d.info == c.info[n..]
      && (o == Ok ==> n == |c.info| || c.info[n - 1].None?)
      && (o != Ok ==> c.info[n - 1].Some?)
      && (o != Ok ==> exists s: Config :: s.info == c.info[n..] && LoadPlugin(s, env, c.info[n - 1].value) == (d, o))
      && (o == Ok && 0 < n && c.info[n - 1].Some? ==>
            exists s: Config :: s.info == [] && LoadPlugin(s, env, c.info[n - 1].value).1 == Ok
              && d == Finish(LoadPlugin(s, env, c.info[n - 1].value).0))
  {
    DrainTakes(c, env);
    var n := PluginsTaken(c, env);
    if DrainPlugins(c, env).1 != Ok {
      DrainFailure(c, env);
    } else if 0 < n && c.info[n - 1].Some? {
      DrainSucceededWitness(c, env);
    }
  }

  /** The queue the plugin loop leaves, and where a successful loop stops. */
  lemma {:induction false} DrainTakes(c: Config, env: LoaderEnv)
    ensures var (d, o) := DrainPlugins(c, env);
      var n := PluginsTaken(c, env);
      && d.info == c.info[n..]
      && (o == Ok ==> n == |c.info| || c.info[n - 1].None?)
    decreases |c.info|
  {
    if c.info != [] && c.info[0].Some? {
      var r := LoadPlugin(c.(info := c.info[1..]), env, c.info[0].value);
      if r.1 == Ok {
        DrainTakes(r.0, env);
        assert c.info[1..][PluginsTaken(r.0, env)..] == c.info[PluginsTaken(c, env)..];
      }
    }
  }

  /**
   * A failing plugin loop rejects with exactly the outcome of loading the last descriptor
   * it took, on the queue that descriptor left behind.
   */
  lemma {:induction false} DrainFailure(c: Config, env: LoaderEnv)
    requires DrainPlugins(c, env).1 != Ok
    ensures var n := PluginsTaken(c, env);
      && 0 < n <= |c.info| && c.info[n - 1].Some?
      && exists s: Config :: s.info == c.info[n..] && LoadPlugin(s, env, c.info[n - 1].value) == DrainPlugins(c, env)
    decreases |c.info|
  {
    assert c.info != [] && c.info[0].Some?;
    DrainStep(c, env);
    var s := c.(info := c.info[1..]);
    var r := LoadPlugin(s, env, c.info[0].value);
    if r.1 == Ok {
      DrainFailure(r.0, env);
      var n' := PluginsTaken(r.0, env);
      var s': Config :| s'.info == r.0.info[n'..] && LoadPlugin(s', env, r.0.info[n' - 1].value) == DrainPlugins(r.0, env);
      assert c.info[1..][n'..] == c.info[1 + n'..];
      assert c.info[1..][n' - 1] == c.info[n'];
    }
  }

  /** `DrainLastSucceeded` stated with the loaded state quantified. */
  lemma DrainSucceededWitness(c: Config, env: LoaderEnv)
    requires var n := PluginsTaken(c, env);
      DrainPlugins(c, env).1 == Ok && 0 < n && c.info[n - 1].Some?
    ensures var n := PluginsTaken(c, env);
      exists s: Config :: s.info == [] && LoadPlugin(s, env, c.info[n - 1].value).1 == Ok
        && DrainPlugins(c, env).0 == Finish(LoadPlugin(s, env, c.info[n - 1].value).0)
  {
    var s := DrainLastSucceeded(c, env);
  }

  /**
   * A plugin loop that succeeds with a descriptor as the last entry it took has drained the
   * whole queue, loaded that descriptor successfully and then marked the configuration
   * processed: the last plugin's failure is never turned into success.
   */
  lemma {:induction false} DrainLastSucceeded(c: Config, env: LoaderEnv) returns (s: Config)
    requires var n := PluginsTaken(c, env);
      DrainPlugins(c, env).1 == Ok && 0 < n && c.info[n - 1].Some?
    ensures var n := PluginsTaken(c, env);
      var r := LoadPlugin(s, env, c.info[n - 1].value);
      && n == |c.info|
      && s.info == []
      && r.1 == Ok
      && DrainPlugins(c, env).0 == Finish(r.0)
    decreases |c.info|
  {
    assert c.info != [] && c.info[0].Some?;
    DrainStep(c, env);
    var s1 := c.(info := c.info[1..]);
    var r := LoadPlugin(s1, env, c.info[0].value);
    assert r.1 == Ok;
    var n' := PluginsTaken(r.0, env);
    if n' == 0 {
      assert r.0.info == [];
      s := s1;
    } else {
      assert r.0.info[n' - 1] == c.info[n'];
      s := DrainLastSucceeded(r.0, env);
    }
  }

  /** One step of the plugin loop on a queue whose head is a descriptor. */
  lemma DrainStep(c: Config, env: LoaderEnv)
    requires c.info != [] && c.info[0].Some?
    ensures var r := LoadPlugin(c.(info := c.info[1..]), env, c.info[0].value);
      && DrainPlugins(c, env) == (if r.1 != Ok then r else DrainPlugins(r.0, env))
      && PluginsTaken(c, env) == (if r.1 != Ok then 1 else 1 + PluginsTaken(r.0, env))
      && r.0.info == c.info[1..]
  {
  }

  /**
   * What the plugin loop adds to the trace: the plugins it took, loaded once each in queue
   * order with their configuration, no task run, and, on success and only then, the mark
   * that the configuration is processed as its last step.
   */
  ghost predicate DrainTraced(c: Config, env: LoaderEnv, ext: seq<Event>) {
    var r := DrainPlugins(c, env);
    && (r.1 == Ok ==> r.0.trace == c.trace + ext + [MarkedProcessed])
    && (r.1 != Ok ==> r.0.trace == c.trace + ext)
    && Within(ext, 1, 1)
    && Loads(ext) == ModuleIds(c.info[..PluginsTaken(c, env)])
    && Runs(ext) == []
  }

  /** The plugin loop loads the plugins it took once each, in queue order, and runs no task. */
  lemma {:induction false} DrainTrace(c: Config, env: LoaderEnv) returns (ext: seq<Event>)
    ensures DrainTraced(c, env, ext)
    decreases |c.info|
  {
    if c.info == [] || c.info[0].None? {
      ext := DrainTracedStop(c, env);
    } else {
      var r := LoadPlugin(c.(info := c.info[1..]), env, c.info[0].value);
      if r.1 != Ok {
        ext := DrainTracedFail(c, env);
      } else {
        var e2 := DrainTrace(r.0, env);
        ext := DrainTracedMore(c, env, e2);
      }
    }
  }

  lemma DrainTracedStop(c: Config, env: LoaderEnv) returns (ext: seq<Event>)
    requires c.info == [] || c.info[0].None?
    ensures DrainTraced(c, env, ext)
  {
    ext := [];
    if c.info != [] {
      assert c.info[..PluginsTaken(c, env)] == [c.info[0]];
    }
  }

  /** The first plugin taken, with its configuration, as a stretch of trace. */
  lemma FirstLoad(c: Config, env: LoaderEnv) returns (e: seq<Event>)
    requires c.info != [] && c.info[0].Some?
    ensures var p := c.info[0].value;
      var r := LoadPlugin(c.(info := c.info[1..]), env, p);
      && r.0.trace == c.trace + e
      && Within(e, 1, 1)
      && Loads(e) == [p.moduleId] && Runs(e) == []
  {
    var p := c.info[0].value;
    var head := [LoadedModule(p.moduleId)];
    var e1 := LoadPluginTrace(c.(info := c.info[1..]), env, p);
    LoadsAppend(head, e1);
    RunsAppend(head, e1);
    assert Within(head, 1, 1);
    WithinAppend(head, e1, 1, 1);
    AppendAssoc(c.trace, head, e1);
    e := head + e1;
  }

  lemma DrainTracedFail(c: Config, env: LoaderEnv) returns (ext: seq<Event>)
    requires c.info != [] && c.info[0].Some?
    requires LoadPlugin(c.(info := c.info[1..]), env, c.info[0].value).1 != Ok
    ensures DrainTraced(c, env, ext)
  {
    DrainStep(c, env);
    ext := FirstLoad(c, env);
    assert c.info[..1] == [c.info[0]];
  }

  /** The loads of a first plugin followed by the loads of the rest of the queue. */
  lemma CombineLoads(info: seq<Option<PluginInfo>>, n': nat, e1: seq<Event>, e2: seq<Event>)
    requires info != [] && info[0].Some? && n' <= |info| - 1
    requires Within(e1, 1, 1) && Loads(e1) == [info[0].value.moduleId] && Runs(e1) == []
    requires Within(e2, 1, 1) && Loads(e2) == ModuleIds(info[1..][..n']) && Runs(e2) == []
    ensures Within(e1 + e2, 1, 1)
    ensures Loads(e1 + e2) == ModuleIds(info[..1 + n']) && Runs(e1 + e2) == []
  {
    RunsAppend(e1, e2);
    LoadsAppend(e1, e2);
    WithinAppend(e1, e2, 1, 1);
    ModuleIdsOfPrefix(info, n');
  }

  lemma ModuleIdsOfPrefix(info: seq<Option<PluginInfo>>, n': nat)
    requires info != [] && info[0].Some? && n' <= |info| - 1
    ensures ModuleIds(info[..1 + n']) == [info[0].value.moduleId] + ModuleIds(info[1..][..n'])
  {
    assert info[..1 + n'][0] == info[0] && info[..1 + n'][1..] == info[1..][..n'];
  }

  lemma DrainTracedMore(c: Config, env: LoaderEnv, e2: seq<Event>) returns (ext: seq<Event>)
    requires c.info != [] && c.info[0].Some?
    requires var r := LoadPlugin(c.(info := c.info[1..]), env, c.info[0].value);
      r.1 == Ok && DrainTraced(r.0, env, e2)
    ensures DrainTraced(c, env, ext)
  {
    var r := LoadPlugin(c.(info := c.info[1..]), env, c.info[0].value);
    DrainStep(c, env);
    var e1 := FirstLoad(c, env);
    CombineLoads(c.info, PluginsTaken(r.0, env), e1, e2);
    AppendAssoc(c.trace, e1, e2);
    ext := e1 + e2;
  }

  // ---------------------------------------------------------------------------
  // apply()
  // ---------------------------------------------------------------------------

  /** A second `apply` on a processed configuration runs nothing and changes nothing. */
  lemma ApplyWhenProcessed(c: Config, env: LoaderEnv)
    requires c.processed
    ensures Apply(c, env) == (c, Ok)
  {
  }

  /** `apply` on an open configuration, stage by stage. */
  lemma ApplyUnfold(c: Config, env: LoaderEnv)
    requires !c.processed
    ensures var r1 := RunTasks(c, env, Pre);
      var r2 := DrainPlugins(r1.0, env);
      Apply(c, env) == (if r1.1 != Ok then r1 else if r2.1 != Ok then r2 else RunTasks(r2.0, env, Post))
  {
  }

  /**
   * Whatever happens, `apply` keeps its stages in order: every pre-task run comes before
   * every plugin load, every plugin load before the configuration is marked processed,
   * and that before every post-task run.
   */
  lemma ApplyOrdered(c: Config, env: LoaderEnv) returns (ext: seq<Event>)
    requires !c.processed
    ensures Apply(c, env).0.trace == c.trace + ext
    ensures Ordered(ext) && Within(ext, 0, 3)
  {
    ApplyUnfold(c, env);
    var r1 := RunTasks(c, env, Pre);
    var e1 := RunTasksTrace(c, env, Pre);
    SingleStage(e1, 0);
    if r1.1 != Ok {
      ext := e1;
      return;
    }
    var r2 := DrainPlugins(r1.0, env);
    var e2 := DrainTrace(r1.0, env);
    SingleStage(e2, 1);
    Chain(e1, e2, 0, 0, 1, 1);
    var m := [MarkedProcessed];
    var e4: seq<Event> := [];
    if r2.1 == Ok {
      e4 := RunTasksTrace(r2.0, env, Post);
    }
    Regroup(c.trace, e1, e2, m, e4);
    if r2.1 != Ok {
      ext := e1 + e2;
      return;
    }
    assert Within(m, 2, 2);
    SingleStage(m, 2);
    Chain(e1 + e2, m, 0, 1, 2, 2);
    SingleStage(e4, 3);
    Chain(e1 + e2 + m, e4, 0, 2, 3, 3);
    ext := e1 + e2 + m + e4;
  }

  /** No task runs in a stretch that holds none. */
  lemma RunsAfterNone(a: seq<Event>, b: seq<Event>)
    requires Runs(b) == []
    ensures Runs(a + b) == Runs(a)
  {
    RunsAppend(a, b);
    assert Runs(a) + [] == Runs(a);
  }

  /**
   * What `apply` runs: the pre-tasks it took, in queue order; then, if they and every
   * plugin succeeded, the post-tasks it took, in queue order; nothing else.
   */
  lemma ApplyRuns(c: Config, env: LoaderEnv) returns (ext: seq<Event>)
    requires !c.processed
    ensures var r1 := RunTasks(c, env, Pre);
      var r2 := DrainPlugins(r1.0, env);
      var pre := Tasks(c.preTasks[..TasksTaken(c, env, Pre)]);
      && Apply(c, env).0.trace == c.trace + ext
      && (r1.1 != Ok || r2.1 != Ok ==> Runs(ext) == pre)
      && (r1.1 == Ok && r2.1 == Ok ==> Runs(ext) == pre + Tasks(r2.0.postTasks[..TasksTaken(r2.0, env, Post)]))
  {
    ApplyUnfold(c, env);
    var r1 := RunTasks(c, env, Pre);
    var e1 := RunTasksTrace(c, env, Pre);
    if r1.1 != Ok {
      ext := e1;
      return;
    }
    var r2 := DrainPlugins(r1.0, env);
    var e2 := DrainTrace(r1.0, env);
    RunsAfterNone(e1, e2);
    var m := [MarkedProcessed];
    var e4: seq<Event> := [];
    if r2.1 == Ok {
      e4 := RunTasksTrace(r2.0, env, Post);
    }
    Regroup(c.trace, e1, e2, m, e4);
    if r2.1 != Ok {
      ext := e1 + e2;
      return;
    }
    assert Runs(m) == [];
    RunsAfterNone(e1 + e2, m);
    RunsAppend(e1 + e2 + m, e4);
    ext := e1 + e2 + m + e4;
  }

  /**
   * What `apply` loads: nothing if a pre-task failed; otherwise the plugins its loop took,
   * in queue order, as the pre-tasks left the queue (so a normalized descriptor is loaded
   * under its normalized id), and no module after that.
   */
  lemma ApplyLoads(c: Config, env: LoaderEnv) returns (ext: seq<Event>)
    requires !c.processed
    ensures var r1 := RunTasks(c, env, Pre);
      && Apply(c, env).0.trace == c.trace + ext
      && (r1.1 != Ok ==> Loads(ext) == [])
      && (r1.1 == Ok ==> Loads(ext) == ModuleIds(r1.0.info[..PluginsTaken(r1.0, env)]))
      && SameIdentities(c.info, r1.0.info)
  {
    TasksKeepIdentities(c, env, Pre);
    ApplyUnfold(c, env);
    var r1 := RunTasks(c, env, Pre);
    var e1 := RunTasksTrace(c, env, Pre);
    if r1.1 != Ok {
      ext := e1;
      return;
    }
    var r2 := DrainPlugins(r1.0, env);
    var e2 := DrainTrace(r1.0, env);
    LoadsAppend(e1, e2);
    var m := [MarkedProcessed];
    var e4: seq<Event> := [];
    if r2.1 == Ok {
      e4 := RunTasksTrace(r2.0, env, Post);
    }
    Regroup(c.trace, e1, e2, m, e4);
    if r2.1 != Ok {
      ext := e1 + e2;
      return;
    }
    assert Loads(m) == [];
    LoadsAppend(e1 + e2, m);
    LoadsAppend(e1 + e2 + m, e4);
    assert Loads(e1 + e2) + [] + [] == Loads(e1 + e2);
    ext := e1 + e2 + m + e4;
  }

  /**
   * `apply` leaves the configuration processed exactly when its plugin loop completed, so
   * a failing pre-task or plugin leaves it open to another `apply`, while a failing
   * post-task does not; once processed, a further `apply` is a no-op.
   */
  lemma ApplyOnce(c: Config, env: LoaderEnv)
    ensures var (d, o) := Apply(c, env);
      && (d.processed <==>
            c.processed || (RunTasks(c, env, Pre).1 == Ok && DrainPlugins(RunTasks(c, env, Pre).0, env).1 == Ok))
      && (o == Ok ==> d.processed)
      && (d.processed ==> Apply(d, env) == (d, Ok))
  {
  }

  // ---------------------------------------------------------------------------
  // The resource-loading post-task comes first
  // ---------------------------------------------------------------------------

  /** Until the configuration is applied, the constructor's import task heads the post-queue. */
  ghost predicate ImportFirst(c: Config) {
    !c.processed ==> |c.postTasks| > 0 && c.postTasks[0] == Some(ImportResources)
  }

  lemma InitialImportFirst(container: set<Key>)
    ensures ImportFirst(Initial(container))
    ensures Initial(container).preTasks == [Some(NormalizeBootstrapper)]
  {
  }

  /** The configuring calls only ever append to the post-queue, so they keep the import task first. */
  lemma OperationsKeepImportFirst(c: Config, env: LoaderEnv, t: Option<Task>, p: PluginRef,
                                  config: Option<Payload>, folder: string, name: string,
                                  rs: seq<Resource>, path: string, k: Key)
    requires ImportFirst(c)
    ensures ImportFirst(PreTask(c, t).0) && ImportFirst(PostTask(c, t).0)
    ensures ImportFirst(Plugin(c, p, config).0) && ImportFirst(Feature(c, folder, config).0)
    ensures ImportFirst(AddNormalizedPlugin(c, name, config).0)
    ensures ImportFirst(GlobalResources(c, env, rs).0) && ImportFirst(GlobalName(c, path, name).0)
    ensures ImportFirst(Register(c, k))
  {
    if !c.processed {
      assert PostTask(c, t).0.postTasks == c.postTasks + [t];
    }
  }

  /**
   * When the pre-tasks and plugins of a fresh configuration succeed, the first post-task
   * run is the resource import, and it hands the view engine the resource map as the
   * plugins' hooks left it.
   */
  lemma ImportRunsFirstAfterPlugins(c: Config, env: LoaderEnv)
    requires ImportFirst(c) && !c.processed
    requires RunTasks(c, env, Pre).1 == Ok
    requires DrainPlugins(RunTasks(c, env, Pre).0, env).1 == Ok
    ensures var c2 := DrainPlugins(RunTasks(c, env, Pre).0, env).0;
      var d := Apply(c, env).0;
      && c2.trace <= d.trace
      && |d.trace| >= |c2.trace| + 2
      && d.trace[|c2.trace|] == RanTask(Post, ImportResources)
      && d.trace[|c2.trace| + 1] == ImportedResources(c2.resourcesToLoad)
  {
    var c2 := DrainPlugins(RunTasks(c, env, Pre).0, env).0;
    var rest := WithQueue(c2, Post, c2.postTasks[1..]);
    var r := RunTask(rest, env, Post, ImportResources);
    assert r.0.trace == c2.trace + [RanTask(Post, ImportResources), ImportedResources(c2.resourcesToLoad)];
    if r.1 == Ok {
      var e := RunTasksTrace(r.0, env, Post);
    }
  }

  // ---------------------------------------------------------------------------
  // Descriptor identities are unique
  // ---------------------------------------------------------------------------

  /**
   * Identities stand for distinct descriptor objects: every queued descriptor carries an
   * identity below `nextUid`, and no two queued descriptors carry the same one.
   */
  ghost predicate UidsFresh(c: Config) {
    && (forall i :: 0 <= i < |c.info| && c.info[i].Some? ==> c.info[i].value.uid < c.nextUid)
    && (forall i, j :: 0 <= i < j < |c.info| && c.info[i].Some? && c.info[j].Some? ==>
          c.info[i].value.uid != c.info[j].value.uid)
  }

  lemma InitialUidsFresh(container: set<Key>)
    ensures UidsFresh(Initial(container))
  {
  }

  /** Under `UidsFresh`, an identity names at most one position of the plugin queue. */
  lemma UidNamesOnePosition(c: Config, i: int, j: int)
    requires UidsFresh(c)
    requires 0 <= i < |c.info| && 0 <= j < |c.info| && c.info[i].Some? && c.info[j].Some?
    requires c.info[i].value.uid == c.info[j].value.uid
    ensures i == j
  {
  }

  /**
   * `plugin` gives the descriptor it appends an identity no queued descriptor carries, so
   * afterwards that descriptor is the only one with it.
   */
  lemma PluginIdentityFresh(c: Config, p: PluginRef, config: Option<Payload>)
    requires UidsFresh(c)
    ensures var d := Plugin(c, p, config).0;
      && UidsFresh(d)
      && (forall i :: 0 <= i < |c.info| && c.info[i].Some? ==> c.info[i].value.uid != c.nextUid)
      && (forall i :: 0 <= i < |d.info| && d.info[i].Some? && d.info[i].value.uid == c.nextUid ==>
            i == |c.info|)
  {
  }

  /**
   * `_addNormalizedPlugin` binds its pre-task to an identity that exactly one descriptor
   * carries: the one it appends.
   */
  lemma NormalizedPluginOwnsItsTask(c: Config, name: string, config: Option<Payload>)
    requires UidsFresh(c) && !c.processed
    ensures var d := AddNormalizedPlugin(c, name, config).0;
      && UidsFresh(d)
      && d.preTasks[|d.preTasks| - 1] == Some(NormalizePlugin(c.nextUid, name))
      && d.info[|c.info|] == Some(PluginInfo(c.nextUid, name, Some(name), Some(config.GetOr(map[]))))
      && (forall i :: 0 <= i < |d.info| && d.info[i].Some? && d.info[i].value.uid == c.nextUid ==>
            i == |c.info|)
  {
    PluginIdentityFresh(c, Descriptor(name, Some(name), Some(config.GetOr(map[]))), None);
  }

  /** A chain of `_addNormalizedPlugin` calls keeps identities unique. */
  lemma {:induction false} NormalizedPluginsKeepUidsFresh(c: Config, names: seq<string>)
    requires UidsFresh(c)
    ensures UidsFresh(AddNormalizedPlugins(c, names).0)
    decreases |names|
  {
    if names != [] {
      var r := AddNormalizedPlugin(c, names[0], None);
      PluginIdentityFresh(c, Descriptor(names[0], Some(names[0]), Some(map[])), None);
      if r.1 == Ok {
        NormalizedPluginsKeepUidsFresh(r.0, names[1..]);
      }
    }
  }

  /** A call that leaves the plugin queue and `nextUid` alone keeps identities unique. */
  lemma SameQueueKeepsUidsFresh(c: Config, d: Config)
    requires UidsFresh(c) && d.info == c.info && d.nextUid == c.nextUid
    ensures UidsFresh(d)
  {
  }

  /** The calls that append a descriptor keep identities unique. */
  lemma PluginCallsKeepUidsFresh(c: Config, p: PluginRef, config: Option<Payload>, folder: string, name: string)
    requires UidsFresh(c)
    ensures UidsFresh(Plugin(c, p, config).0) && UidsFresh(Feature(c, folder, config).0)
    ensures UidsFresh(AddNormalizedPlugin(c, name, config).0) && UidsFresh(StandardConfiguration(c).0)
  {
    PluginIdentityFresh(c, p, config);
    var base := PluginNames.StripScriptSuffix(folder);
    PluginIdentityFresh(c, Descriptor(PluginNames.FeatureModuleId(folder), Some(base), Some(config.GetOr(map[]))), None);
    var r := Plugin(c, Descriptor(name, Some(name), Some(config.GetOr(map[]))), None);
    PluginIdentityFresh(c, Descriptor(name, Some(name), Some(config.GetOr(map[]))), None);
    if r.1 == Ok {
      SameQueueKeepsUidsFresh(r.0, PreTask(r.0, Some(NormalizePlugin(c.nextUid, name))).0);
    }
    NormalizedPluginsKeepUidsFresh(c, StandardPlugins);
  }

  /** Every configuring call keeps identities unique. */
  lemma OperationsKeepUidsFresh(c: Config, env: LoaderEnv, t: Option<Task>, p: PluginRef,
                                config: Option<Payload>, folder: string, name: string,
                                rs: seq<Resource>, path: string, k: Key)
    requires UidsFresh(c)
    ensures UidsFresh(PreTask(c, t).0) && UidsFresh(PostTask(c, t).0)
    ensures UidsFresh(Plugin(c, p, config).0) && UidsFresh(Feature(c, folder, config).0)
    ensures UidsFresh(AddNormalizedPlugin(c, name, config).0) && UidsFresh(StandardConfiguration(c).0)
    ensures UidsFresh(GlobalResources(c, env, rs).0) && UidsFresh(GlobalName(c, path, name).0)
    ensures UidsFresh(Register(c, k))
  {
    SameQueueKeepsUidsFresh(c, PreTask(c, t).0);
    SameQueueKeepsUidsFresh(c, PostTask(c, t).0);
    SameQueueKeepsUidsFresh(c, GlobalResources(c, env, rs).0);
    SameQueueKeepsUidsFresh(c, GlobalName(c, path, name).0);
    SameQueueKeepsUidsFresh(c, Register(c, k));
    PluginCallsKeepUidsFresh(c, p, config, folder, name);
  }

  /** `UidsFresh` depends only on the identities and on `nextUid`. */
  lemma SameIdentitiesKeepUidsFresh(c: Config, d: Config)
    requires UidsFresh(c) && SameIdentities(c.info, d.info) && d.nextUid == c.nextUid
    ensures UidsFresh(d)
  {
  }

  lemma RunTaskKeepsUidsFresh(c: Config, env: LoaderEnv, phase: Phase, t: Task)
    requires UidsFresh(c)
    ensures UidsFresh(RunTask(c, env, phase, t).0)
  {
    RunTaskKeepsIdentities(c, env, phase, t);
    SameIdentitiesKeepUidsFresh(c, RunTask(c, env, phase, t).0);
  }

  lemma {:induction false} TasksKeepUidsFresh(c: Config, env: LoaderEnv, phase: Phase)
    requires UidsFresh(c)
    ensures UidsFresh(RunTasks(c, env, phase).0)
    decreases |Queue(c, phase)|
  {
    var q := Queue(c, phase);
    if q != [] {
      var s := WithQueue(c, phase, q[1..]);
      assert UidsFresh(s);
      if q[0].Some? {
        var r := RunTask(s, env, phase, q[0].value);
        RunTaskKeepsUidsFresh(s, env, phase, q[0].value);
        if r.1 == Ok {
          TasksKeepUidsFresh(r.0, env, phase);
        }
      }
    }
  }

  /** Dropping the head of the plugin queue keeps identities unique. */
  lemma ShiftKeepsUidsFresh(c: Config)
    requires UidsFresh(c) && c.info != []
    ensures UidsFresh(c.(info := c.info[1..]))
  {
    var s := c.(info := c.info[1..]);
    forall i, j | 0 <= i < j < |s.info| && s.info[i].Some? && s.info[j].Some?
      ensures s.info[i].value.uid != s.info[j].value.uid
    {
      assert s.info[i] == c.info[i + 1] && s.info[j] == c.info[j + 1];
    }
  }

  lemma LoadPluginKeepsUidsFresh(c: Config, env: LoaderEnv, p: PluginInfo)
    requires UidsFresh(c)
    ensures UidsFresh(LoadPlugin(c, env, p).0)
  {
  }

  lemma {:induction false} DrainKeepsUidsFresh(c: Config, env: LoaderEnv)
    requires UidsFresh(c)
    ensures UidsFresh(DrainPlugins(c, env).0)
    decreases |c.info|
  {
    if c.info != [] {
      ShiftKeepsUidsFresh(c);
      var s := c.(info := c.info[1..]);
      if c.info[0].Some? {
        var r := LoadPlugin(s, env, c.info[0].value);
        LoadPluginKeepsUidsFresh(s, env, c.info[0].value);
        if r.1 == Ok {
          DrainKeepsUidsFresh(r.0, env);
        }
      }
    }
  }

  /** `apply()` keeps identities unique through all three stages. */
  lemma ApplyKeepsUidsFresh(c: Config, env: LoaderEnv)
    requires UidsFresh(c)
    ensures UidsFresh(Apply(c, env).0)
  {
    if !c.processed {
      var r1 := RunTasks(c, env, Pre);
      TasksKeepUidsFresh(c, env, Pre);
      if r1.1 == Ok {
        var r2 := DrainPlugins(r1.0, env);
        DrainKeepsUidsFresh(r1.0, env);
        if r2.1 == Ok {
          TasksKeepUidsFresh(r2.0, env, Post);
        }
      }
    }
  }

  /**
   * With identities unique, the normalization pre-task rewrites at most one descriptor:
   * the one it was queued with, if that descriptor is still queued.
   */
  lemma NormalizationRewritesOne(c: Config, env: LoaderEnv, phase: Phase, uid: nat, name: string)
    requires UidsFresh(c)
    ensures var d := RunTask(c, env, phase, NormalizePlugin(uid, name)).0;
      && UidsFresh(d)
      && (forall i, j :: 0 <= i < |c.info| && 0 <= j < |c.info| && d.info[i] != c.info[i] && d.info[j] != c.info[j] ==>
            i == j && c.info[i].Some? && c.info[i].value.uid == uid)
  {
    var d := RunTask(c, env, phase, NormalizePlugin(uid, name)).0;
    RunTaskKeepsUidsFresh(c, env, phase, NormalizePlugin(uid, name));
    if env.normalize(name, c.bootstrapperName).Some? {
      NormalizationRewritesInPlace(c, env, phase, uid, name);
      forall i, j | 0 <= i < |c.info| && 0 <= j < |c.info| && d.info[i] != c.info[i] && d.info[j] != c.info[j]
        ensures i == j && c.info[i].Some? && c.info[i].value.uid == uid
      {
        UidNamesOnePosition(c, i, j);
      }
    }
  }
}
