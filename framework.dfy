/**
 * The imperative `FrameworkConfiguration`: the object the application configures before
 * startup. Every method changes the fields in place, as the JavaScript does, and is proved
 * to leave exactly the state (and report exactly the outcome) that the matching function
 * of ConfigSpec computes from the state before, so everything proved there holds here.
 * A thrown error or a rejected promise is the outcome `Err`.
 */
module Framework {
  import opened Types
  import ConfigSpec
  import PluginNames

  /** The dependency-injection container, reduced to the set of keys registered with it. */
  class Container {
    var keys: set<Key>

    constructor(keys: set<Key>)
      ensures this.keys == keys
    {
      this.keys := keys;
    }

    /** `registerInstance`, `registerSingleton`, `registerTransient` */
    method Register(key: Key)
      modifies this
      ensures keys == old(keys) + {key}
    {
      keys := keys + {key};
    }
  }

  /** `Object.keys(m)`: every key of the map exactly once, in some order. */
  method ObjectKeys(m: map<string, Option<string>>) returns (ids: seq<string>)
    ensures forall k :: k in m <==> k in ids
    ensures forall i, j :: 0 <= i < j < |ids| ==> ids[i] != ids[j]
  {
    ids := [];
    var rest := m.Keys;
    while rest != {}
      invariant forall k :: k in m <==> k in ids || k in rest
      invariant forall k :: k in rest ==> k !in ids
      invariant forall i, j :: 0 <= i < j < |ids| ==> ids[i] != ids[j]
      decreases |rest|
    {
      var k :| k in rest;
      ids := ids + [k];
      rest := rest - {k};
    }
  }

  /**
   * `loadResources`: the import ids are the keys of the map and `names[i]` is the export
   * name stored under `importIds[i]`.
   */
  method LoadResources(resourcesToLoad: map<string, Option<string>>)
    returns (importIds: seq<string>, names: seq<Option<string>>)
    ensures |names| == |importIds|
    ensures forall k :: k in resourcesToLoad <==> k in importIds
    ensures forall i, j :: 0 <= i < j < |importIds| ==> importIds[i] != importIds[j]
    ensures forall i :: 0 <= i < |importIds| ==> names[i] == resourcesToLoad[importIds[i]]
  {
    importIds := ObjectKeys(resourcesToLoad);
    var ii := |importIds|;
    var buffer := new Option<string>[ii];
    for i := 0 to ii
      invariant forall j :: 0 <= j < i ==> buffer[j] == resourcesToLoad[importIds[j]]
    {
      buffer[i] := resourcesToLoad[importIds[i]];
    }
    names := buffer[..];
  }

  /** The map the view engine sees: each import id with the name at the same index. */
  function Zip(ids: seq<string>, names: seq<Option<string>>): (m: map<string, Option<string>>)
    requires |ids| == |names|
    ensures forall k :: k in m <==> k in ids
    decreases |ids|
  {
    if ids == [] then map[]
    else Zip(ids[1..], names[1..])[ids[0] := names[0]]
  }

  /** Taking a key out of a map and putting it back with its value gives the map. */
  lemma RemoveAndRestore(m: map<string, Option<string>>, k: string)
    requires k in m
    ensures (map x | x in m && x != k :: m[x])[k := m[k]] == m
  {
  }

  /** The two arrays of `loadResources` hand the view engine the map and nothing else. */
  lemma {:induction false} ZipRestoresMap(ids: seq<string>, names: seq<Option<string>>, m: map<string, Option<string>>)
    requires |names| == |ids|
    requires forall k :: k in m <==> k in ids
    requires forall i, j :: 0 <= i < j < |ids| ==> ids[i] != ids[j]
    requires forall i :: 0 <= i < |ids| ==> names[i] == m[ids[i]]
    ensures Zip(ids, names) == m
    decreases |ids|
  {
    if ids != [] {
      var m' := map k | k in m && k != ids[0] :: m[k];
      ZipRestPremises(ids, names, m, m');
      ZipRestoresMap(ids[1..], names[1..], m');
      RemoveAndRestore(m, ids[0]);
    }
  }

  /** What the rest of the arrays say about the map without its first key. */
  lemma ZipRestPremises(ids: seq<string>, names: seq<Option<string>>, m: map<string, Option<string>>,
                        m': map<string, Option<string>>)
    requires |names| == |ids| && ids != []
    requires forall k :: k in m <==> k in ids
    requires forall i, j :: 0 <= i < j < |ids| ==> ids[i] != ids[j]
    requires forall i :: 0 <= i < |ids| ==> names[i] == m[ids[i]]
    requires m' == map k | k in m && k != ids[0] :: m[k]
    ensures forall k :: k in m' <==> k in ids[1..]
    ensures forall i, j :: 0 <= i < j < |ids[1..]| ==> ids[1..][i] != ids[1..][j]
    ensures forall i :: 0 <= i < |ids[1..]| ==> names[1..][i] == m'[ids[1..][i]]
  {
    forall k ensures k in m' <==> k in ids[1..] {
      if k in ids[1..] {
        var j :| 0 <= j < |ids[1..]| && ids[1..][j] == k;
        assert ids[j + 1] == k;
      }
      if k in m' {
        var j :| 0 <= j < |ids| && ids[j] == k;
        assert ids[1..][j - 1] == k;
      }
    }
    forall i | 0 <= i < |ids[1..]| ensures names[1..][i] == m'[ids[1..][i]] {
      assert ids[1..][i] == ids[i + 1];
    }
  }

  class FrameworkConfiguration {
    /** The loader, the path joiner and the view engine, reached through `this.aurelia`. */
    const env: LoaderEnv
    /** The container shared with the owning `Aurelia`. */
    const container: Container

    var info: seq<Option<PluginInfo>>
    var preTasks: seq<Option<Task>>
    var postTasks: seq<Option<Task>>
    var resourcesToLoad: map<string, Option<string>>
    var resourcesRelativeTo: Option<string>
    var processed: bool
    var bootstrapperName: Option<string>
    /** The identity the next queued descriptor receives. */
    var nextUid: nat
    /** The calls made on collaborators so far, in order. */
    ghost var trace: seq<Event>

    /** The object's state as the value ConfigSpec describes. */
    ghost function State(): ConfigSpec.Config
      reads this, container
    {
      ConfigSpec.Config(info, preTasks, postTasks, resourcesToLoad, resourcesRelativeTo,
                        processed, bootstrapperName, container.keys, nextUid, trace)
    }

    /** Empty queues but for the bootstrapper's normalization and the resource import. */
    constructor(env: LoaderEnv, container: Container)
      ensures this.env == env && this.container == container
      ensures State() == ConfigSpec.Initial(container.keys)
    {
      this.env := env;
      this.container := container;
      info := [];
      processed := false;
      preTasks := [];
      postTasks := [];
      resourcesToLoad := map[];
      resourcesRelativeTo := None;
      bootstrapperName := None;
      nextUid := 0;
      trace := [];
      new;
      preTasks := preTasks + [Some(NormalizeBootstrapper)];
      postTasks := postTasks + [Some(ImportResources)];
    }

    method Instance(key: Key)
      modifies container
      ensures State() == ConfigSpec.Register(old(State()), key)
    {
      container.Register(key);
    }

    method Singleton(key: Key)
      modifies container
      ensures State() == ConfigSpec.Register(old(State()), key)
    {
      container.Register(key);
    }

    method Transient(key: Key)
      modifies container
      ensures State() == ConfigSpec.Register(old(State()), key)
    {
      container.Register(key);
    }

    method PreTask(task: Option<Task>) returns (o: Outcome)
      modifies this
      ensures (State(), o) == ConfigSpec.PreTask(old(State()), task)
    {
      if processed {
        return Err(AlreadyApplied);
      }
      preTasks := preTasks + [task];
      o := Ok;
    }

    method PostTask(task: Option<Task>) returns (o: Outcome)
      modifies this
      ensures (State(), o) == ConfigSpec.PostTask(old(State()), task)
    {
      if processed {
        return Err(AlreadyApplied);
      }
      postTasks := postTasks + [task];
      o := Ok;
    }

    method Plugin(plugin: PluginRef, config: Option<Payload>) returns (o: Outcome)
      modifies this
      ensures (State(), o) == ConfigSpec.Plugin(old(State()), plugin, config)
    {
      if processed {
        return Err(AlreadyApplied);
      }
      var entry: Option<PluginInfo>;
      match plugin {
        case Named(name) =>
          var id := PluginNames.StripScriptSuffix(name);
          entry := Some(PluginInfo(nextUid, id, Some(id), Some(config.GetOr(map[]))));
        case Descriptor(moduleId, relativeTo, settings) =>
          entry := Some(PluginInfo(nextUid, moduleId, relativeTo, settings));
        case Nothing =>
          entry := None;
      }
      info := info + [entry];
      nextUid := nextUid + 1;
      o := Ok;
    }

    method Feature(plugin: string, config: Option<Payload>) returns (o: Outcome)
      modifies this
      ensures (State(), o) == ConfigSpec.Feature(old(State()), plugin, config)
    {
      var folder := PluginNames.StripScriptSuffix(plugin);
      o := Plugin(Descriptor(folder + "/index", Some(folder), Some(config.GetOr(map[]))), None);
    }

    method GlobalResources(resources: seq<Resource>) returns (o: Outcome)
      modifies this
      ensures (State(), o) == ConfigSpec.GlobalResources(old(State()), env, resources)
    {
      if processed {
        return Err(AlreadyApplied);
      }
      var base := ConfigSpec.Base(resourcesRelativeTo);
      for i := 0 to |resources|
        invariant State() == old(State()).(resourcesToLoad := resourcesToLoad)
        invariant ConfigSpec.AddResources(resourcesToLoad, env.join, base, resources[i..])
               == ConfigSpec.AddResources(old(resourcesToLoad), env.join, base, resources)
      {
        match resources[i]
        case NotAString =>
          return Err(InvalidResourcePath);
        case Path(resource) =>
          var path := env.join(base, resource);
          if path !in resourcesToLoad {
            resourcesToLoad := resourcesToLoad[path := None];
          }
          assert resources[i..][1..] == resources[i + 1..];
      }
      o := Ok;
    }

    method GlobalName(resourcePath: string, newName: string) returns (o: Outcome)
      modifies this
      ensures (State(), o) == ConfigSpec.GlobalName(old(State()), resourcePath, newName)
    {
      if processed {
        return Err(AlreadyApplied);
      }
      resourcesToLoad := resourcesToLoad[resourcePath := Some(newName)];
      o := Ok;
    }

    method AddNormalizedPlugin(name: string, config: Option<Payload>) returns (o: Outcome)
      modifies this
      ensures (State(), o) == ConfigSpec.AddNormalizedPlugin(old(State()), name, config)
    {
      var uid := nextUid;
      o := Plugin(Descriptor(name, Some(name), Some(config.GetOr(map[]))), None);
      if o.Err? {
        return;
      }
      o := PreTask(Some(NormalizePlugin(uid, name)));
    }

    method DefaultBindingLanguage() returns (o: Outcome)
      modifies this
      ensures (State(), o) == ConfigSpec.AddNormalizedPlugin(old(State()), ConfigSpec.StandardPlugins[0], None)
    {
      o := AddNormalizedPlugin("aurelia-templating-binding", None);
    }

    method DefaultResources() returns (o: Outcome)
      modifies this
      ensures (State(), o) == ConfigSpec.AddNormalizedPlugin(old(State()), ConfigSpec.StandardPlugins[1], None)
    {
      o := AddNormalizedPlugin("aurelia-templating-resources", None);
    }

    method History() returns (o: Outcome)
      modifies this
      ensures (State(), o) == ConfigSpec.AddNormalizedPlugin(old(State()), ConfigSpec.StandardPlugins[2], None)
    {
      o := AddNormalizedPlugin("aurelia-history-browser", None);
    }

    method Router() returns (o: Outcome)
      modifies this
      ensures (State(), o) == ConfigSpec.AddNormalizedPlugin(old(State()), ConfigSpec.StandardPlugins[3], None)
    {
      o := AddNormalizedPlugin("aurelia-templating-router", None);
    }

    method EventAggregator() returns (o: Outcome)
      modifies this
      ensures (State(), o) == ConfigSpec.AddNormalizedPlugin(old(State()), ConfigSpec.StandardPlugins[4], None)
    {
      o := AddNormalizedPlugin("aurelia-event-aggregator", None);
    }

    /** The five calls chained; the first that throws ends the chain. */
    method StandardConfiguration() returns (o: Outcome)
      modifies this
      ensures (State(), o) == ConfigSpec.StandardConfiguration(old(State()))
    {
      ghost var s0 := State();
      o := DefaultBindingLanguage();
      if o.Err? { return; }
      ghost var s1 := State();
      o := DefaultResources();
      if o.Err? { return; }
      ghost var s2 := State();
      o := History();
      if o.Err? { return; }
      ghost var s3 := State();
      o := Router();
      if o.Err? { return; }
      ghost var s4 := State();
      o := EventAggregator();
      ghost var ps := ConfigSpec.StandardPlugins;
      assert ps[1..][1..][1..][1..][1..] == [];
      assert ConfigSpec.AddNormalizedPlugins(s4, ps[1..][1..][1..][1..]) == (State(), o);
    }

    /** One call of a task body or a `configure` hook on this configuration. */
    method Perform(a: Action) returns (o: Outcome)
      modifies this, container
      ensures (State(), o) == ConfigSpec.Perform(old(State()), env, a)
    {
      match a
      case DeclareResources(rs) =>
        o := GlobalResources(rs);
      case Rename(p, n) =>
        o := GlobalName(p, n);
      case RegisterKey(lifetime, k) =>
        if lifetime.Instance? {
          Instance(k);
        } else if lifetime.Singleton? {
          Singleton(k);
        } else {
          Transient(k);
        }
        o := Ok;
      case Probe(k) =>
        o := if k in container.keys then Ok else Err(Unregistered(k));
      case Fail =>
        o := Err(Rejected);
    }

    /** A task body or hook, one call after another until one fails. */
    method RunScript(body: seq<Action>) returns (o: Outcome)
      modifies this, container
      ensures (State(), o) == ConfigSpec.RunScript(old(State()), env, body)
    {
      for i := 0 to |body|
        invariant ConfigSpec.RunScript(State(), env, body[i..]) == ConfigSpec.RunScript(old(State()), env, body)
      {
        o := Perform(body[i]);
        if o.Err? {
          return;
        }
        assert body[i..][1..] == body[i + 1..];
      }
      o := Ok;
    }

    /** `current(config)` for a task taken off the queue `phase`. */
    method RunTask(phase: Phase, task: Task) returns (o: Outcome)
      modifies this, container
      ensures (State(), o) == ConfigSpec.RunTask(old(State()), env, phase, task)
    {
      trace := trace + [RanTask(phase, task)];
      match task
      case NormalizeBootstrapper =>
        trace := trace + [Normalized(ConfigSpec.Bootstrapper, None)];
        var name := env.normalize("aurelia-bootstrapper", None);
        if name.None? {
          return Err(NormalizeFailed(ConfigSpec.Bootstrapper));
        }
        bootstrapperName := Some(name.value);
        o := Ok;
      case ImportResources =>
        trace := trace + [ImportedResources(resourcesToLoad)];
        var importIds, names := LoadResources(resourcesToLoad);
        ZipRestoresMap(importIds, names, resourcesToLoad);
        o := if env.importAccepts(Zip(importIds, names)) then Ok else Err(ImportRejected);
      case NormalizePlugin(uid, name) =>
        trace := trace + [Normalized(name, bootstrapperName)];
        var normalizedName := env.normalize(name, bootstrapperName);
        if normalizedName.None? {
          return Err(NormalizeFailed(name));
        }
        var id := PluginNames.StripScriptSuffix(normalizedName.value);
        info := ConfigSpec.RenameDescriptor(info, uid, id);
        trace := trace + [AliasMapped(name, id)];
        o := Ok;
      case Custom(_, body) =>
        o := RunScript(body);
    }

    /** `runTasks(this, queue)`: shift the head, run it, repeat; a falsy entry or the end stops it. */
    method RunTasks(phase: Phase) returns (o: Outcome)
      modifies this, container
      ensures (State(), o) == ConfigSpec.RunTasks(old(State()), env, phase)
    {
      while (if phase == Pre then preTasks else postTasks) != []
        invariant ConfigSpec.RunTasks(State(), env, phase) == ConfigSpec.RunTasks(old(State()), env, phase)
        decreases |ConfigSpec.Queue(State(), phase)|
      {
        var current: Option<Task>;
        if phase == Pre {
          current := preTasks[0];
          preTasks := preTasks[1..];
        } else {
          current := postTasks[0];
          postTasks := postTasks[1..];
        }
        if current.None? {
          return Ok;
        }
        o := RunTask(phase, current.value);
        if o.Err? {
          return;
        }
      }
      o := Ok;
    }

    /** `loadPlugin(this, loader, info)` */
    method LoadPlugin(p: PluginInfo) returns (o: Outcome)
      modifies this, container
      ensures (State(), o) == ConfigSpec.LoadPlugin(old(State()), env, p)
    {
      resourcesRelativeTo := p.resourcesRelativeTo;
      trace := trace + [LoadedModule(p.moduleId)];
      if p.moduleId !in env.modules {
        return Err(ModuleLoadFailed(p.moduleId));
      }
      var m := env.modules[p.moduleId];
      if m.configure.None? {
        resourcesRelativeTo := None;
        return Ok;
      }
      trace := trace + [Configured(p.moduleId, resourcesRelativeTo, p.config.GetOr(map[]))];
      o := RunScript(m.configure.value);
      if o.Err? {
        return;
      }
      resourcesRelativeTo := None;
    }

    /** `apply()`: pre-tasks, then every plugin in queue order, then `processed`, then post-tasks. */
    method Apply() returns (o: Outcome)
      modifies this, container
      ensures (State(), o) == ConfigSpec.Apply(old(State()), env)
    {
      if processed {
        return Ok;
      }
      o := RunTasks(Pre);
      if o.Err? {
        return;
      }
      ghost var afterPre := State();
      var done := false;
      while !done && info != []
        invariant !processed
        invariant !done ==> ConfigSpec.DrainPlugins(State(), env) == ConfigSpec.DrainPlugins(afterPre, env)
        invariant done ==> ConfigSpec.DrainPlugins(afterPre, env) == (ConfigSpec.Finish(State()), Ok)
        invariant State().postTasks == afterPre.postTasks
        decreases |info|
      {
        var current := info[0];
        info := info[1..];
        if current.None? {
          done := true;
        } else {
          o := LoadPlugin(current.value);
          if o.Err? {
            return;
          }
        }
      }
      processed := true;
      trace := trace + [MarkedProcessed];
      o := RunTasks(Post);
    }
  }
}
