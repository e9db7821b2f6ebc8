/**
 * Reference semantics of `FrameworkConfiguration`: the whole configuration state as
 * one value, and every operation as a function from the state before to the state
 * after together with the outcome (a thrown error or a rejected promise is an
 * `Err`). Promise chains are strictly sequential, so each `.then` is the next step
 * of a function.
 */
module ConfigSpec {
  import opened Types
  import PluginNames

  /** The name the constructor's first pre-task normalizes. */
  const Bootstrapper: string := "aurelia-bootstrapper"

  /**
   * The fields of a `FrameworkConfiguration`. `container` is the key set of the shared
   * container, `nextUid` supplies descriptor identities, and `trace` records the
   * calls made on collaborators in the order they happen.
   */
  datatype Config = Config(
    info: seq<Option<PluginInfo>>,
    preTasks: seq<Option<Task>>,
    postTasks: seq<Option<Task>>,
    resourcesToLoad: map<string, Option<string>>,
    resourcesRelativeTo: Option<string>,
    processed: bool,
    bootstrapperName: Option<string>,
    container: set<Key>,
    nextUid: nat,
    trace: seq<Event>)

  /** The state the constructor leaves: one pre-task and one post-task queued. */
  function Initial(container: set<Key>): Config {
    Config([], [Some(NormalizeBootstrapper)], [Some(ImportResources)], map[], None,
           false, None, container, 0, [])
  }

  function Queue(c: Config, phase: Phase): seq<Option<Task>> {
    match phase
    case Pre => c.preTasks
    case Post => c.postTasks
  }

  function WithQueue(c: Config, phase: Phase, q: seq<Option<Task>>): Config {
    match phase
    case Pre => c.(preTasks := q)
    case Post => c.(postTasks := q)
  }

  /*
   * Every guarded operation below opens with `assertProcessed`: once the configuration is
   * applied it fails with `AlreadyApplied` and leaves the configuration as it was.
   */

  function PreTask(c: Config, t: Option<Task>): (Config, Outcome) {
    if c.processed then (c, Err(AlreadyApplied)) else (c.(preTasks := c.preTasks + [t]), Ok)
  }

  function PostTask(c: Config, t: Option<Task>): (Config, Outcome) {
    if c.processed then (c, Err(AlreadyApplied)) else (c.(postTasks := c.postTasks + [t]), Ok)
  }

  /** Appends one entry to the plugin queue; a descriptor gets the next identity. */
  function Push(c: Config, entry: Option<PluginInfo>): Config {
    c.(info := c.info + [entry], nextUid := c.nextUid + 1)
  }

  /**
   * `plugin(p, config)`: a name becomes the descriptor `{moduleId: n, resourcesRelativeTo: n,
   * config: config || {}}` with `n` the name without its script suffix; anything else is
   * queued as given.
   */
  function Plugin(c: Config, p: PluginRef, config: Option<Payload>): (Config, Outcome) {
    if c.processed then (c, Err(AlreadyApplied))
    else
      match p
      case Named(name) =>
        var id := PluginNames.StripScriptSuffix(name);
        (Push(c, Some(PluginInfo(c.nextUid, id, Some(id), Some(config.GetOr(map[]))))), Ok)
      case Descriptor(moduleId, relativeTo, settings) =>
        (Push(c, Some(PluginInfo(c.nextUid, moduleId, relativeTo, settings))), Ok)
      case Nothing =>
        (Push(c, None), Ok)
  }

  /** `feature(folder, config)`: the descriptor form of `plugin` with the folder's index module. */
  function Feature(c: Config, folder: string, config: Option<Payload>): (Config, Outcome) {
    var base := PluginNames.StripScriptSuffix(folder);
    Plugin(c, Descriptor(PluginNames.FeatureModuleId(folder), Some(base), Some(config.GetOr(map[]))), None)
  }

  /**
   * `_addNormalizedPlugin(name, config)`: queues the descriptor under the bare name at once
   * and a pre-task that later rewrites that same descriptor to the normalized name.
   */
  function AddNormalizedPlugin(c: Config, name: string, config: Option<Payload>): (Config, Outcome) {
    var r := Plugin(c, Descriptor(name, Some(name), Some(config.GetOr(map[]))), None);
    if r.1.Err? then r else PreTask(r.0, Some(NormalizePlugin(c.nextUid, name)))
  }

  /**
   * The modules `defaultBindingLanguage`, `defaultResources`, `history`, `router` and
   * `eventAggregator` add, in the order `standardConfiguration` calls them.
   */
  const StandardPlugins: seq<string> := [
    "aurelia-templating-binding",
    "aurelia-templating-resources",
    "aurelia-history-browser",
    "aurelia-templating-router",
    "aurelia-event-aggregator"]

  /** A chain of `_addNormalizedPlugin(name)` calls without settings; the first failure ends it. */
  function AddNormalizedPlugins(c: Config, names: seq<string>): (Config, Outcome)
    decreases |names|
  {
    if names == [] then (c, Ok)
    else
      var r := AddNormalizedPlugin(c, names[0], None);
      if r.1.Err? then r else AddNormalizedPlugins(r.0, names[1..])
  }

  /** `standardConfiguration()` */
  function StandardConfiguration(c: Config): (Config, Outcome) {
    AddNormalizedPlugins(c, StandardPlugins)
  }

  /** `instance`, `singleton`, `transient`: no guard, the key joins the container. */
  function Register(c: Config, key: Key): Config {
    c.(container := c.container + {key})
  }

  /** `this.resourcesRelativeTo || ''` */
  function Base(relativeTo: Option<string>): string {
    relativeTo.GetOr("")
  }

  /**
   * The loop of `globalResources`: each string is joined to `base` and its key is made
   * present, keeping any export name it already has; the first non-string stops the
   * loop with an error, after the keys before it were added.
   */
  function AddResources(m: map<string, Option<string>>, join: (string, string) -> string,
                        base: string, rs: seq<Resource>): (map<string, Option<string>>, Outcome)
    decreases |rs|
  {
    if rs == [] then (m, Ok)
    else
      match rs[0]
      case NotAString => (m, Err(InvalidResourcePath))
      case Path(r) =>
        var key := join(base, r);
        AddResources(if key in m then m else m[key := None], join, base, rs[1..])
  }

  function GlobalResources(c: Config, env: LoaderEnv, rs: seq<Resource>): (Config, Outcome) {
    if c.processed then (c, Err(AlreadyApplied))
    else
      var r := AddResources(c.resourcesToLoad, env.join, Base(c.resourcesRelativeTo), rs);
      (c.(resourcesToLoad := r.0), r.1)
  }

  function GlobalName(c: Config, resourcePath: string, newName: string): (Config, Outcome) {
    if c.processed then (c, Err(AlreadyApplied))
    else (c.(resourcesToLoad := c.resourcesToLoad[resourcePath := Some(newName)]), Ok)
  }

  /** What a task or hook body may change: the resource map and the container. */
  predicate ScriptFrame(c: Config, d: Config) {
    d == c.(resourcesToLoad := d.resourcesToLoad, container := d.container)
  }

  function Perform(c: Config, env: LoaderEnv, a: Action): (r: (Config, Outcome))
    ensures ScriptFrame(c, r.0)
  {
    match a
    case DeclareResources(rs) => GlobalResources(c, env, rs)
    case Rename(p, n) => GlobalName(c, p, n)
    case RegisterKey(_, k) => (Register(c, k), Ok)
    case Probe(k) => if k in c.container then (c, Ok) else (c, Err(Unregistered(k)))
    case Fail => (c, Err(Rejected))
  }

  /** A body runs its calls one after another and stops at the first failure. */
  function RunScript(c: Config, env: LoaderEnv, body: seq<Action>): (r: (Config, Outcome))
    ensures ScriptFrame(c, r.0)
    decreases |body|
  {
    if body == [] then (c, Ok)
    else
      var r1 := Perform(c, env, body[0]);
      if r1.1.Err? then r1 else RunScript(r1.0, env, body[1..])
  }

  /** The normalization pre-task rewrites the descriptor with identity `uid`, wherever it is. */
  function RenameDescriptor(info: seq<Option<PluginInfo>>, uid: nat, id: string): (r: seq<Option<PluginInfo>>)
    ensures |r| == |info|
  {
    seq(|info|, i requires 0 <= i < |info| =>
      match info[i]
      case Some(p) => if p.uid == uid then Some(p.(moduleId := id, resourcesRelativeTo := Some(id))) else info[i]
      case None => None)
  }

  /** `current(config)` for one task taken off the queue `phase`. */
  function RunTask(c: Config, env: LoaderEnv, phase: Phase, t: Task): (r: (Config, Outcome))
    ensures r.0.preTasks == c.preTasks && r.0.postTasks == c.postTasks
    ensures |r.0.info| == |c.info| && r.0.processed == c.processed
  {
    var c0 := c.(trace := c.trace + [RanTask(phase, t)]);
    match t
    case NormalizeBootstrapper =>
      var c1 := c0.(trace := c0.trace + [Normalized(Bootstrapper, None)]);
      (match env.normalize(Bootstrapper, None)
       case None => (c1, Err(NormalizeFailed(Bootstrapper)))
       case Some(n) => (c1.(bootstrapperName := Some(n)), Ok))
    case ImportResources =>
      var c1 := c0.(trace := c0.trace + [ImportedResources(c.resourcesToLoad)]);
      if env.importAccepts(c.resourcesToLoad) then (c1, Ok) else (c1, Err(ImportRejected))
    case NormalizePlugin(uid, name) =>
      var c1 := c0.(trace := c0.trace + [Normalized(name, c.bootstrapperName)]);
      (match env.normalize(name, c.bootstrapperName)
       case None => (c1, Err(NormalizeFailed(name)))
       case Some(n) =>
         var id := PluginNames.StripScriptSuffix(n);
         (c1.(info := RenameDescriptor(c.info, uid, id), trace := c1.trace + [AliasMapped(name, id)]), Ok))
    case Custom(_, body) =>
      RunScript(c0, env, body)
  }

  /** `runTasks(config, queue)`: shift, run, repeat; a falsy entry or the end stops it. */
  function RunTasks(c: Config, env: LoaderEnv, phase: Phase): (r: (Config, Outcome))
    ensures r.0.processed == c.processed && |r.0.info| == |c.info|
    ensures phase == Pre ==> r.0.postTasks == c.postTasks
    ensures phase == Post ==> r.0.preTasks == c.preTasks
    decreases |Queue(c, phase)|
  {
    var q := Queue(c, phase);
    if q == [] then (c, Ok)
    else
      var rest := WithQueue(c, phase, q[1..]);
      match q[0]
      case None => (rest, Ok)
      case Some(t) =>
        var r1 := RunTask(rest, env, phase, t);
        if r1.1.Err? then r1 else RunTasks(r1.0, env, phase)
  }

  /**
   * `loadPlugin(config, loader, info)`: set the slot, load the module, run its `configure`
   * hook if it has one, and clear the slot once that settles successfully.
   */
  function LoadPlugin(c: Config, env: LoaderEnv, p: PluginInfo): (r: (Config, Outcome))
    ensures r.0.info == c.info && r.0.preTasks == c.preTasks && r.0.postTasks == c.postTasks
    ensures r.0.processed == c.processed
  {
    var c1 := c.(resourcesRelativeTo := p.resourcesRelativeTo, trace := c.trace + [LoadedModule(p.moduleId)]);
    if p.moduleId !in env.modules then (c1, Err(ModuleLoadFailed(p.moduleId)))
    else
      match env.modules[p.moduleId].configure
      case None => (c1.(resourcesRelativeTo := None), Ok)
      case Some(hook) =>
        var c2 := c1.(trace := c1.trace + [Configured(p.moduleId, c1.resourcesRelativeTo, p.config.GetOr(map[]))]);
        var r3 := RunScript(c2, env, hook);
        if r3.1.Err? then r3 else (r3.0.(resourcesRelativeTo := None), Ok)
  }

  /** `processed := true`, with a mark in the trace to order it against the other steps. */
  function Finish(c: Config): Config {
    c.(processed := true, trace := c.trace + [MarkedProcessed])
  }

  /** The inner `next` loop of `apply`: load plugins in queue order until the queue is empty. */
  function DrainPlugins(c: Config, env: LoaderEnv): (r: (Config, Outcome))
    ensures r.0.processed == (c.processed || r.1 == Ok)
    ensures r.0.preTasks == c.preTasks && r.0.postTasks == c.postTasks
    decreases |c.info|
  {
    if c.info == [] then (Finish(c), Ok)
    else
      match c.info[0]
      case None => (Finish(c.(info := c.info[1..])), Ok)
      case Some(p) =>
        var r1 := LoadPlugin(c.(info := c.info[1..]), env, p);
        if r1.1.Err? then r1 else DrainPlugins(r1.0, env)
  }

  /** `apply()`: pre-tasks, then plugins, then post-tasks; nothing at all once processed. */
  function Apply(c: Config, env: LoaderEnv): (Config, Outcome) {
    if c.processed then (c, Ok)
    else
      var r1 := RunTasks(c, env, Pre);
      if r1.1.Err? then r1
      else
        var r2 := DrainPlugins(r1.0, env);
        if r2.1.Err? then r2 else RunTasks(r2.0, env, Post)
  }
}
