/**
 * Values shared by the whole bootstrap model: plugin descriptors, queued tasks,
 * the abstract collaborators (loader, path joiner, view engine) and the calls
 * made on them, and the errors the bootstrap can raise.
 *
 * JavaScript `null` and `undefined` (and any other falsy value where the source
 * only tests truthiness) are `None`.
 */
module Types {

  datatype Option<+T> = None | Some(value: T) {
    /** `x || default` for a value that is either absent or truthy. */
    function GetOr(default: T): T {
      match this
      case Some(v) => v
      case None => default
    }
  }

  /** A key of the dependency-injection container; the container is modelled as a set of keys. */
  datatype Key =
    | AureliaKey
    | LoaderKey
    | ViewResourcesKey
    | BindingLanguageKey
    | BoundaryKey
    | UserKey(name: string)

  /** The way a key was registered (`instance`, `singleton`, `transient`). */
  datatype Lifetime = Instance | Singleton | Transient

  /** The plugin's own settings object handed to its `configure` hook. */
  type Payload = map<string, string>

  /** An element of the argument of `globalResources`: a string, or anything else. */
  datatype Resource = Path(path: string) | NotAString

  /**
   * One call a task body or a plugin's `configure` hook makes on the configuration
   * it receives, or a rejection of the body itself.
   */
  datatype Action =
    | DeclareResources(resources: seq<Resource>)   // config.globalResources(...)
    | Rename(resourcePath: string, newName: string) // config.globalName(...)
    | RegisterKey(lifetime: Lifetime, key: Key)      // config.instance/singleton/transient(...)
    | Probe(key: Key)                                // fails unless the container holds the key
    | Fail                                           // the body throws or its promise rejects

  /** A unit of work queued with `preTask` or `postTask`. */
  datatype Task =
    | NormalizeBootstrapper                  // queued by the constructor as the first pre-task
    | ImportResources                        // queued by the constructor as the first post-task
    | NormalizePlugin(uid: nat, name: string) // queued by `_addNormalizedPlugin`
    | Custom(id: nat, body: seq<Action>)      // a task supplied by the application

  /**
   * A queued plugin descriptor `{moduleId, resourcesRelativeTo, config}`. `uid` stands for
   * the identity of the JavaScript object, through which a queued normalization task
   * rewrites the descriptor in place.
   */
  datatype PluginInfo = PluginInfo(
    uid: nat,
    moduleId: string,
    resourcesRelativeTo: Option<string>,
    config: Option<Payload>)

  /** The first argument of `plugin`: a module name, a descriptor object, or a falsy value. */
  datatype PluginRef =
    | Named(name: string)
    | Descriptor(moduleId: string, resourcesRelativeTo: Option<string>, config: Option<Payload>)
    | Nothing

  /** A loaded module: the presence of a `configure` export, with what it does. */
  datatype Module = Module(configure: Option<seq<Action>>)

  /**
   * The collaborators the configuration reaches: `join` from the path library, the
   * loader's `normalize` (`None` is a rejection) and `loadModule` (a module id missing
   * from `modules` is a rejection), and whether the view engine's
   * `importViewResources` accepts a set of import ids with their export names.
   */
  datatype LoaderEnv = LoaderEnv(
    join: (string, string) -> string,
    normalize: (string, Option<string>) -> Option<string>,
    modules: map<string, Module>,
    importAccepts: map<string, Option<string>> -> bool)

  /** A call observed on a collaborator, or a step of the configuration worth ordering. */
  datatype Event =
    | RanTask(phase: Phase, task: Task)
    | Normalized(name: string, anchor: Option<string>)
    | AliasMapped(name: string, normalized: string)
    | ImportedResources(resources: map<string, Option<string>>)
    | LoadedModule(moduleId: string)
    | Configured(moduleId: string, relativeTo: Option<string>, payload: Payload)
    | MarkedProcessed

  datatype Phase = Pre | Post

  datatype Error =
    | AlreadyApplied
    | InvalidResourcePath
    | NormalizeFailed(name: string)
    | ModuleLoadFailed(moduleId: string)
    | Unregistered(key: Key)
    | Rejected
    | ImportRejected
    | NoBindingLanguage
    | NoApplicationHost
    | CompositionFailed

  datatype Outcome = Ok | Err(error: Error)
}
