/**
 * The `Aurelia` object's lifecycle: `start` runs the configuration once and insists on a
 * binding language, `_configureHost` binds the application host at most once, and
 * `setRoot`/`enhance` compose into that host, reusing it once it is bound. DOM calls and
 * the composition engine are collaborators; what they are asked to do is recorded as
 * events in order.
 */
module App {
  import opened Types
  import ConfigSpec
  import Framework

  /** A DOM element, by identity. */
  datatype Element = Element(id: nat)

  /** The `applicationHost` argument: absent, an element id, or an element. */
  datatype HostRef = NoHost | HostId(id: string) | HostElement(element: Element)

  /** A composed or enhanced root; `hasRouter` is `root.viewModel.router` being set. */
  datatype View = View(id: nat, hasRouter: bool)

  /**
   * The page and the templating engine: `getElementById`, `compose` (`None` is a
   * rejection) and `enhance` (`None` is a throw).
   */
  datatype Dom = Dom(
    elements: map<string, Element>,
    compose: (string, Element) -> Option<View>,
    enhance: (Payload, Element) -> Option<View>)

  /** The requests made of the page and the composition engine, in order. */
  datatype AppEvent =
    | SubmitGuardInstalled          // preventActionlessFormSubmit()
    | StartedDispatched             // the 'aurelia-started' event
    | HostBound(host: Element)      // host.aurelia = this, and the host becomes the DI boundary
    | RouterDeactivated
    | RouterReset
    | InitialCompositionCleared     // delete transaction.initialComposition
    | Composed(root: string, host: Element)
    | Enhanced(bindingContext: Payload, host: Element)
    | RootAttached                  // root.attached()
    | ComposedScheduled             // _onAureliaComposed()

  /** What `setRoot` asks of a routed root before replacing it: deactivate and reset its router. */
  function RouterShutdown(root: Option<View>): seq<AppEvent> {
    if root.Some? && root.value.hasRouter then [RouterDeactivated, RouterReset] else []
  }

  /** The id looked up when no host is given. */
  const DefaultHostId: string := "applicationHost"

  function Lookup(elements: map<string, Element>, id: string): Option<Element> {
    if id in elements then Some(elements[id]) else None
  }

  /** `applicationHost || this.host`: an empty id is as falsy as a missing host. */
  function Fallback(applicationHost: HostRef, current: Option<Element>): HostRef {
    match applicationHost
    case NoHost => if current.Some? then HostElement(current.value) else NoHost
    case HostId(id) =>
      if id != "" then applicationHost
      else if current.Some? then HostElement(current.value) else NoHost
    case HostElement(_) => applicationHost
  }

  /**
   * The host `_configureHost` settles on: a falsy or string reference is looked up by id,
   * with `'applicationHost'` when there is no id; an element is taken as it is.
   */
  function ResolveHost(applicationHost: HostRef, current: Option<Element>, elements: map<string, Element>): (r: Option<Element>)
    ensures r.Some? ==>
      r.value in elements.Values || applicationHost == HostElement(r.value) || current == r
  {
    match Fallback(applicationHost, current)
    case NoHost => Lookup(elements, DefaultHostId)
    case HostId(id) => Lookup(elements, id)
    case HostElement(e) => Some(e)
  }

  /**
   * The host resolution case by case: a given element wins; a non-empty id is looked up;
   * otherwise the current host is kept, and without one the default id is looked up.
   */
  lemma HostResolution(applicationHost: HostRef, current: Option<Element>, elements: map<string, Element>)
    ensures applicationHost.HostElement? ==>
      ResolveHost(applicationHost, current, elements) == Some(applicationHost.element)
    ensures applicationHost.HostId? && applicationHost.id != "" ==>
      ResolveHost(applicationHost, current, elements) ==
        (if applicationHost.id in elements then Some(elements[applicationHost.id]) else None)
    ensures (applicationHost == NoHost || applicationHost == HostId("")) && current.Some? ==>
      ResolveHost(applicationHost, current, elements) == current
    ensures (applicationHost == NoHost || applicationHost == HostId("")) && current.None? ==>
      ResolveHost(applicationHost, current, elements) ==
        (if DefaultHostId in elements then Some(elements[DefaultHostId]) else None)
  {
  }

  // ---------------------------------------------------------------------------
  // The promise `enhance` returns
  // ---------------------------------------------------------------------------

  /** The state of a promise. */
  datatype Settlement = Pending | Fulfilled | Refused

  /**
   * What a `new Promise(executor)` executor does: throw, call `resolve`, or neither. A throw
   * is taken to come before any call of `resolve`; a throw after `resolve` has no effect in
   * JavaScript and is not modelled.
   */
  datatype Executor = Executor(throws: bool, callsResolve: bool)

  /**
   * `new Promise(executor)`: a throw rejects, a call of `resolve` fulfils, and the value
   * the executor returns is ignored, so an executor that does neither leaves it pending.
   */
  function Settle(e: Executor): (s: Settlement)
    ensures s == Pending <==> !e.throws && !e.callsResolve
  {
    if e.throws then Refused else if e.callsResolve then Fulfilled else Pending
  }

  /** The executor of `enhance` as written: it ends in `return this` and never calls `resolve`. */
  function EnhanceExecutorAsWritten(enhanceThrows: bool): Executor {
    Executor(enhanceThrows, false)
  }

  /** The executor as intended: `resolve(this)` once the root is attached. */
  function EnhanceExecutor(enhanceThrows: bool): Executor {
    Executor(enhanceThrows, true)
  }

  /** As written, a successful enhancement leaves the returned promise pending forever. */
  lemma EnhanceAsWrittenNeverSettles()
    ensures Settle(EnhanceExecutorAsWritten(false)) == Pending
    ensures Settle(EnhanceExecutorAsWritten(true)) == Refused
  {
  }

  /** As intended, the promise settles either way, fulfilled exactly when enhancement succeeds. */
  lemma EnhanceSettles(enhanceThrows: bool)
    ensures Settle(EnhanceExecutor(enhanceThrows)) != Pending
    ensures Settle(EnhanceExecutor(enhanceThrows)) == Fulfilled <==> !enhanceThrows
  {
  }

  // ---------------------------------------------------------------------------
  // The Aurelia object
  // ---------------------------------------------------------------------------

  /** The slot over the host's children into which the root view is added. */
  class ViewSlot {
    const anchor: Element
    var isAttached: bool

    constructor(anchor: Element)
      ensures this.anchor == anchor && !isAttached
    {
      this.anchor := anchor;
      isAttached := false;
    }

    /** `attached()` */
    method Attached()
      modifies this
      ensures isAttached
    {
      isAttached := true;
    }
  }

  class Aurelia {
    const container: Framework.Container
    const use: Framework.FrameworkConfiguration
    const dom: Dom

    var started: bool
    var hostConfigured: bool
    var host: Option<Element>
    var hostSlot: ViewSlot?
    var root: Option<View>
    ghost var events: seq<AppEvent>

    /** A bound host always has its slot; the configuration shares the container. */
    ghost predicate Valid()
      reads this
    {
      && use.container == container
      && (hostConfigured ==> host.Some? && hostSlot != null && hostSlot.anchor == host.value)
    }

    /**
     * A fresh configuration over the given container, which then holds the Aurelia object,
     * the loader and the view resources.
     */
    constructor(env: LoaderEnv, container: Framework.Container, dom: Dom)
      modifies container
      ensures Valid() && fresh(use)
      ensures this.container == container && this.dom == dom && use.env == env
      ensures use.State() == ConfigSpec.Initial(old(container.keys) + {AureliaKey, LoaderKey, ViewResourcesKey})
      ensures !started && !hostConfigured && host.None? && hostSlot == null && root.None? && events == []
    {
      this.container := container;
      this.dom := dom;
      use := new Framework.FrameworkConfiguration(env, container);
      started := false;
      hostConfigured := false;
      host := None;
      hostSlot := null;
      root := None;
      events := [];
      new;
      use.Instance(AureliaKey);
      use.Instance(LoaderKey);
      use.Instance(ViewResourcesKey);
    }

    /**
     * `start()`: once only. The first call applies the configuration; after it succeeds
     * the submit guard is installed and the start fails unless a binding language is
     * registered, and otherwise announces the start. A later call does nothing.
     */
    method Start() returns (o: Outcome)
      requires Valid()
      modifies this, use, container
      ensures Valid() && started
      ensures hostConfigured == old(hostConfigured) && host == old(host)
      ensures hostSlot == old(hostSlot) && root == old(root)
      ensures old(started) ==> o == Ok && use.State() == old(use.State()) && events == old(events)
      ensures !old(started) ==>
        var r := ConfigSpec.Apply(old(use.State()), use.env);
        && use.State() == r.0
        && (r.1.Err? ==> o == r.1 && events == old(events))
        && (r.1 == Ok && BindingLanguageKey !in r.0.container ==>
              o == Err(NoBindingLanguage) && events == old(events) + [SubmitGuardInstalled])
        && (r.1 == Ok && BindingLanguageKey in r.0.container ==>
              o == Ok && events == old(events) + [SubmitGuardInstalled, StartedDispatched])
    {
      if started {
        return Ok;
      }
      started := true;
      o := use.Apply();
      if o.Err? {
        return;
      }
      events := events + [SubmitGuardInstalled];
      if BindingLanguageKey !in container.keys {
        return Err(NoBindingLanguage);
      }
      events := events + [StartedDispatched];
    }

    /**
     * `_configureHost(applicationHost)`: once bound, the host stays as it is. Otherwise the
     * host is resolved, and a missing one fails; a found one is bound, gets a fresh slot
     * and becomes the container's DOM boundary.
     */
    method ConfigureHost(applicationHost: HostRef) returns (o: Outcome)
      requires Valid()
      modifies this, container
      ensures Valid()
      ensures started == old(started) && root == old(root) && use.State() == old(use.State()).(container := container.keys)
      ensures old(hostConfigured) ==>
        && o == Ok && hostConfigured && host == old(host) && hostSlot == old(hostSlot)
        && container.keys == old(container.keys) && events == old(events)
      ensures !old(hostConfigured) ==>
        && host == ResolveHost(applicationHost, old(host), dom.elements)
        && (host.None? ==>
              && o == Err(NoApplicationHost) && !hostConfigured && hostSlot == old(hostSlot)
              && container.keys == old(container.keys) && events == old(events))
        && (host.Some? ==>
              && o == Ok && hostConfigured && fresh(hostSlot)
              && container.keys == old(container.keys) + {BoundaryKey}
              && events == old(events) + [HostBound(host.value)])
    {
      if hostConfigured {
        return Ok;
      }
      host := ResolveHost(applicationHost, host, dom.elements);
      if host.None? {
        return Err(NoApplicationHost);
      }
      hostConfigured := true;
      events := events + [HostBound(host.value)];
      hostSlot := new ViewSlot(host.value);
      container.Register(BoundaryKey);
      o := Ok;
    }

    /**
     * `setRoot(root, applicationHost)`: a routed root's router is shut down first; then the
     * host is configured (a bound host and its slot are reused as they are), the initial
     * composition is dropped, and the root is composed into the host. A successful
     * composition becomes the root and its slot is attached.
     */
    method SetRoot(rootModule: string := "app", applicationHost: HostRef := NoHost) returns (o: Outcome)
      requires Valid()
      modifies this, container, hostSlot
      ensures Valid() && started == old(started)
      ensures use.State() == old(use.State()).(container := container.keys)
      ensures container.keys == old(container.keys) + (if !old(hostConfigured) && hostConfigured then {BoundaryKey} else {})
      ensures old(hostConfigured) ==> host == old(host) && hostSlot == old(hostSlot)
      ensures !old(hostConfigured) ==> host == ResolveHost(applicationHost, old(host), dom.elements)
      ensures !old(hostConfigured) && ResolveHost(applicationHost, old(host), dom.elements).None? ==>
        o == Err(NoApplicationHost) && root == old(root)
      ensures old(hostConfigured) || ResolveHost(applicationHost, old(host), dom.elements).Some? ==> hostConfigured
      ensures hostConfigured && dom.compose(rootModule, host.value).Some? ==> o == Ok
      ensures o == Ok ==>
        && hostConfigured
        && root == dom.compose(rootModule, host.value) && root.Some?
        && hostSlot.isAttached
      ensures hostConfigured && dom.compose(rootModule, host.value).None? ==>
        o == Err(CompositionFailed) && root == old(root)
      ensures events == old(events) + RouterShutdown(old(root))
        + (if !old(hostConfigured) && hostConfigured then [HostBound(host.value)] else [])
        + (if hostConfigured then [InitialCompositionCleared, Composed(rootModule, host.value)] else [])
        + (if o == Ok then [ComposedScheduled] else [])
    {
      events := events + RouterShutdown(root);
      o := ConfigureHost(applicationHost);
      if o.Err? {
        return;
      }
      o := ComposeRoot(rootModule);
    }

    /**
     * The rest of `setRoot` once the host is bound: drop the initial composition, compose
     * the root module into the host slot, and on success make it the root and attach it.
     */
    method ComposeRoot(rootModule: string) returns (o: Outcome)
      requires Valid() && hostConfigured
      modifies this, hostSlot
      ensures Valid() && hostConfigured && started == old(started)
      ensures host == old(host) && hostSlot == old(hostSlot) && use.State() == old(use.State())
      ensures container.keys == old(container.keys)
      ensures events == old(events) + [InitialCompositionCleared, Composed(rootModule, host.value)]
        + (if o == Ok then [ComposedScheduled] else [])
      ensures o == Ok <==> dom.compose(rootModule, host.value).Some?
      ensures o == Ok ==> root == dom.compose(rootModule, host.value) && hostSlot.isAttached
      ensures o != Ok ==> o == Err(CompositionFailed) && root == old(root)
    {
      var slot := hostSlot;
      var h := host.value;
      events := events + [InitialCompositionCleared, Composed(rootModule, h)];
      var r := dom.compose(rootModule, h);
      if r.None? {
        o := Err(CompositionFailed);
        return;
      }
      root := r;
      slot.Attached();
      events := events + [ComposedScheduled];
      o := Ok;
    }

    /**
     * `enhance(bindingContext, applicationHost)`, with the promise settled as intended: the
     * host is configured as for `setRoot`, then the host's existing children are enhanced
     * into the root; a successful enhancement becomes the root, is attached and fulfils.
     */
    method Enhance(bindingContext: Payload := map[], applicationHost: HostRef := NoHost) returns (o: Outcome)
      requires Valid()
      modifies this, container
      ensures Valid() && started == old(started)
      ensures use.State() == old(use.State()).(container := container.keys)
      ensures container.keys == old(container.keys) + (if !old(hostConfigured) && hostConfigured then {BoundaryKey} else {})
      ensures old(hostConfigured) ==> host == old(host) && hostSlot == old(hostSlot)
      ensures !old(hostConfigured) ==> host == ResolveHost(applicationHost, old(host), dom.elements)
      ensures !old(hostConfigured) && ResolveHost(applicationHost, old(host), dom.elements).None? ==>
        o == Err(NoApplicationHost) && root == old(root)
      ensures events == old(events)
        + (if !old(hostConfigured) && hostConfigured then [HostBound(host.value)] else [])
        + (if hostConfigured then [Enhanced(bindingContext, host.value)] else [])
        + (if o == Ok then [RootAttached, ComposedScheduled] else [])
      ensures old(hostConfigured) || ResolveHost(applicationHost, old(host), dom.elements).Some? ==>
        && hostConfigured
        && var v := dom.enhance(bindingContext, host.value);
           && (v.Some? <==> o == Ok)
           && (o == Ok ==> root == v)
           && (o != Ok ==> o == Err(Rejected) && root == old(root))
    {
      o := ConfigureHost(applicationHost);
      if o.Err? {
        return;
      }
      var h := host.value;
      events := events + [Enhanced(bindingContext, h)];
      var v := dom.enhance(bindingContext, h);
      if v.None? {
        return Err(Rejected);
      }
      root := v;
      events := events + [RootAttached, ComposedScheduled];
      o := Ok;
    }
  }
}
