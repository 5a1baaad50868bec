/** The best-effort probes of the ambient request context (tenant, app,
    identity, correlation id) that enrich every log record. The context
    store itself belongs to other modules; its answers are inputs here. */
module LogContext {
  import opened Wrappers

  /** Whatever the context store throws, e.g. when no request scope is active. */
  datatype Exception = Exception(message: string)

  /** An identity kind; the enumeration itself belongs to the shared types
      package and is kept opaque. */
  datatype IdentityType = IdentityType(name: string)

  /** The current actor: its `_id` and `type`. */
  datatype Identity = Identity(id: string, kind: IdentityType)

  /** What each store call does at the moment of a log call: return a value
      (possibly `undefined`) or throw. The correlation id lookup is not
      guarded by the source and so is modelled as never throwing. */
  datatype ContextStore = ContextStore(
    tenantId: Result<Option<string>, Exception>,
    appId: Result<Option<string>, Exception>,
    identity: Result<Option<Identity>, Exception>,
    correlationId: Option<string>)

  /** The ambient state one log call sees: the global context flag and the
      context store. */
  datatype Ambient = Ambient(logContext: bool, store: ContextStore)

  /** A store in which every guarded lookup throws. */
  predicate AllLookupsFail(store: ContextStore) {
    store.tenantId.Failure? && store.appId.Failure? && store.identity.Failure?
  }

  /** The shape shared by the three guarded accessors: a lookup that throws
      gives `undefined`, one that returns gives its value unchanged. */
  function BestEffort<T>(probe: Result<Option<T>, Exception>): (r: Option<T>)
    ensures probe.Failure? ==> r.None?
    ensures probe.Success? ==> r == probe.value
  {
    match probe
    case Success(v) => v
    case Failure(_) => None
  }

  /** The tenant id, or `undefined` when the store throws. */
  function GetTenantId(probe: Result<Option<string>, Exception>): Option<string> {
    BestEffort(probe)
  }

  /** The app id, or `undefined` when the store throws. */
  function GetAppId(probe: Result<Option<string>, Exception>): Option<string> {
    BestEffort(probe)
  }

  /** The current identity, or `undefined` when the store throws. */
  function GetIdentity(probe: Result<Option<Identity>, Exception>): Option<Identity> {
    BestEffort(probe)
  }
}
