/** What every context-based tool of the Azure specialists does before its
    service call (DAPEAgent/azure/adf/integration_runtime_agent.py,
    linked_services_agent.py, pipelines_agent.py and
    DAPEAgent/azure/keyvault/key_vault_agent.py): read the three identifiers
    from the run context, make sure the context holds an authentication
    object, and build the SDK helper from them. Also the shape shared by all
    tools: any exception becomes a string "<what failed>: <str(e)>". */
module ServiceAccess {
  import opened Wrappers
  import opened AzureConfig

  /** An SDK helper object (`ADFIntegrationRuntime`, `ADFLinkedServices`,
      `AzureKeyVault`, `ADFPipeline`): what it was built with. */
  datatype Handle = Handle(
    subscriptionId: Option<string>,
    resourceGroupName: Option<string>,
    resourceName: Option<string>,
    auth: Option<AuthRef>)

  /** The context after the tool ran, and the helper or the exception text. */
  datatype Access = Access(context: Option<AzureCtx>, service: Result<Handle, string>)

  /** `c = ctx.context` followed by
      `Helper(subscription_id=c.subscription_id, …, auth=c.ensure_auth())`.
      The keyword arguments are evaluated in order, so a missing context
      fails on the first one and nothing is created; otherwise the
      authentication object is stored before the constructor runs, and stays
      stored even when the constructor raises. `newAuth` is the object
      `ensure_auth` would create, `construct` how the constructor ends. */
  function Acquire(context: Option<AzureCtx>, newAuth: AuthRef, construct: Result<(), string>): (r: Access)
    ensures context.None? ==> r == Access(None, Failure(NoContextError))
    ensures context.Some? ==> r.context.Some? && r.context.value.auth.Some?
    ensures context.Some? ==> forall f :: r.context.value.Get(f) == context.value.Get(f)
    ensures context.Some? && context.value.auth.Some? ==> r.context == context
    ensures context.Some? && context.value.auth.None? ==> r.context.value.auth == Some(newAuth)
    ensures context.Some? && construct.Failure? ==> r.service == Failure(construct.error)
    ensures context.Some? && construct.Success? ==>
      && r.service.Success?
      && r.service.value.subscriptionId == context.value.subscriptionId
      && r.service.value.resourceGroupName == context.value.resourceGroupName
      && r.service.value.resourceName == context.value.resourceName
      && r.service.value.auth == r.context.value.auth
  {
    match context
    case None => Access(None, Failure(NoContextError))
    case Some(c) =>
      var ensured := EnsureAuth(c, newAuth);
      var service := match construct
        case Failure(e) => Failure(e)
        case Success(_) => Success(Handle(c.subscriptionId, c.resourceGroupName, c.resourceName, Some(ensured.auth)));
      Access(Some(ensured.ctx), service)
  }

  /** Every tool of one conversation talks to Azure with the same
      credential: once a tool has run on a context, a later tool neither
      changes that context nor builds its helper with another credential,
      whatever object `ensure_auth` would have created. */
  lemma ToolsShareCredential(context: AzureCtx, newAuth1: AuthRef, newAuth2: AuthRef, construct1: Result<(), string>, construct2: Result<(), string>)
    requires construct1.Success? && construct2.Success?
    ensures var first := Acquire(Some(context), newAuth1, construct1);
      var second := Acquire(first.context, newAuth2, construct2);
      second.context == first.context && second.service == first.service
  {
  }

  /** Obtaining the helper, then the call on it: the first exception wins. */
  function AndThen<H, T>(service: Result<H, string>, call: Result<T, string>): (r: Result<T, string>)
    ensures service.Failure? ==> r == Failure(service.error)
    ensures service.Success? ==> r == call
  {
    match service
    case Failure(e) => Failure(e)
    case Success(_) => call
  }

  /** The `except Exception as e: return f"{prefix}{str(e)}"` of each tool. */
  function Report(prefix: string, outcome: Result<string, string>): string
  {
    match outcome
    case Success(text) => text
    case Failure(e) => prefix + e
  }

  /** A name as the reports quote it: `'{name}'`. */
  function Quoted(s: string): string
  {
    "'" + s + "'"
  }

  /** Python's f-string rendering of an optional string: `None` prints as
      "None". */
  function PyStr(o: Option<string>): string
  {
    match o
    case None => "None"
    case Some(s) => s
  }
}
