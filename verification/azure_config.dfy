/** The shared request context `AzureCtx` of DAPEAgent/azure/config.py and
    DAPEAgent/config.py (the two dataclasses are the same), its lazily
    created authentication handle, and the rule every agent factory uses to
    pick the context it hands to its agent. */
module AzureConfig {
  import opened Wrappers

  /** An `AzureAuthentication` object, known only by its identity. Creating
      one is the caller's business: a newly created one is passed in as `newAuth`. */
  datatype AuthRef = AuthRef(id: nat)

  /** The four identifier fields of the context, in the order every status
      report lists them. */
  datatype Field = SubscriptionId | ResourceGroupName | ResourceName | Intent

  const FieldOrder: seq<Field> := [SubscriptionId, ResourceGroupName, ResourceName, Intent]

  datatype AzureCtx = AzureCtx(
    subscriptionId: Option<string>,
    resourceGroupName: Option<string>,
    resourceName: Option<string>,
    intent: Option<string>,
    auth: Option<AuthRef>)
  {
    function Get(f: Field): Option<string>
    {
      match f
      case SubscriptionId => subscriptionId
      case ResourceGroupName => resourceGroupName
      case ResourceName => resourceName
      case Intent => intent
    }

    /** The context with field `f` replaced by `v` and nothing else changed. */
    function With(f: Field, v: Option<string>): (c: AzureCtx)
      ensures c.Get(f) == v
      ensures forall g :: g != f ==> c.Get(g) == Get(g)
      ensures c.auth == auth
    {
      match f
      case SubscriptionId => this.(subscriptionId := v)
      case ResourceGroupName => this.(resourceGroupName := v)
      case ResourceName => this.(resourceName := v)
      case Intent => this.(intent := v)
    }

    /** Two contexts with the same four identifiers and handle are equal. */
    lemma Extensional(other: AzureCtx)
      requires forall f :: other.Get(f) == Get(f)
      requires other.auth == auth
      ensures other == this
    {
      assert other.Get(SubscriptionId) == Get(SubscriptionId);
      assert other.Get(ResourceGroupName) == Get(ResourceGroupName);
      assert other.Get(ResourceName) == Get(ResourceName);
      assert other.Get(Intent) == Get(Intent);
    }
  }

  /** Python truthiness of an optional string: neither `None` nor `""`. */
  predicate Truthy(o: Option<string>)
  {
    o.Some? && o.value != ""
  }

  /** Python `s or ""` for an optional string. */
  function OrEmpty(o: Option<string>): (r: string)
    ensures Truthy(o) ==> r == o.value
    ensures !Truthy(o) ==> r == ""
  {
    if Truthy(o) then o.value else ""
  }

  /** `AzureCtx()`: every field defaults to `None`. */
  function DefaultCtx(): (c: AzureCtx)
    ensures forall f :: c.Get(f).None?
    ensures c.auth.None?
  {
    AzureCtx(None, None, None, None, None)
  }

  /** `str(e)` of reading `subscription_id` from a run without a context:
      every tool that starts from the run's context raises it. */
  const NoContextError := "'NoneType' object has no attribute 'subscription_id'"

  datatype Ensured = Ensured(ctx: AzureCtx, auth: AuthRef)

  /** `ensure_auth`: create and store an authentication object only when
      there is none, and return the stored one. */
  function EnsureAuth(c: AzureCtx, newAuth: AuthRef): (r: Ensured)
    ensures r.ctx.auth == Some(r.auth)
    ensures c.auth.Some? ==> r.auth == c.auth.value && r.ctx == c
    ensures c.auth.None? ==> r.auth == newAuth
    ensures forall f :: r.ctx.Get(f) == c.Get(f)
  {
    if c.auth.None? then Ensured(c.(auth := Some(newAuth)), newAuth)
    else Ensured(c, c.auth.value)
  }

  /** A second `ensure_auth` returns the object the first one stored, whatever
      object would have been created, and changes nothing. */
  lemma EnsureAuthIdempotent(c: AzureCtx, newAuth1: AuthRef, newAuth2: AuthRef)
    ensures EnsureAuth(EnsureAuth(c, newAuth1).ctx, newAuth2) == EnsureAuth(c, newAuth1)
  {
  }

  /** Python `any([subscription_id, resource_group_name, resource_name])`. */
  predicate AnyIdGiven(subscriptionId: Option<string>, resourceGroupName: Option<string>, resourceName: Option<string>)
  {
    Truthy(subscriptionId) || Truthy(resourceGroupName) || Truthy(resourceName)
  }

  /** The context an agent factory returns: a supplied context is reused as
      is; otherwise, when some identifier is truthy, a new context is built
      from the identifiers with `intent = user_input or ""` and an initialised
      authentication object; otherwise there is no context. */
  function ResolveAgentContext(
    userInput: Option<string>,
    subscriptionId: Option<string>,
    resourceGroupName: Option<string>,
    resourceName: Option<string>,
    context: Option<AzureCtx>,
    newAuth: AuthRef): (r: Option<AzureCtx>)
    ensures context.Some? ==> r == context
    ensures context.None? ==> (r.Some? <==> AnyIdGiven(subscriptionId, resourceGroupName, resourceName))
    ensures context.None? && r.Some? ==>
      && r.value.subscriptionId == subscriptionId
      && r.value.resourceGroupName == resourceGroupName
      && r.value.resourceName == resourceName
      && r.value.intent == Some(OrEmpty(userInput))
      && r.value.auth == Some(newAuth)
  {
    if context.Some? || AnyIdGiven(subscriptionId, resourceGroupName, resourceName) then
      if context.None? then
        var built := AzureCtx(subscriptionId, resourceGroupName, resourceName, Some(OrEmpty(userInput)), None);
        Some(EnsureAuth(built, newAuth).ctx)
      else context
    else None
  }

  /** Feeding a factory the context another factory returned gives the same
      context back: every specialist of one conversation shares it. */
  lemma ResolveReusesResolved(
    userInput: Option<string>,
    subscriptionId: Option<string>,
    resourceGroupName: Option<string>,
    resourceName: Option<string>,
    context: Option<AzureCtx>,
    newAuth: AuthRef,
    userInput2: Option<string>, newAuth2: AuthRef)
    requires ResolveAgentContext(userInput, subscriptionId, resourceGroupName, resourceName, context, newAuth).Some?
    ensures var c := ResolveAgentContext(userInput, subscriptionId, resourceGroupName, resourceName, context, newAuth);
            ResolveAgentContext(userInput2, None, None, None, c, newAuth2) == c
  {
  }
}
