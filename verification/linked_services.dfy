/** The linked-service tools. Three copies share one text: the
    context-based tools of DAPEAgent/azure/adf/linked_services_agent.py, the
    handler-based tools of DAPEAgent/adf/linked_services_agent.py and the
    module-level tools of end-to-end/adf_agent.py. They differ only in how
    the `ADFLinkedServices` helper is obtained, so the shared part of each
    tool (a `Step`) takes that outcome as `service`; the context-based
    tools obtain it with `Acquire`. Each call on the helper is a parameter
    holding how it ends, and each tool records the calls it made. */
module LinkedServices {
  import opened Wrappers
  import opened Text
  import opened AzureConfig
  import opened ServiceAccess
  import AgentBuilder

  /** A call made on the helper, with the arguments it receives. */
  datatype Call =
    | ListCall(filterByType: Option<string>)
    | DetailsCall(name: string)
    | UpdateCall(name: string, oldFqdn: string, newFqdn: string, dryRun: bool)
    | TestCall(name: string)

  /** The helper calls a tool made, in order, and its text. */
  datatype Step = Step(calls: seq<Call>, text: string)

  /** A context-based tool's run: the context after it, its calls, its text. */
  datatype Run = Run(context: Option<AzureCtx>, calls: seq<Call>, text: string)

  const ListError := "Error listing linked services: "
  const DetailsError := "Error getting linked service details: "
  const UpdateError := "Error updating linked service: "
  const TestError := "Error testing linked service connection: "

  /** The text of the `IndexError` raised by `[][0]`. */
  const EmptyErrorsText := "list index out of range"
  const UnknownError := "Unknown error"

  /** The shared part of `list_linked_services(filter_by_type)`: one list
      call with the filter, then the helper's list (rendered as JSON text),
      or the error. */
  function ListStep<H>(service: Result<H, string>, listed: Result<string, string>, filterByType: Option<string>): (r: Step)
    ensures service.Failure? ==> r == Step([], ListError + service.error)
    ensures service.Success? ==> r.calls == [ListCall(filterByType)]
    ensures service.Success? && listed.Success? ==> r.text == listed.value
    ensures service.Success? && listed.Failure? ==> r.text == ListError + listed.error
  {
    Step(if service.Success? then [ListCall(filterByType)] else [], Report(ListError, AndThen(service, listed)))
  }

  /** `list_linked_services(ctx, filter_by_type=None)`. */
  function ListLinkedServices(context: Option<AzureCtx>, newAuth: AuthRef, construct: Result<(), string>,
                              listed: Result<string, string>, filterByType: Option<string> := None): (r: Run)
    ensures r.context == Acquire(context, newAuth, construct).context
    ensures Acquire(context, newAuth, construct).service.Failure? ==>
      r.calls == [] && r.text == ListError + Acquire(context, newAuth, construct).service.error
    ensures Acquire(context, newAuth, construct).service.Success? ==>
      && r.calls == [ListCall(filterByType)]
      && r.text == (if listed.Success? then listed.value else ListError + listed.error)
  {
    var access := Acquire(context, newAuth, construct);
    var step := ListStep(access.service, listed, filterByType);
    Run(access.context, step.calls, step.text)
  }

  /** The shared part of `get_linked_service_details(linked_service_name)`. */
  function DetailsStep<H>(service: Result<H, string>, name: string, details: Result<string, string>): (r: Step)
    ensures service.Failure? ==> r == Step([], DetailsError + service.error)
    ensures service.Success? ==> r.calls == [DetailsCall(name)]
    ensures service.Success? && details.Success? ==> r.text == details.value
    ensures service.Success? && details.Failure? ==> r.text == DetailsError + details.error
  {
    Step(if service.Success? then [DetailsCall(name)] else [], Report(DetailsError, AndThen(service, details)))
  }

  /** `get_linked_service_details(ctx, linked_service_name)`. */
  function GetLinkedServiceDetails(context: Option<AzureCtx>, newAuth: AuthRef, construct: Result<(), string>,
                                   name: string, details: Result<string, string>): (r: Run)
    ensures r.context == Acquire(context, newAuth, construct).context
    ensures Acquire(context, newAuth, construct).service.Failure? ==>
      r.calls == [] && r.text == DetailsError + Acquire(context, newAuth, construct).service.error
    ensures Acquire(context, newAuth, construct).service.Success? ==>
      && r.calls == [DetailsCall(name)]
      && r.text == (if details.Success? then details.value else DetailsError + details.error)
  {
    var access := Acquire(context, newAuth, construct);
    var step := DetailsStep(access.service, name, details);
    Run(access.context, step.calls, step.text)
  }

  /** The report of an update: which one is chosen by `dry_run` alone. */
  function UpdateText(name: string, oldFqdn: string, newFqdn: string, dryRun: bool): string
  {
    var change := " linked service " + Quoted(name) + " from " + Quoted(oldFqdn) + " to " + Quoted(newFqdn);
    if dryRun then "Dry run completed. Would update" + change else "Successfully updated" + change
  }

  /** The shared part of `update_linked_service_sf_account(…, dry_run)`:
      one update call with all four arguments; `updated` is how it ends,
      its value the result it returns. */
  function UpdateStep<H>(service: Result<H, string>, name: string, oldFqdn: string, newFqdn: string,
                         updated: Result<string, string>, dryRun: bool): (r: Step)
    ensures service.Failure? ==> r == Step([], UpdateError + service.error)
    ensures service.Success? ==> r.calls == [UpdateCall(name, oldFqdn, newFqdn, dryRun)]
    ensures service.Success? && updated.Failure? ==> r.text == UpdateError + updated.error
    ensures service.Success? && updated.Success? ==> r.text == UpdateText(name, oldFqdn, newFqdn, dryRun)
  {
    var outcome := match AndThen(service, updated)
      case Failure(e) => Failure(e)
      case Success(_) => Success(UpdateText(name, oldFqdn, newFqdn, dryRun));
    Step(if service.Success? then [UpdateCall(name, oldFqdn, newFqdn, dryRun)] else [], Report(UpdateError, outcome))
  }

  /** `update_linked_service_sf_account(ctx, …, dry_run=True)`. */
  function UpdateLinkedService(context: Option<AzureCtx>, newAuth: AuthRef, construct: Result<(), string>,
                               name: string, oldFqdn: string, newFqdn: string,
                               updated: Result<string, string>, dryRun: bool := true): (r: Run)
    ensures r.context == Acquire(context, newAuth, construct).context
    ensures Acquire(context, newAuth, construct).service.Failure? ==>
      r.calls == [] && r.text == UpdateError + Acquire(context, newAuth, construct).service.error
    ensures Acquire(context, newAuth, construct).service.Success? ==>
      && r.calls == [UpdateCall(name, oldFqdn, newFqdn, dryRun)]
      && r.text == (if updated.Success? then UpdateText(name, oldFqdn, newFqdn, dryRun) else UpdateError + updated.error)
  {
    var access := Acquire(context, newAuth, construct);
    var step := UpdateStep(access.service, name, oldFqdn, newFqdn, updated, dryRun);
    Run(access.context, step.calls, step.text)
  }

  /** The report tells what the helper was asked to do: after a completed
      update, the report says "Dry run" exactly when the helper's call
      carried `dry_run=True`. */
  lemma UpdateReportMatchesRequest(context: Option<AzureCtx>, newAuth: AuthRef, construct: Result<(), string>,
                                   name: string, oldFqdn: string, newFqdn: string, result: string, dryRun: bool)
    requires Acquire(context, newAuth, construct).service.Success?
    ensures var r := UpdateLinkedService(context, newAuth, construct, name, oldFqdn, newFqdn, Success(result), dryRun);
      && |r.calls| == 1 && r.calls[0].UpdateCall?
      && (r.text[..3] == "Dry" <==> r.calls[0].dryRun)
      && (r.text[..3] == "Suc" <==> !r.calls[0].dryRun)
  {
    UpdateDependsOnlyOnDryRun(Acquire(context, newAuth, construct).service, name, oldFqdn, newFqdn, result, result, dryRun);
  }

  /** The update report ignores what the helper returned, and tells a dry
      run from a real update by its first word. */
  lemma UpdateDependsOnlyOnDryRun<H>(service: Result<H, string>, name: string, oldFqdn: string, newFqdn: string,
                                     result1: string, result2: string, dryRun: bool)
    requires service.Success?
    ensures UpdateStep(service, name, oldFqdn, newFqdn, Success(result1), dryRun)
         == UpdateStep(service, name, oldFqdn, newFqdn, Success(result2), dryRun)
    ensures UpdateText(name, oldFqdn, newFqdn, true)[..3] == "Dry"
    ensures UpdateText(name, oldFqdn, newFqdn, false)[..3] == "Suc"
    ensures UpdateText(name, oldFqdn, newFqdn, true) != UpdateText(name, oldFqdn, newFqdn, false)
  {
    var change := " linked service " + Quoted(name) + " from " + Quoted(oldFqdn) + " to " + Quoted(newFqdn);
    assert UpdateText(name, oldFqdn, newFqdn, true) == "Dry run completed. Would update" + change;
    assert UpdateText(name, oldFqdn, newFqdn, false) == "Successfully updated" + change;
    assert UpdateText(name, oldFqdn, newFqdn, true)[0] != UpdateText(name, oldFqdn, newFqdn, false)[0];
  }

  /** One element of the `errors` list; `message` is absent when the dict
      has no such key. */
  datatype ErrorDetail = ErrorDetail(message: Option<string>)

  /** The dict the connection test returns: `succeeded` (absent counts as
      false) and `errors`, absent when the dict has no such key. */
  datatype TestResult = TestResult(succeeded: bool, errors: Option<seq<ErrorDetail>>)

  /** `test_result.get("errors", [{}])[0].get("message", "Unknown error")`. */
  function FailureReason(t: TestResult): (r: Result<string, string>)
  {
    match t.errors
    case None => Success(UnknownError)
    case Some(es) =>
      if |es| == 0 then Failure(EmptyErrorsText)
      else Success(es[0].message.GetOr(UnknownError))
  }

  /** The reason given for a failed test: "Unknown error" exactly when
      there is no `errors` key or the first error has no message (or says
      so itself); the first error's message otherwise; an empty `errors`
      list raises instead of giving a reason. */
  lemma FailureReasonCases(t: TestResult)
    ensures FailureReason(t).Failure? <==> t.errors == Some([])
    ensures FailureReason(t).Failure? ==> FailureReason(t).error == EmptyErrorsText
    ensures FailureReason(t) == Success(UnknownError) <==>
      || t.errors.None?
      || (t.errors.Some? && |t.errors.value| > 0 && t.errors.value[0].message in {None, Some(UnknownError)})
    ensures t.errors.Some? && |t.errors.value| > 0 && t.errors.value[0].message.Some? ==>
      FailureReason(t) == Success(t.errors.value[0].message.value)
  {
  }

  function SuccessText(name: string): string
  {
    "Connection test successful for linked service " + Quoted(name)
  }

  function FailedText(name: string, reason: string): string
  {
    "Connection test failed for linked service " + Quoted(name) + ": " + reason
  }

  /** The report of a connection test the helper answered. */
  function TestOutcome(name: string, t: TestResult): Result<string, string>
  {
    if t.succeeded then Success(SuccessText(name))
    else match FailureReason(t)
      case Failure(e) => Failure(e)
      case Success(reason) => Success(FailedText(name, reason))
  }

  /** The shared part of `test_linked_service_connection(linked_service_name)`. */
  function TestStep<H>(service: Result<H, string>, name: string, tested: Result<TestResult, string>): (r: Step)
    ensures service.Failure? ==> r == Step([], TestError + service.error)
    ensures service.Success? ==> r.calls == [TestCall(name)]
    ensures service.Success? && tested.Failure? ==> r.text == TestError + tested.error
    ensures service.Success? && tested.Success? && tested.value.succeeded ==> r.text == SuccessText(name)
    ensures service.Success? && tested.Success? && !tested.value.succeeded ==>
      r.text == match FailureReason(tested.value)
                case Success(reason) => FailedText(name, reason)
                case Failure(e) => TestError + e
  {
    var outcome := match AndThen(service, tested)
      case Failure(e) => Failure(e)
      case Success(t) => TestOutcome(name, t);
    Step(if service.Success? then [TestCall(name)] else [], Report(TestError, outcome))
  }

  /** `test_linked_service_connection(ctx, linked_service_name)`. */
  function TestLinkedServiceConnection(context: Option<AzureCtx>, newAuth: AuthRef, construct: Result<(), string>,
                                       name: string, tested: Result<TestResult, string>): (r: Run)
    ensures r.context == Acquire(context, newAuth, construct).context
    ensures Acquire(context, newAuth, construct).service.Failure? ==>
      r.calls == [] && r.text == TestError + Acquire(context, newAuth, construct).service.error
    ensures Acquire(context, newAuth, construct).service.Success? ==> r.calls == [TestCall(name)]
    ensures Acquire(context, newAuth, construct).service.Success? && tested.Failure? ==>
      r.text == TestError + tested.error
    ensures Acquire(context, newAuth, construct).service.Success? && tested.Success? && tested.value.succeeded ==>
      r.text == SuccessText(name)
    ensures Acquire(context, newAuth, construct).service.Success? && tested.Success? && !tested.value.succeeded ==>
      r.text == match FailureReason(tested.value)
                case Success(reason) => FailedText(name, reason)
                case Failure(e) => TestError + e
  {
    var access := Acquire(context, newAuth, construct);
    var step := TestStep(access.service, name, tested);
    Run(access.context, step.calls, step.text)
  }

  /** The three kinds of report can be told apart: a passed test, a failed
      one, and an exception differ in their leading text. */
  lemma TestReportsDistinct(name: string, reason: string, e: string)
    ensures SuccessText(name)[..16] == FailedText(name, reason)[..16] == "Connection test "
    ensures SuccessText(name)[16] == 's' && FailedText(name, reason)[16] == 'f'
    ensures (TestError + e)[0] == 'E'
  {
    PassedLead(name);
    FailedLead(name, reason);
    var passed, failed := SuccessText(name), FailedText(name, reason);
    assert passed[..16] == passed[..17][..16] && passed[16] == passed[..17][16];
    assert failed[..16] == failed[..17][..16] && failed[16] == failed[..17][16];
    assert (TestError + e)[0] == TestError[0] == 'E';
  }

  /** The first characters of the passed report. */
  lemma PassedLead(name: string)
    ensures SuccessText(name)[..17] == "Connection test s"
  {
    var passed := "Connection test successful for linked service ";
    assert SuccessText(name) == passed + Quoted(name);
    SamePrefix(passed, Quoted(name), 17);
    assert passed[..17] == "Connection test s";
  }

  /** The first characters of the failed report. */
  lemma FailedLead(name: string, reason: string)
    ensures FailedText(name, reason)[..17] == "Connection test f"
  {
    var failed := "Connection test failed for linked service ";
    var quoted := Quoted(name);
    assert FailedText(name, reason) == failed + quoted + ": " + reason;
    SamePrefix(failed, quoted, 17);
    SamePrefix(failed + quoted, ": ", 17);
    SamePrefix(failed + quoted + ": ", reason, 17);
    assert failed[..17] == "Connection test f";
  }

  /** Appending leaves the first `n` characters as they were. */
  lemma SamePrefix(a: string, b: string, n: nat)
    requires n <= |a|
    ensures (a + b)[..n] == a[..n]
  {
  }

  /** A test that does not pass never reports success, and a test whose
      errors list is empty ends in the exception report. */
  lemma EmptyErrorsRaise<H>(service: Result<H, string>, name: string, succeeded: bool)
    requires service.Success?
    ensures !succeeded ==> TestStep(service, name, Success(TestResult(succeeded, Some([])))).text
                           == TestError + EmptyErrorsText
    ensures succeeded ==> TestStep(service, name, Success(TestResult(succeeded, Some([])))).text
                          == SuccessText(name)
  {
  }

  /** `os.getenv(key, default)`. */
  function GetEnv(env: map<string, string>, key: string, default: string): string
  {
    if key in env then env[key] else default
  }

  /** The helper end-to-end/adf_agent.py builds once at import: resource
      group and factory from the environment (defaults "SQL-RG" and
      "adf-stanley"), no subscription and no shared credential. */
  function EndToEndService(env: map<string, string>): (h: Handle)
    ensures h.subscriptionId.None? && h.auth.None?
    ensures "ADF_RESOURCE_GROUP" !in env ==> h.resourceGroupName == Some("SQL-RG")
    ensures "ADF_FACTORY_NAME" !in env ==> h.resourceName == Some("adf-stanley")
    ensures "ADF_RESOURCE_GROUP" in env ==> h.resourceGroupName == Some(env["ADF_RESOURCE_GROUP"])
    ensures "ADF_FACTORY_NAME" in env ==> h.resourceName == Some(env["ADF_FACTORY_NAME"])
  {
    Handle(None, Some(GetEnv(env, "ADF_RESOURCE_GROUP", "SQL-RG")), Some(GetEnv(env, "ADF_FACTORY_NAME", "adf-stanley")), None)
  }

  /** The prompt file's keys `get_agent` reads. */
  datatype AgentConfig = AgentConfig(instructions: string, model: string, client: AgentBuilder.Client)

  /** `get_agent()` of DAPEAgent/adf/linked_services_agent.py: both keys are
      read by subscript (a missing one raises `KeyError` naming it, the
      first first), then the shared client is requested for that model. */
  function GetAgent(config: map<string, string>, g: AgentBuilder.Globals, s: AgentBuilder.Settings): (r: Result<(AgentBuilder.Globals, AgentConfig), string>)
    ensures "system_prompt" !in config ==> r == Failure("'system_prompt'")
    ensures "system_prompt" in config && "model" !in config ==> r == Failure("'model'")
    ensures "system_prompt" in config && "model" in config ==>
      && r.Success?
      && r.value.1.instructions == config["system_prompt"]
      && r.value.1.model == config["model"]
      && r.value == (AgentBuilder.BuildClient(g, s, Some(config["model"])).globals,
                     AgentConfig(config["system_prompt"], config["model"], AgentBuilder.BuildClient(g, s, Some(config["model"])).client))
  {
    if "system_prompt" !in config then Failure("'system_prompt'")
    else if "model" !in config then Failure("'model'")
    else
      var built := AgentBuilder.BuildClient(g, s, Some(config["model"]));
      Success((built.globals, AgentConfig(config["system_prompt"], config["model"], built.client)))
  }

  /** The prompt's model reaches the client only when `get_agent` is the
      first to build it: otherwise the existing client is used whatever the
      prompt says. */
  lemma AgentModelOnlyOnFirstBuild(config: map<string, string>, g: AgentBuilder.Globals, s: AgentBuilder.Settings)
    requires "system_prompt" in config && "model" in config
    ensures g.client.Some? ==> GetAgent(config, g, s).value.1.client == g.client.value
    ensures g.client.None? && config["model"] != "" ==> GetAgent(config, g, s).value.1.client.deployment == config["model"]
    ensures g.client.None? && config["model"] == "" ==> GetAgent(config, g, s).value.1.client.deployment == s.deployment
  {
  }
}
