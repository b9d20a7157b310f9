/** The tools of the ADF integration-runtime specialist
    (DAPEAgent/azure/adf/integration_runtime_agent.py). Each call into the
    `ADFIntegrationRuntime` helper is a parameter holding how that call ends;
    each tool returns the context after it ran, the helper calls it made in
    order, and its text. */
module IntegrationRuntime {
  import opened Wrappers
  import opened Text
  import opened AzureConfig
  import opened ServiceAccess

  /** `minutes` when the model does not pass one. */
  const DefaultMinutes := 10

  const ManagedType := "Managed"

  /** A call made on the helper. */
  datatype Call = GetIr(name: string) | GetStatus(name: string) | GetType(name: string) | Enable(name: string, minutes: int)

  datatype Run = Run(context: Option<AzureCtx>, calls: seq<Call>, text: string)

  const DetailsError := "Error getting integration runtime details: "
  const StatusError := "Error getting integration runtime status: "
  const TypeLookupError := "Error getting integration runtime type: "
  const EnableError := "Error enabling interactive authoring: "

  /** `get_ir_details`: the details the helper returns (already rendered
      as JSON text), or the error. */
  function GetIrDetails(context: Option<AzureCtx>, newAuth: AuthRef, construct: Result<(), string>,
                        name: string, details: Result<string, string>): (r: Run)
    ensures r.context == Acquire(context, newAuth, construct).context
    ensures Acquire(context, newAuth, construct).service.Failure? ==>
      r.calls == [] && r.text == DetailsError + Acquire(context, newAuth, construct).service.error
    ensures Acquire(context, newAuth, construct).service.Success? ==>
      && r.calls == [GetIr(name)]
      && r.text == (if details.Success? then details.value else DetailsError + details.error)
  {
    var access := Acquire(context, newAuth, construct);
    var calls := if access.service.Success? then [GetIr(name)] else [];
    Run(access.context, calls, Report(DetailsError, AndThen(access.service, details)))
  }

  /** The status sentence: "enabled" for a true status, else "disabled". */
  function StatusText(name: string, enabled: bool): string
  {
    "Interactive authoring for integration runtime " + Quoted(name) + " is " + (if enabled then "enabled" else "disabled")
  }

  /** `get_ir_status`. */
  function GetIrStatus(context: Option<AzureCtx>, newAuth: AuthRef, construct: Result<(), string>,
                       name: string, status: Result<bool, string>): (r: Run)
    ensures r.context == Acquire(context, newAuth, construct).context
    ensures Acquire(context, newAuth, construct).service.Failure? ==>
      r.calls == [] && r.text == StatusError + Acquire(context, newAuth, construct).service.error
    ensures Acquire(context, newAuth, construct).service.Success? ==>
      && r.calls == [GetStatus(name)]
      && r.text == (if status.Success? then StatusText(name, status.value) else StatusError + status.error)
  {
    var access := Acquire(context, newAuth, construct);
    var calls := if access.service.Success? then [GetStatus(name)] else [];
    var outcome := match AndThen(access.service, status)
      case Failure(e) => Failure(e)
      case Success(enabled) => Success(StatusText(name, enabled));
    Run(access.context, calls, Report(StatusError, outcome))
  }

  /** The status sentence says which of the two states was reported, and the
      two sentences for one runtime differ only in that word. */
  lemma StatusTextNamesState(name: string, enabled: bool)
    ensures var prefix := "Interactive authoring for integration runtime " + Quoted(name) + " is ";
      && StatusText(name, enabled)[..|prefix|] == prefix
      && (StatusText(name, enabled)[|prefix|..] == "enabled" <==> enabled)
      && (StatusText(name, enabled)[|prefix|..] == "disabled" <==> !enabled)
  {
    var prefix := "Interactive authoring for integration runtime " + Quoted(name) + " is ";
    assert StatusText(name, enabled) == prefix + (if enabled then "enabled" else "disabled");
  }

  /** `get_ir_type`. */
  function GetIrType(context: Option<AzureCtx>, newAuth: AuthRef, construct: Result<(), string>,
                     name: string, irType: Result<string, string>): (r: Run)
    ensures r.context == Acquire(context, newAuth, construct).context
    ensures Acquire(context, newAuth, construct).service.Failure? ==>
      r.calls == [] && r.text == TypeLookupError + Acquire(context, newAuth, construct).service.error
    ensures Acquire(context, newAuth, construct).service.Success? ==>
      && r.calls == [GetType(name)]
      && r.text == (if irType.Success? then "Integration runtime " + Quoted(name) + " is of type: " + irType.value
                    else TypeLookupError + irType.error)
  {
    var access := Acquire(context, newAuth, construct);
    var calls := if access.service.Success? then [GetType(name)] else [];
    var outcome := match AndThen(access.service, irType)
      case Failure(e) => Failure(e)
      case Success(t) => Success("Integration runtime " + Quoted(name) + " is of type: " + t);
    Run(access.context, calls, Report(TypeLookupError, outcome))
  }

  function AlreadyEnabledText(name: string): string
  {
    "Interactive authoring is already enabled for integration runtime " + Quoted(name)
  }

  function NotManagedText(irType: string): string
  {
    "Interactive authoring is only supported for Managed integration runtimes. Current type: " + irType
  }

  function EnabledText(name: string, minutes: int): string
  {
    "Successfully enabled interactive authoring for integration runtime " + Quoted(name) + " for " + IntToString(minutes) + " minutes"
  }

  /** The guarded part of `enable_interactive_authoring`, once the helper
      exists: ask the status, then the type, then enable; stop at the first
      exception or the first guard that refuses. */
  function EnableSteps(name: string, minutes: int, status: Result<bool, string>, irType: Result<string, string>,
                       enable: Result<(), string>): (r: (seq<Call>, Result<string, string>))
    ensures |r.0| >= 1 && r.0[0] == GetStatus(name)
  {
    match status
    case Failure(e) => ([GetStatus(name)], Failure(e))
    case Success(true) => ([GetStatus(name)], Success(AlreadyEnabledText(name)))
    case Success(false) =>
      match irType
      case Failure(e) => ([GetStatus(name), GetType(name)], Failure(e))
      case Success(t) =>
        if t != ManagedType then ([GetStatus(name), GetType(name)], Success(NotManagedText(t)))
        else
          var calls := [GetStatus(name), GetType(name), Enable(name, minutes)];
          match enable
          case Failure(e) => (calls, Failure(e))
          case Success(_) => (calls, Success(EnabledText(name, minutes)))
  }

  /** `enable_interactive_authoring(ir_name, minutes=10)`. */
  function EnableInteractiveAuthoring(context: Option<AzureCtx>, newAuth: AuthRef, construct: Result<(), string>,
                                      name: string, status: Result<bool, string>, irType: Result<string, string>,
                                      enable: Result<(), string>, minutes: int := DefaultMinutes): (r: Run)
    ensures r.context == Acquire(context, newAuth, construct).context
    ensures Acquire(context, newAuth, construct).service.Failure? ==>
      r.calls == [] && r.text == EnableError + Acquire(context, newAuth, construct).service.error
    ensures Acquire(context, newAuth, construct).service.Success? ==>
      && r.calls == EnableSteps(name, minutes, status, irType, enable).0
      && r.text == Report(EnableError, EnableSteps(name, minutes, status, irType, enable).1)
  {
    var access := Acquire(context, newAuth, construct);
    match access.service
    case Failure(e) => Run(access.context, [], EnableError + e)
    case Success(_) =>
      var steps := EnableSteps(name, minutes, status, irType, enable);
      Run(access.context, steps.0, Report(EnableError, steps.1))
  }

  /** The guard order of `enable_interactive_authoring`: an enabled runtime
      is reported without asking its type or enabling it; a runtime of
      another type than "Managed" is refused, naming the type, without
      enabling; only a disabled Managed runtime is enabled, exactly once and
      for the requested minutes. */
  lemma EnableGuardOrder(name: string, minutes: int, status: Result<bool, string>, irType: Result<string, string>,
                         enable: Result<(), string>)
    ensures var r := EnableSteps(name, minutes, status, irType, enable);
      && (status == Success(true) ==> r == ([GetStatus(name)], Success(AlreadyEnabledText(name))))
      && (status == Success(false) && irType.Success? && irType.value != ManagedType ==>
            r == ([GetStatus(name), GetType(name)], Success(NotManagedText(irType.value))))
      && ((exists i :: 0 <= i < |r.0| && r.0[i].Enable?) <==> status == Success(false) && irType == Success(ManagedType))
      && (forall i :: 0 <= i < |r.0| && r.0[i].Enable? ==> i == |r.0| - 1 && r.0[i] == Enable(name, minutes))
      && (r.1.Success? && status == Success(false) && irType == Success(ManagedType) ==> r.1.value == EnabledText(name, minutes))
  {
    var r := EnableSteps(name, minutes, status, irType, enable);
    if status == Success(false) && irType == Success(ManagedType) {
      assert r.0[2].Enable?;
    }
  }

  /** An exception anywhere in `enable_interactive_authoring` is reported
      with the same prefix, carrying the exception's text. */
  lemma EnableErrorsReported(context: Option<AzureCtx>, newAuth: AuthRef, construct: Result<(), string>,
                             name: string, status: Result<bool, string>, irType: Result<string, string>,
                             enable: Result<(), string>, minutes: int)
    requires Acquire(context, newAuth, construct).service.Success?
    ensures status.Failure? ==>
      EnableInteractiveAuthoring(context, newAuth, construct, name, status, irType, enable, minutes).text == EnableError + status.error
    ensures status == Success(false) && irType.Failure? ==>
      EnableInteractiveAuthoring(context, newAuth, construct, name, status, irType, enable, minutes).text == EnableError + irType.error
    ensures status == Success(false) && irType == Success(ManagedType) && enable.Failure? ==>
      EnableInteractiveAuthoring(context, newAuth, construct, name, status, irType, enable, minutes).text == EnableError + enable.error
  {
  }

  /** The success report gives back the minutes requested: two different
      durations never produce the same report. */
  lemma EnabledTextKeepsMinutes(name: string, m1: int, m2: int)
    requires EnabledText(name, m1) == EnabledText(name, m2)
    ensures m1 == m2
  {
    var prefix := "Successfully enabled interactive authoring for integration runtime " + Quoted(name) + " for ";
    var suffix := " minutes";
    assert EnabledText(name, m1) == prefix + IntToString(m1) + suffix;
    assert EnabledText(name, m2) == prefix + IntToString(m2) + suffix;
    var t1, t2 := EnabledText(name, m1), EnabledText(name, m2);
    assert IntToString(m1) == t1[|prefix|..|t1| - |suffix|];
    assert IntToString(m2) == t2[|prefix|..|t2| - |suffix|];
    IntToStringInjective(m1, m2);
  }
}
