/** `run_and_fetch`, the one tool of the ADF pipelines specialist
    (DAPEAgent/azure/adf/pipelines_agent.py). The pipeline parameters are
    of any type `P`: the tool hands them on without looking at them. */
module Pipelines {
  import opened Wrappers
  import opened AzureConfig
  import opened ServiceAccess

  /** What `ADFPipeline.run_and_fetch` is called with. */
  datatype RunCall<P> = RunCall(pipeline: string, activity: Option<string>, parameters: Option<P>)

  datatype Run<P> = Run(context: Option<AzureCtx>, calls: seq<RunCall<P>>, text: string)

  const RunError := "Error in run_and_fetch operation: "

  /** `run_and_fetch(pipeline_name, activity_name=None, parameters=None)`;
      `results` is how the helper's call ends, its value the results
      rendered as JSON text. */
  function RunAndFetch<P>(context: Option<AzureCtx>, newAuth: AuthRef, construct: Result<(), string>,
                          pipeline: string, results: Result<string, string>,
                          activity: Option<string> := None, parameters: Option<P> := None): (r: Run<P>)
    ensures r.context == Acquire(context, newAuth, construct).context
    ensures Acquire(context, newAuth, construct).service.Failure? ==>
      r.calls == [] && r.text == RunError + Acquire(context, newAuth, construct).service.error
    ensures Acquire(context, newAuth, construct).service.Success? ==>
      && r.calls == [RunCall(pipeline, activity, parameters)]
      && r.text == (if results.Success? then results.value else RunError + results.error)
  {
    var access := Acquire(context, newAuth, construct);
    var calls := if access.service.Success? then [RunCall(pipeline, activity, parameters)] else [];
    Run(access.context, calls, Report(RunError, AndThen(access.service, results)))
  }

  /** Over all inputs: the helper is called at most once, and only when it
      was built; the text is the helper's results exactly when that call
      completed, and otherwise starts with the run-error prefix. */
  lemma RunReportsOutcome<P>(context: Option<AzureCtx>, newAuth: AuthRef, construct: Result<(), string>,
                             pipeline: string, results: Result<string, string>,
                             activity: Option<string>, parameters: Option<P>)
    ensures var r := RunAndFetch(context, newAuth, construct, pipeline, results, activity, parameters);
      && |r.calls| <= 1
      && (|r.calls| == 1 <==> Acquire(context, newAuth, construct).service.Success?)
      && (Acquire(context, newAuth, construct).service.Success? && results.Success? ==> r.text == results.value)
      && (Acquire(context, newAuth, construct).service.Failure? || results.Failure? ==>
            |r.text| >= |RunError| && r.text[..|RunError|] == RunError)
  {
    var r := RunAndFetch(context, newAuth, construct, pipeline, results, activity, parameters);
    var access := Acquire(context, newAuth, construct);
    if access.service.Failure? {
      assert r.text == RunError + access.service.error;
    } else if results.Failure? {
      assert r.text == RunError + results.error;
    }
  }

  /** Left out, the activity and the parameters reach the helper as
      `None`; a run without a context reports the missing attribute and
      calls nothing. */
  lemma RunAndFetchDefaults<P>(context: AzureCtx, newAuth: AuthRef, pipeline: string, results: Result<string, string>,
                               ps: P, construct: Result<(), string>)
    ensures RunAndFetch<P>(Some(context), newAuth, Success(()), pipeline, results).calls == [RunCall(pipeline, None, None)]
    ensures RunAndFetch(Some(context), newAuth, Success(()), pipeline, results, Some("copy"), Some(ps)).calls
         == [RunCall(pipeline, Some("copy"), Some(ps))]
    ensures RunAndFetch<P>(None, newAuth, construct, pipeline, results) == Run(None, [], RunError + NoContextError)
  {
  }
}
