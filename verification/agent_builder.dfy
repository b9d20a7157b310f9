/** `_build_client` of DAPEAgent/agent_builder.py: the process-wide Azure
    OpenAI client, created on the first call and returned by every later one,
    and the tracing registrations made when it is created. The settings are
    plain parameters; the process globals are a value threaded through. */
module AgentBuilder {
  import opened Wrappers
  import opened AzureConfig

  /** The settings `_build_client` reads. */
  datatype Settings = Settings(
    apiKey: string,
    apiVersion: string,
    endpoint: string,
    deployment: string,
    openaiApiKey: Option<string>)

  /** An `AsyncAzureOpenAI` client, known by how it was configured. */
  datatype Client = Client(apiKey: string, apiVersion: string, endpoint: string, deployment: string)

  /** The module global `_openai_client` and the state of the `agents`
      library that the creating call configures. */
  datatype Globals = Globals(
    client: Option<Client>,
    defaultClient: Option<Client>,
    traceExportKey: Option<string>,
    tracingDisabled: Option<bool>)

  /** At import: no client, nothing registered. */
  function InitialGlobals(): Globals
  {
    Globals(None, None, None, None)
  }

  datatype Built = Built(globals: Globals, client: Client)

  /** `_build_client(azure_deployment)`. */
  function BuildClient(g: Globals, s: Settings, azureDeployment: Option<string>): (r: Built)
    ensures g.client.Some? ==> r == Built(g, g.client.value)
    ensures g.client.None? ==>
      && r.client == Client(s.apiKey, s.apiVersion, s.endpoint,
                            if Truthy(azureDeployment) then azureDeployment.value else s.deployment)
      && r.globals.client == Some(r.client)
      && r.globals.tracingDisabled == Some(false)
      && (s.openaiApiKey.None? ==>
            r.globals.defaultClient == g.defaultClient && r.globals.traceExportKey == g.traceExportKey)
      && (s.openaiApiKey.Some? ==>
            r.globals.defaultClient == Some(r.client) && r.globals.traceExportKey == s.openaiApiKey)
  {
    if g.client.None? then
      // `azure_deployment or settings.az_openai_deployment`
      var deployment := if Truthy(azureDeployment) then azureDeployment.value else s.deployment;
      var c := Client(s.apiKey, s.apiVersion, s.endpoint, deployment);
      var g1 := g.(client := Some(c));
      var g2 := if s.openaiApiKey.None? then g1.(tracingDisabled := Some(false))
                else g1.(defaultClient := Some(c), traceExportKey := s.openaiApiKey, tracingDisabled := Some(false));
      Built(g2, c)
    else
      Built(g, g.client.value)
  }

  /** What reading `settings.openai_api_key` raises when the settings
      class does not declare that field, as in DAPEAgent/config.py. */
  const MissingKeyError := "'Settings' object has no attribute 'openai_api_key'"

  /** One call and how it ends. */
  datatype Attempt = Attempt(globals: Globals, result: Result<Client, string>)

  /** `_build_client` as written against the settings of
      DAPEAgent/config.py, which lack `openai_api_key`: the creating call
      stores the client, then raises on that attribute before any tracing
      registration; a later call finds the client and returns it. */
  function BuildClientAsWritten(g: Globals, s: Settings, azureDeployment: Option<string>): (r: Attempt)
    ensures g.client.Some? ==> r == Attempt(g, Success(g.client.value))
    ensures g.client.None? ==> r.result == Failure(MissingKeyError)
    ensures g.client.None? ==> r.globals == g.(client := Some(BuildClient(g, s, azureDeployment).client))
  {
    if g.client.None? then
      var deployment := if Truthy(azureDeployment) then azureDeployment.value else s.deployment;
      Attempt(g.(client := Some(Client(s.apiKey, s.apiVersion, s.endpoint, deployment))), Failure(MissingKeyError))
    else
      Attempt(g, Success(g.client.value))
  }

  /** As written, the first agent built in a process fails, the second
      gets the half-configured client, and tracing is never set up; with
      the key declared, the first call already returns that client and
      configures tracing. */
  lemma FirstBuildRaises(s: Settings, d1: Option<string>, d2: Option<string>)
    ensures var first := BuildClientAsWritten(InitialGlobals(), s, d1);
      var second := BuildClientAsWritten(first.globals, s, d2);
      && first.result == Failure(MissingKeyError)
      && second.result == Success(BuildClient(InitialGlobals(), s, d1).client)
      && second.globals.tracingDisabled.None?
    ensures BuildClient(InitialGlobals(), s, d1).globals.tracingDisabled == Some(false)
  {
  }

  /** The clients returned by a series of calls, one per requested
      deployment, and the globals after them. */
  function BuildAll(g: Globals, s: Settings, deployments: seq<Option<string>>): (r: (Globals, seq<Client>))
    ensures |r.1| == |deployments|
    ensures g.client.Some? ==> forall i :: 0 <= i < |r.1| ==> r.1[i] == g.client.value
    ensures forall i :: 0 <= i < |r.1| ==> r.1[i] == r.1[0]
    decreases |deployments|
  {
    if |deployments| == 0 then (g, [])
    else
      var b := BuildClient(g, s, deployments[0]);
      var rest := BuildAll(b.globals, s, deployments[1..]);
      (rest.0, [b.client] + rest.1)
  }

  /** Once a client exists every later call returns it and changes nothing,
      whatever deployment it asks for. */
  lemma {:induction false} LaterCallsReuseClient(g: Globals, s: Settings, deployments: seq<Option<string>>)
    requires g.client.Some?
    ensures BuildAll(g, s, deployments).0 == g
    ensures forall i :: 0 <= i < |deployments| ==> BuildAll(g, s, deployments).1[i] == g.client.value
    decreases |deployments|
  {
    if |deployments| > 0 {
      LaterCallsReuseClient(g, s, deployments[1..]);
    }
  }

  /** Over a whole process every call returns the client the first call
      created, configured with the first call's deployment (or the settings'
      deployment when the first call passed none). */
  lemma SingletonForProcess(s: Settings, deployments: seq<Option<string>>)
    requires |deployments| >= 1
    ensures var clients := BuildAll(InitialGlobals(), s, deployments).1;
      && clients[0].deployment == (if Truthy(deployments[0]) then deployments[0].value else s.deployment)
      && forall i :: 0 <= i < |clients| ==> clients[i] == clients[0]
  {
    var b := BuildClient(InitialGlobals(), s, deployments[0]);
    LaterCallsReuseClient(b.globals, s, deployments[1..]);
  }
}
