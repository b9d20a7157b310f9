/** The secret tools of the Key Vault specialist
    (DAPEAgent/azure/keyvault/key_vault_agent.py; DAPEAgent/keyvault/ holds
    the same file). Each call into the `AzureKeyVault` helper is a parameter
    holding how it ends; each tool returns the context after it ran, the
    helper calls it made, and its text. */
module KeyVault {
  import opened Wrappers
  import opened Text
  import opened AzureConfig
  import opened ServiceAccess

  datatype Call = ListSecretsCall | GetSecretCall(name: string) | SetSecretCall(name: string, value: string)

  datatype Run = Run(context: Option<AzureCtx>, calls: seq<Call>, text: string)

  const ListError := "Error listing secrets: "

  function GetError(name: string): string
  {
    "Error getting secret " + Quoted(name) + ": "
  }

  function SetError(name: string): string
  {
    "Error setting secret " + Quoted(name) + ": "
  }

  /** `list_secrets()`: the helper's list rendered as JSON text, or the error. */
  function ListSecrets(context: Option<AzureCtx>, newAuth: AuthRef, construct: Result<(), string>,
                       listed: Result<string, string>): (r: Run)
    ensures r.context == Acquire(context, newAuth, construct).context
    ensures Acquire(context, newAuth, construct).service.Failure? ==>
      r.calls == [] && r.text == ListError + Acquire(context, newAuth, construct).service.error
    ensures Acquire(context, newAuth, construct).service.Success? ==>
      && r.calls == [ListSecretsCall]
      && r.text == (if listed.Success? then listed.value else ListError + listed.error)
  {
    var access := Acquire(context, newAuth, construct);
    var calls := if access.service.Success? then [ListSecretsCall] else [];
    Run(access.context, calls, Report(ListError, AndThen(access.service, listed)))
  }

  function RetrievedText(name: string, value: Option<string>): string
  {
    "Successfully retrieved secret " + Quoted(name) + ": " + PyStr(value)
  }

  /** `get_secret(secret_name)`; the helper's value may be `None`. */
  function GetSecret(context: Option<AzureCtx>, newAuth: AuthRef, construct: Result<(), string>,
                     name: string, value: Result<Option<string>, string>): (r: Run)
    ensures r.context == Acquire(context, newAuth, construct).context
    ensures Acquire(context, newAuth, construct).service.Failure? ==>
      r.calls == [] && r.text == GetError(name) + Acquire(context, newAuth, construct).service.error
    ensures Acquire(context, newAuth, construct).service.Success? ==>
      && r.calls == [GetSecretCall(name)]
      && r.text == (if value.Success? then RetrievedText(name, value.value) else GetError(name) + value.error)
  {
    var access := Acquire(context, newAuth, construct);
    var calls := if access.service.Success? then [GetSecretCall(name)] else [];
    var outcome := match AndThen(access.service, value)
      case Failure(e) => Failure(e)
      case Success(v) => Success(RetrievedText(name, v));
    Run(access.context, calls, Report(GetError(name), outcome))
  }

  /** The retrieval report carries both the secret's name and its value. */
  lemma RetrievedTextCarriesNameAndValue(name: string, value: string)
    ensures Contains(RetrievedText(name, Some(value)), Quoted(name))
    ensures var t := RetrievedText(name, Some(value)); t[|t| - |value|..] == value
  {
    var head := "Successfully retrieved secret ";
    var t := RetrievedText(name, Some(value));
    assert t == head + Quoted(name) + (": " + value);
    assert t[|head|..|head| + |Quoted(name)|] == Quoted(name);
    assert PrefixAt(t, |head|, Quoted(name));
  }

  function StoredText(name: string, vault: Option<string>): string
  {
    "Successfully set secret " + Quoted(name) + " in Key Vault " + Quoted(PyStr(vault))
  }

  /** `set_secret(secret_name, secret_value)`: the value is handed to the
      helper unchanged, and the report names the vault by the context's
      `resource_name` ("None" when there is none). */
  function SetSecret(context: Option<AzureCtx>, newAuth: AuthRef, construct: Result<(), string>,
                     name: string, value: string, stored: Result<(), string>): (r: Run)
    ensures r.context == Acquire(context, newAuth, construct).context
    ensures Acquire(context, newAuth, construct).service.Failure? ==>
      r.calls == [] && r.text == SetError(name) + Acquire(context, newAuth, construct).service.error
    ensures Acquire(context, newAuth, construct).service.Success? ==>
      && r.calls == [SetSecretCall(name, value)]
      && r.text == (if stored.Success? then StoredText(name, context.value.resourceName) else SetError(name) + stored.error)
  {
    var access := Acquire(context, newAuth, construct);
    var calls := if access.service.Success? then [SetSecretCall(name, value)] else [];
    var outcome := match AndThen(access.service, stored)
      case Failure(e) => Failure(e)
      case Success(_) => Success(StoredText(name, access.context.value.resourceName));
    Run(access.context, calls, Report(SetError(name), outcome))
  }

  /** The secret's value never appears in the report of storing it, only
      the name and the vault: the stored text is the same whatever value was
      stored. */
  lemma SetSecretHidesValue(context: Option<AzureCtx>, newAuth: AuthRef, construct: Result<(), string>,
                            name: string, v1: string, v2: string, stored: Result<(), string>)
    ensures SetSecret(context, newAuth, construct, name, v1, stored).text
         == SetSecret(context, newAuth, construct, name, v2, stored).text
  {
  }

  /** Every failure report names the operation, and those of `get_secret`
      and `set_secret` name the secret, ahead of the exception's text. */
  lemma ErrorReportsNameSecret(name: string, e: string)
    ensures (GetError(name) + e)[..|GetError(name)|] == GetError(name)
    ensures Contains(GetError(name) + e, Quoted(name))
    ensures Contains(SetError(name) + e, Quoted(name))
  {
    var g, s := "Error getting secret ", "Error setting secret ";
    assert GetError(name) + e == g + Quoted(name) + (": " + e);
    assert (g + Quoted(name) + (": " + e))[|g|..|g| + |Quoted(name)|] == Quoted(name);
    assert PrefixAt(GetError(name) + e, |g|, Quoted(name));
    assert SetError(name) + e == s + Quoted(name) + (": " + e);
    assert (s + Quoted(name) + (": " + e))[|s|..|s| + |Quoted(name)|] == Quoted(name);
    assert PrefixAt(SetError(name) + e, |s|, Quoted(name));
  }
}
