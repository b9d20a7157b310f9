/** The MCP tool filters: the exact allow-list shared by
    DAPEAgent/mcp/azure_mcp_agent.py and end-to-end/hook.py, the
    storage/kusto filter of DAPEAgent/azure/mcp/azure_mcp_agent.py, and
    `rg_only` of end-to-end/main-example.py. Each takes the filter context
    and a tool name; none reads the context. */
module ToolFilters {
  import opened Wrappers
  import opened Text

  /** The 29 tool names both allow-lists spell out, in their order. */
  const ListedTools: seq<string> := [
    "microsoft_docs_search",
    "azmcp-azureterraformbestpractices-get",
    "azmcp-bestpractices-get",
    "azmcp-bicepschema-get",
    "azmcp-cosmos-account-list",
    "azmcp-cosmos-database-container-item-query",
    "azmcp-cosmos-database-container-list",
    "azmcp-cosmos-database-list",
    "azmcp-foundry-models-deploy",
    "azmcp-foundry-models-deployments-list",
    "azmcp-foundry-models-list",
    "azmcp-group-list",
    "azmcp-kusto-cluster-get",
    "azmcp-kusto-cluster-list",
    "azmcp-kusto-database-list",
    "azmcp-kusto-query",
    "azmcp-kusto-sample",
    "azmcp-kusto-table-list",
    "azmcp-kusto-table-schema",
    "azmcp-monitor-healthmodels-entity-gethealth",
    "azmcp-monitor-metrics-definitions",
    "azmcp-monitor-metrics-query",
    "azmcp-monitor-resource-log-query",
    "azmcp-monitor-table-list",
    "azmcp-monitor-table-type-list",
    "azmcp-monitor-workspace-list",
    "azmcp-monitor-workspace-log-query",
    "azmcp-role-assignment-list",
    "azmcp-subscription-list"]

  /** `allow_tools` of the full Azure MCP agent: exact list membership. */
  predicate AllowListed<C>(ctx: C, name: string)
  {
    name in ListedTools
  }

  /** `allow_tools` of the storage/kusto agent. */
  predicate AllowStorageKusto<C>(ctx: C, name: string)
  {
    name in ["storage", "kusto"] || Contains(name, "-storage-")
  }

  /** `rg_only`. */
  predicate RgOnly<C>(ctx: C, name: string)
  {
    Contains(name, "-monitor-") || Contains(name, "-kusto-") || Contains(name, "-group-list")
  }

  /** The list holds 29 distinct names, and a name passes exactly when it
      is one of them. */
  lemma AllowListedMeaning<C>(ctx: C, name: string)
    ensures |ListedTools| == 29
    ensures forall i, j :: 0 <= i < j < |ListedTools| ==> ListedTools[i] != ListedTools[j]
    ensures AllowListed(ctx, name) <==> exists i :: 0 <= i < 29 && ListedTools[i] == name
  {
  }

  /** The markers `rg_only` looks for. */
  const RgMarkers: seq<string> := ["-monitor-", "-kusto-", "-group-list"]

  /** `rg_only` read as a left-to-right scan: the first position of the name
      where one of its markers starts. A tool passes exactly when there is
      one, whatever the name. */
  method FirstMarker<C>(ctx: C, name: string) returns (r: Option<nat>)
    ensures r.None? <==> !RgOnly(ctx, name)
    ensures r.Some? ==> exists m :: m in RgMarkers && PrefixAt(name, r.value, m)
    ensures r.Some? ==> forall j, m :: 0 <= j < r.value && m in RgMarkers ==> !PrefixAt(name, j, m)
  {
    var i := 0;
    while i <= |name|
      invariant 0 <= i <= |name| + 1
      invariant forall j, m :: 0 <= j < i && m in RgMarkers ==> !PrefixAt(name, j, m)
    {
      if PrefixAt(name, i, "-monitor-") || PrefixAt(name, i, "-kusto-") || PrefixAt(name, i, "-group-list") {
        return Some(i);
      }
      i := i + 1;
    }
    return None;
  }

  /** The substring filters keep any name built around one they keep, so a
      new tool whose name carries one of the markers passes unreviewed; the
      exact list does not (see `SuffixedNameRejected`). */
  lemma SubstringFiltersExtend<C>(ctx: C, name: string, before: string, after: string)
    ensures RgOnly(ctx, name) ==> RgOnly(ctx, before + name + after)
    ensures Contains(name, "-storage-") ==> AllowStorageKusto(ctx, before + name + after)
  {
    if Contains(name, "-monitor-") {
      ContainsExtends(name, "-monitor-", before, after);
    }
    if Contains(name, "-kusto-") {
      ContainsExtends(name, "-kusto-", before, after);
    }
    if Contains(name, "-group-list") {
      ContainsExtends(name, "-group-list", before, after);
    }
    if Contains(name, "-storage-") {
      ContainsExtends(name, "-storage-", before, after);
    }
  }

  /** None of the filters reads its context. */
  lemma FiltersIgnoreContext<C>(c1: C, c2: C, name: string)
    ensures AllowListed(c1, name) == AllowListed(c2, name)
    ensures AllowStorageKusto(c1, name) == AllowStorageKusto(c2, name)
    ensures RgOnly(c1, name) == RgOnly(c2, name)
  {
  }

  /** Matching is exact: a listed name with a suffix is not listed... */
  lemma SuffixedNameRejected<C>(ctx: C)
    ensures AllowListed(ctx, "azmcp-kusto-query")
    ensures !AllowListed(ctx, "azmcp-kusto-query-v2")
    ensures !AllowListed(ctx, "azmcp-group")
  {
    assert ListedTools[15] == "azmcp-kusto-query";
    UnlistedLength("azmcp-kusto-query-v2");
    UnlistedLength("azmcp-group");
  }

  /** A name whose length no listed name has is not listed. */
  lemma UnlistedLength(name: string)
    requires forall i :: 0 <= i < |ListedTools| ==> |ListedTools[i]| != |name|
    ensures name !in ListedTools
  {
  }

  /** ...unless the longer name is listed in its own right:
      "azmcp-foundry-models-deploy" is a prefix of another listed name. */
  lemma ListedPrefixOfListed<C>(ctx: C)
    ensures AllowListed(ctx, "azmcp-foundry-models-deploy")
    ensures AllowListed(ctx, "azmcp-foundry-models-deploy" + "ments-list")
  {
    assert ListedTools[8] == "azmcp-foundry-models-deploy";
    assert ListedTools[9] == "azmcp-foundry-models-deploy" + "ments-list";
  }

  /** "kusto" passes the storage/kusto filter only as the whole name: the
      kusto tools of the catalog are rejected, while a storage tool passes
      through the substring test. */
  lemma StorageKustoExamples<C>(ctx: C)
    ensures AllowStorageKusto(ctx, "kusto")
    ensures !AllowStorageKusto(ctx, "azmcp-kusto-query")
    ensures AllowStorageKusto(ctx, "azmcp-storage-account-list")
  {
    MissingCharExcludes("azmcp-kusto-query", "-storage-", 'g');
    var storage := "azmcp-storage-account-list";
    assert storage[5..14] == "-storage-";
    assert PrefixAt(storage, 5, "-storage-");
  }

  /** `rg_only` passes the resource-group and monitor tools... */
  lemma RgOnlyAccepts<C>(ctx: C)
    ensures RgOnly(ctx, "azmcp-group-list")
    ensures RgOnly(ctx, "azmcp-monitor-table-list")
  {
    var group, monitor := "azmcp-group-list", "azmcp-monitor-table-list";
    assert group[5..16] == "-group-list";
    assert PrefixAt(group, 5, "-group-list");
    assert monitor[5..14] == "-monitor-";
    assert PrefixAt(monitor, 5, "-monitor-");
  }

  /** ...and rejects a name with none of its three markers, such as the
      listed docs search, which has no hyphen at all. */
  lemma RgOnlyRejects<C>(ctx: C)
    ensures !RgOnly(ctx, "microsoft_docs_search")
  {
    MissingCharExcludes("microsoft_docs_search", "-monitor-", '-');
    MissingCharExcludes("microsoft_docs_search", "-kusto-", '-');
    MissingCharExcludes("microsoft_docs_search", "-group-list", '-');
  }
}
