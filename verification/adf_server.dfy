/** `list_linked_services` of the ADF MCP server (adf_server.py): the
    helper is built from the environment like the end-to-end agent's, and
    each linked service the helper lists is cut down to its name and type.
    A service is the dict the helper returns; a key it does not have is
    absent here. */
module AdfServer {
  import opened Wrappers
  import opened ServiceAccess
  import LinkedServices

  const Unknown := "Unknown"

  /** The `properties` dict of a linked service. */
  datatype Properties = Properties(kind: Option<string>)

  /** One linked service as the helper lists it. */
  datatype Service = Service(name: Option<string>, properties: Option<Properties>)

  /** The two keys of each summary entry. */
  datatype Summary = Summary(name: string, kind: string)

  /** `service.get("name", "Unknown")` and
      `service.get("properties", {}).get("type", "Unknown")`. */
  function Summarize(s: Service): (r: Summary)
    ensures r.name == s.name.GetOr(Unknown)
    ensures r.kind == (if s.properties.Some? then s.properties.value.kind.GetOr(Unknown) else Unknown)
  {
    var props := s.properties.GetOr(Properties(None));
    Summary(s.name.GetOr(Unknown), props.kind.GetOr(Unknown))
  }

  /** The loop building `simplified_services`: one entry per listed
      service, in the order listed. */
  method SummarizeAll(services: seq<Service>) returns (r: seq<Summary>)
    ensures |r| == |services|
    ensures forall i :: 0 <= i < |services| ==> r[i] == Summarize(services[i])
  {
    r := [];
    var i := 0;
    while i < |services|
      invariant 0 <= i <= |services|
      invariant |r| == i
      invariant forall j :: 0 <= j < i ==> r[j] == Summarize(services[j])
    {
      r := r + [Summarize(services[i])];
      i := i + 1;
    }
  }

  /** "Unknown" stands in exactly for what is missing: a present name or
      type is copied, an absent one (or a service without properties)
      reads "Unknown". */
  lemma UnknownMeansMissing(s: Service)
    ensures s.name.None? ==> Summarize(s).name == Unknown
    ensures s.name.Some? ==> Summarize(s).name == s.name.value
    ensures s.properties.None? || s.properties.value.kind.None? ==> Summarize(s).kind == Unknown
    ensures s.properties.Some? && s.properties.value.kind.Some? ==> Summarize(s).kind == s.properties.value.kind.value
  {
  }

  /** The helper the server lists from: the end-to-end agent's. */
  function ServerService(env: map<string, string>): (h: Handle)
    ensures env == map[] ==> h == Handle(None, Some("SQL-RG"), Some("adf-stanley"), None)
  {
    LinkedServices.EndToEndService(env)
  }
}
