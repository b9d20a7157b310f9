/** `extract_token_usage` of DAPEAgent/utils.py: four counters summed over
    the raw responses of an agent run, all four zero when anything about the
    run cannot be read. */
module TokenUsage {
  import opened Wrappers

  /** The `usage` record of one raw response; `cachedTokens` is
      `input_tokens_details.cached_tokens`, absent when the details are. */
  datatype UsageRecord = UsageRecord(totalTokens: int, inputTokens: int, outputTokens: int, cachedTokens: Option<int>)

  /** One raw response; `usage` is absent when the response carries none. */
  datatype RawResponse = RawResponse(usage: Option<UsageRecord>)

  /** The four keys of the returned dictionary. */
  datatype Counter = InputTokens | OutputTokens | CacheTokens | TotalTokens

  datatype Counts = Counts(inputTokens: int, outputTokens: int, cacheTokens: int, totalTokens: int)
  {
    function Get(k: Counter): int
    {
      match k
      case InputTokens => inputTokens
      case OutputTokens => outputTokens
      case CacheTokens => cacheTokens
      case TotalTokens => totalTokens
    }
  }

  const Zeros := Counts(0, 0, 0, 0)

  /** Every attribute the loop reads is present. */
  predicate Readable(r: RawResponse)
  {
    r.usage.Some? && r.usage.value.cachedTokens.Some?
  }

  predicate AllReadable(rs: seq<RawResponse>)
  {
    forall i :: 0 <= i < |rs| ==> Readable(rs[i])
  }

  /** What one response contributes to counter `k`. */
  function Reading(r: RawResponse, k: Counter): int
    requires Readable(r)
  {
    var u := r.usage.value;
    match k
    case InputTokens => u.inputTokens
    case OutputTokens => u.outputTokens
    case CacheTokens => u.cachedTokens.value
    case TotalTokens => u.totalTokens
  }

  /** The sum of counter `k` over `rs`: the reference the loop is held to. */
  function Sum(rs: seq<RawResponse>, k: Counter): int
    requires AllReadable(rs)
    decreases |rs|
  {
    if |rs| == 0 then 0 else Sum(rs[..|rs| - 1], k) + Reading(rs[|rs| - 1], k)
  }

  /** `extract_token_usage(agent_result)`; `rawResponses` is absent when the
      result has no `raw_responses` attribute. */
  method ExtractTokenUsage(rawResponses: Option<seq<RawResponse>>) returns (r: Counts)
    ensures rawResponses.None? ==> r == Zeros
    ensures rawResponses == Some([]) ==> r == Zeros
    ensures rawResponses.Some? && !AllReadable(rawResponses.value) ==> r == Zeros
    ensures rawResponses.Some? && AllReadable(rawResponses.value) ==>
      forall k :: r.Get(k) == Sum(rawResponses.value, k)
  {
    if rawResponses.None? {
      return Zeros;
    }
    var rs := rawResponses.value;
    var total, input, output, cache := 0, 0, 0, 0;
    var i := 0;
    while i < |rs|
      invariant 0 <= i <= |rs|
      invariant AllReadable(rs[..i])
      invariant total == Sum(rs[..i], TotalTokens)
      invariant input == Sum(rs[..i], InputTokens)
      invariant output == Sum(rs[..i], OutputTokens)
      invariant cache == Sum(rs[..i], CacheTokens)
    {
      if !Readable(rs[i]) {
        // The attribute error aborts the loop: no partial sums escape.
        return Zeros;
      }
      var u := rs[i].usage.value;
      total := total + u.totalTokens;
      input := input + u.inputTokens;
      output := output + u.outputTokens;
      cache := cache + u.cachedTokens.value;
      assert rs[..i + 1][..i] == rs[..i];
      i := i + 1;
    }
    assert rs[..i] == rs;
    r := Counts(input, output, cache, total);
  }

  /** The sums over a run split into two parts are the sums of the parts. */
  lemma {:induction false} SumSplit(xs: seq<RawResponse>, ys: seq<RawResponse>, k: Counter)
    requires AllReadable(xs) && AllReadable(ys)
    ensures AllReadable(xs + ys)
    ensures Sum(xs + ys, k) == Sum(xs, k) + Sum(ys, k)
    decreases |ys|
  {
    assert forall i :: 0 <= i < |xs + ys| ==> (xs + ys)[i] == if i < |xs| then xs[i] else ys[i - |xs|];
    if |ys| == 0 {
      assert xs + ys == xs;
    } else {
      var ys0 := ys[..|ys| - 1];
      assert (xs + ys)[..|xs + ys| - 1] == xs + ys0;
      SumSplit(xs, ys0, k);
    }
  }

  /** The total is the sum of the reported totals, not input plus output:
      one response reporting 10 in all for 3 in and 4 out gives 10. */
  lemma TotalIsReportedTotal()
    ensures var rs := [RawResponse(Some(UsageRecord(10, 3, 4, Some(0))))];
      && Sum(rs, TotalTokens) == 10
      && Sum(rs, InputTokens) + Sum(rs, OutputTokens) == 7
  {
    var rs := [RawResponse(Some(UsageRecord(10, 3, 4, Some(0))))];
    assert rs[..0] == [];
  }
}
