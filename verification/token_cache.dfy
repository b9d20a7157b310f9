/** The token cache of `AzureAuthentication` (azure_tools/auth.py): a
    management-scope access token kept until five minutes before it expires.
    Times are whole seconds on one clock; the clock reading and the
    credential's answer are parameters. */
module TokenCache {
  import opened Wrappers

  /** The scope every token is requested for. */
  const ManagementScope := "https://management.azure.com/.default"

  /** A token counts as expired this many seconds before its real expiry. */
  const ExpirySkew := 300

  /** What the credential hands back: the token text and its Unix expiry. */
  datatype AccessToken = AccessToken(token: string, expiresOn: int)

  /** The cached token and the moment it stops being used. */
  datatype Cache = Cache(token: Option<string>, expiry: Option<int>)

  /** A freshly constructed `AzureAuthentication`: nothing cached. */
  function NewCache(): (c: Cache)
    ensures c.token.None? && c.expiry.None?
  {
    Cache(None, None)
  }

  /** A new token is requested when either part of the cache is missing or
      the clock has reached the (skewed) expiry. */
  predicate NeedsRefresh(c: Cache, now: int)
  {
    c.token.None? || c.expiry.None? || now >= c.expiry.value
  }

  /** One `get_token` call: the cache after it, the token returned (or the
      credential's error, which propagates), and the scope requested from the
      credential, if it was asked at all. */
  datatype Fetch = Fetch(cache: Cache, result: Result<string, string>, requested: Option<string>)

  function GetToken(c: Cache, now: int, credential: Result<AccessToken, string>): (r: Fetch)
    ensures r.requested.Some? <==> NeedsRefresh(c, now)
    ensures r.requested.Some? ==> r.requested.value == ManagementScope
    ensures !NeedsRefresh(c, now) ==> r.cache == c && r.result == Success(c.token.value)
    ensures NeedsRefresh(c, now) && credential.Success? ==>
      && r.cache == Cache(Some(credential.value.token), Some(credential.value.expiresOn - ExpirySkew))
      && r.result == Success(credential.value.token)
    ensures NeedsRefresh(c, now) && credential.Failure? ==>
      r.cache == c && r.result == Failure(credential.error)
  {
    if NeedsRefresh(c, now) then
      match credential
      case Failure(e) => Fetch(c, Failure(e), Some(ManagementScope))
      case Success(t) =>
        Fetch(Cache(Some(t.token), Some(t.expiresOn - ExpirySkew)), Success(t.token), Some(ManagementScope))
    else
      Fetch(c, Success(c.token.value), None)
  }

  /** A token fetched at any time is reused by every later call made before
      its expiry less five minutes, and the very call at that moment fetches
      again. */
  lemma FetchedTokenReused(c: Cache, now: int, t: AccessToken, later: int, other: Result<AccessToken, string>)
    requires NeedsRefresh(c, now)
    ensures var f := GetToken(c, now, Success(t));
      && (later < t.expiresOn - ExpirySkew ==>
            GetToken(f.cache, later, other) == Fetch(f.cache, Success(t.token), None))
      && (later >= t.expiresOn - ExpirySkew ==> GetToken(f.cache, later, other).requested.Some?)
  {
  }

  /** The first call on a fresh object always asks the credential. */
  lemma FirstCallAcquires(now: int, credential: Result<AccessToken, string>)
    ensures GetToken(NewCache(), now, credential).requested == Some(ManagementScope)
  {
  }

  /** The calls made at `times`, the credential answering `credential` when
      asked; returns the final cache and how many times it was asked. */
  function Run(c: Cache, times: seq<int>, credential: AccessToken): (r: (Cache, nat))
    ensures r.1 <= |times|
    decreases |times|
  {
    if |times| == 0 then (c, 0)
    else
      var f := GetToken(c, times[0], Success(credential));
      var rest := Run(f.cache, times[1..], credential);
      (rest.0, rest.1 + (if f.requested.Some? then 1 else 0))
  }

  /** While the cache holds a token that stays valid past every call time,
      no call asks the credential and the cache does not change. */
  lemma {:induction false} ValidCacheNeverRefreshes(c: Cache, times: seq<int>, credential: AccessToken)
    requires c.token.Some? && c.expiry.Some?
    requires forall i :: 0 <= i < |times| ==> times[i] < c.expiry.value
    ensures Run(c, times, credential) == (c, 0)
    decreases |times|
  {
    if |times| > 0 {
      ValidCacheNeverRefreshes(c, times[1..], credential);
    }
  }

  /** A session that starts with a fresh object and makes all its calls
      before the first token's expiry less five minutes asks the credential
      exactly once. */
  lemma SessionAcquiresOnce(times: seq<int>, credential: AccessToken)
    requires |times| >= 1
    requires forall i :: 0 <= i < |times| ==> times[i] < credential.expiresOn - ExpirySkew
    ensures Run(NewCache(), times, credential).1 == 1
  {
    var f := GetToken(NewCache(), times[0], Success(credential));
    ValidCacheNeverRefreshes(f.cache, times[1..], credential);
  }
}
