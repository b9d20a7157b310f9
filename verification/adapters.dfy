/** `get_resource_handler` of DAPEAgent/utils/azure_adapters.py: a closed
    set of eight resource keys dispatched to helper kinds, the `batch.pool`
    validation, the narrowed arguments of the `locks` helper, and the
    `lru_cache(maxsize=32)` memoisation around it. Constructing a helper is
    the SDK's business: whether the constructor raises is a parameter, and a
    constructed helper is known by a serial number. */
module AzureAdapters {
  import opened Wrappers

  datatype HandlerKind =
    | LinkedServices | Triggers | Pipelines | IntegrationRuntime
    | ManagedPrivateEndpoint | BatchPool | KeyVault | ResourceLock

  /** The `ResourceKey` literal naming each kind. */
  function KeyOf(k: HandlerKind): string
  {
    match k
    case LinkedServices => "adf.linked_services"
    case Triggers => "adf.triggers"
    case Pipelines => "adf.pipelines"
    case IntegrationRuntime => "adf.integration_runtime"
    case ManagedPrivateEndpoint => "adf.managed_pe"
    case BatchPool => "batch.pool"
    case KeyVault => "keyvault"
    case ResourceLock => "locks"
  }

  /** The if/elif chain on `key`: the kind whose literal equals `key`. */
  function ParseKey(key: string): Option<HandlerKind>
  {
    if key == "adf.linked_services" then Some(LinkedServices)
    else if key == "adf.triggers" then Some(Triggers)
    else if key == "adf.pipelines" then Some(Pipelines)
    else if key == "adf.integration_runtime" then Some(IntegrationRuntime)
    else if key == "adf.managed_pe" then Some(ManagedPrivateEndpoint)
    else if key == "batch.pool" then Some(BatchPool)
    else if key == "keyvault" then Some(KeyVault)
    else if key == "locks" then Some(ResourceLock)
    else None
  }

  /** Every declared key reaches its own kind, and a key reaches a kind only
      if it is that kind's literal: the eight keys and the eight kinds are in
      one-to-one correspondence. */
  lemma ParseKeyRoundTrip(k: HandlerKind, key: string)
    ensures ParseKey(KeyOf(k)) == Some(k)
    ensures ParseKey(key).Some? ==> KeyOf(ParseKey(key).value) == key
  {
  }

  /** Keyword arguments in call order; a value is a string or `None`. */
  type Kwargs = seq<(string, Option<string>)>

  /** `ctx.get(name)`: `None` when the keyword was not passed, otherwise the
      value passed (which may itself be `None`). */
  function Lookup(kw: Kwargs, name: string): (r: Option<Option<string>>)
    ensures r.Some? <==> exists i :: 0 <= i < |kw| && kw[i].0 == name
    ensures r.Some? ==> exists i :: FirstNamed(kw, name, i) && kw[i].1 == r.value
    decreases |kw|
  {
    if |kw| == 0 then None
    else if kw[0].0 == name then
      assert FirstNamed(kw, name, 0);
      Some(kw[0].1)
    else
      var r := Lookup(kw[1..], name);
      if r.Some? then
        var i :| FirstNamed(kw[1..], name, i) && kw[1..][i].1 == r.value;
        assert FirstNamed(kw, name, i + 1);
        r
      else
        assert forall i :: 1 <= i < |kw| ==> kw[i] == kw[1..][i - 1];
        r
  }

  /** `i` is the first position of keyword `name` in `kw`. */
  predicate FirstNamed(kw: Kwargs, name: string, i: int)
  {
    0 <= i < |kw| && kw[i].0 == name && forall j :: 0 <= j < i ==> kw[j].0 != name
  }

  /** What the helper constructor is called with. */
  datatype Handler = Handler(kind: HandlerKind, args: Kwargs)

  const PoolNameError := "'pool_name' must be supplied for batch.pool operations"
  const UnknownKeyPrefix := "Unknown resource handler key: "

  /** The body of `get_resource_handler` up to the constructor call: the
      helper to build, or the `ValueError` text. */
  function Dispatch(key: string, kw: Kwargs): (r: Result<Handler, string>)
    ensures ParseKey(key).None? <==> r == Failure(UnknownKeyPrefix + key)
    ensures r.Success? ==> ParseKey(key) == Some(r.value.kind)
  {
    match ParseKey(key)
    case None => Failure(UnknownKeyPrefix + key)
    case Some(BatchPool) =>
      var pool := Lookup(kw, "pool_name");
      if pool.None? || pool.value.None? || pool.value.value == "" then Failure(PoolNameError)
      else Success(Handler(BatchPool, kw))
    case Some(ResourceLock) =>
      var rg := Lookup(kw, "resource_group_name");
      var sub := Lookup(kw, "subscription_id");
      Success(Handler(ResourceLock, [
        ("resource_group_name", if rg.None? then Some("") else rg.value),
        ("subscription_id", if sub.None? then None else sub.value)]))
    case Some(k) => Success(Handler(k, kw))
  }

  /** `batch.pool` fails exactly when `pool_name` is absent, `None` or empty;
      it is the only kind with a required argument, and every kind but
      `locks` receives the keyword arguments unchanged. */
  lemma DispatchValidation(k: HandlerKind, kw: Kwargs)
    ensures k == BatchPool ==>
      (Dispatch(KeyOf(k), kw).Success? <==>
         exists i :: FirstNamed(kw, "pool_name", i) && kw[i].1.Some? && kw[i].1.value != "")
    ensures k == BatchPool && Dispatch(KeyOf(k), kw).Failure? ==> Dispatch(KeyOf(k), kw).error == PoolNameError
    ensures k != BatchPool ==> Dispatch(KeyOf(k), kw).Success?
    ensures k != ResourceLock ==> Dispatch(KeyOf(k), kw).Success? ==> Dispatch(KeyOf(k), kw).value == Handler(k, kw)
  {
    ParseKeyRoundTrip(k, KeyOf(k));
    forall i, j | FirstNamed(kw, "pool_name", i) && FirstNamed(kw, "pool_name", j)
      ensures i == j
    {
    }
  }

  /** `locks` receives only the resource group (default `""`) and the
      subscription (default `None`), whatever else was passed. */
  lemma LocksArguments(kw: Kwargs, rg: Option<string>, sub: Option<string>)
    requires forall i :: 0 <= i < |kw| ==> kw[i].0 != "resource_group_name" && kw[i].0 != "subscription_id"
    ensures Dispatch("locks", kw) == Success(Handler(ResourceLock, [("resource_group_name", Some("")), ("subscription_id", None)]))
    ensures Dispatch("locks", [("resource_group_name", rg)] + kw + [("subscription_id", sub)])
         == Success(Handler(ResourceLock, [("resource_group_name", rg), ("subscription_id", sub)]))
  {
    assert ParseKey("locks") == Some(ResourceLock);
    assert Lookup(kw, "resource_group_name").None? && Lookup(kw, "subscription_id").None?;
    var kw2 := [("resource_group_name", rg)] + kw + [("subscription_id", sub)];
    assert kw2[0] == ("resource_group_name", rg);
    assert Lookup(kw2, "resource_group_name") == Some(rg);
    assert kw2[1..] == kw + [("subscription_id", sub)];
    LookupSkips(kw, [("subscription_id", sub)], "subscription_id");
  }

  /** A lookup passes over a prefix that lacks the name. */
  lemma {:induction false} LookupSkips(pre: Kwargs, post: Kwargs, name: string)
    requires forall i :: 0 <= i < |pre| ==> pre[i].0 != name
    ensures Lookup(pre + post, name) == Lookup(post, name)
    decreases |pre|
  {
    if |pre| > 0 {
      assert (pre + post)[0] == pre[0];
      assert (pre + post)[1..] == pre[1..] + post;
      assert Lookup(pre + post, name) == Lookup(pre[1..] + post, name);
      LookupSkips(pre[1..], post, name);
    } else {
      assert pre + post == post;
    }
  }

  // ---------------------------------------------------------------------
  // lru_cache(maxsize=32)
  // ---------------------------------------------------------------------

  const MaxSize := 32

  /** The memoisation key: the positional key and the keyword arguments in
      the order they were passed (as `functools` builds it). */
  datatype CallKey = CallKey(key: string, kwargs: Kwargs)

  /** A constructed helper: a serial number and what it was built from. */
  datatype Instance = Instance(serial: nat, handler: Handler)

  datatype Entry = Entry(call: CallKey, instance: Instance)

  /** Cached entries from least to most recently used, and the next serial. */
  datatype Cache = Cache(entries: seq<Entry>, nextSerial: nat)

  /** At most 32 entries, one per call key, serials below `nextSerial`. */
  predicate Valid(c: Cache)
  {
    && |c.entries| <= MaxSize
    && (forall i, j :: 0 <= i < j < |c.entries| ==> c.entries[i].call != c.entries[j].call)
    && (forall i :: 0 <= i < |c.entries| ==> c.entries[i].instance.serial < c.nextSerial)
  }

  function EmptyCache(): (c: Cache)
    ensures Valid(c) && c.entries == []
  {
    Cache([], 0)
  }

  /** Position of the entry for `k`, if cached. */
  function Find(entries: seq<Entry>, k: CallKey): (r: Option<nat>)
    ensures r.Some? ==> r.value < |entries| && entries[r.value].call == k
    ensures r.Some? ==> forall j :: 0 <= j < r.value ==> entries[j].call != k
    ensures r.None? ==> forall j :: 0 <= j < |entries| ==> entries[j].call != k
    decreases |entries|
  {
    if |entries| == 0 then None
    else if entries[0].call == k then Some(0)
    else
      var r := Find(entries[1..], k);
      if r.Some? then Some(r.value + 1) else None
  }

  predicate Cached(c: Cache, k: CallKey)
  {
    Find(c.entries, k).Some?
  }

  /** The cached instance for `k`. */
  function CachedInstance(c: Cache, k: CallKey): Instance
    requires Cached(c, k)
  {
    c.entries[Find(c.entries, k).value].instance
  }

  /** `entries` with the entry at `i` moved to the most recent end. */
  function MoveToEnd(entries: seq<Entry>, i: nat): (r: seq<Entry>)
    requires i < |entries|
    ensures |r| == |entries|
    ensures r[|r| - 1] == entries[i]
    ensures forall j :: 0 <= j < i ==> r[j] == entries[j]
    ensures forall j :: i <= j < |r| - 1 ==> r[j] == entries[j + 1]
  {
    entries[..i] + entries[i + 1..] + [entries[i]]
  }

  datatype Outcome = Outcome(cache: Cache, result: Result<Instance, string>)

  /** One memoised call `get_resource_handler(key, **kwargs)`. On a hit the
      cached helper is returned and becomes most recently used; on a miss the
      body runs and, when it raises (a `ValueError` or the constructor's
      error), nothing is cached; otherwise the new helper is cached,
      evicting the least recently used entry when 32 are held. */
  function CachedGet(c: Cache, key: string, kw: Kwargs, constructorError: Option<string>): (r: Outcome)
    requires Valid(c)
    ensures Valid(r.cache)
    ensures Cached(c, CallKey(key, kw)) ==>
      && r.result == Success(CachedInstance(c, CallKey(key, kw)))
      && r.cache.nextSerial == c.nextSerial
      && r.cache.entries == MoveToEnd(c.entries, Find(c.entries, CallKey(key, kw)).value)
    ensures !Cached(c, CallKey(key, kw)) && Dispatch(key, kw).Failure? ==>
      r == Outcome(c, Failure(Dispatch(key, kw).error))
    ensures !Cached(c, CallKey(key, kw)) && Dispatch(key, kw).Success? && constructorError.Some? ==>
      r == Outcome(c, Failure(constructorError.value))
    ensures !Cached(c, CallKey(key, kw)) && Dispatch(key, kw).Success? && constructorError.None? ==>
      && r.result == Success(Instance(c.nextSerial, Dispatch(key, kw).value))
      && r.cache.nextSerial == c.nextSerial + 1
      && r.cache.entries == (if |c.entries| == MaxSize then c.entries[1..] else c.entries)
                            + [Entry(CallKey(key, kw), r.result.value)]
  {
    var k := CallKey(key, kw);
    match Find(c.entries, k)
    case Some(i) =>
      var moved := MoveToEnd(c.entries, i);
      MoveToEndValid(c, i);
      Outcome(Cache(moved, c.nextSerial), Success(c.entries[i].instance))
    case None =>
      match Dispatch(key, kw)
      case Failure(e) => Outcome(c, Failure(e))
      case Success(h) =>
        if constructorError.Some? then Outcome(c, Failure(constructorError.value))
        else
          var inst := Instance(c.nextSerial, h);
          var kept := if |c.entries| == MaxSize then c.entries[1..] else c.entries;
          var c2 := Cache(kept + [Entry(k, inst)], c.nextSerial + 1);
          InsertValid(c, k, inst);
          Outcome(c2, Success(inst))
  }

  lemma MoveToEndValid(c: Cache, i: nat)
    requires Valid(c) && i < |c.entries|
    ensures Valid(Cache(MoveToEnd(c.entries, i), c.nextSerial))
  {
    var m := MoveToEnd(c.entries, i);
    // Each position of `m` comes from a distinct position of the old entries.
    forall a, b | 0 <= a < b < |m|
      ensures m[a].call != m[b].call
    {
      var oa := if a < i then a else if a < |m| - 1 then a + 1 else i;
      var ob := if b < i then b else if b < |m| - 1 then b + 1 else i;
      assert m[a] == c.entries[oa] && m[b] == c.entries[ob];
      assert oa != ob;
    }
  }

  lemma InsertValid(c: Cache, k: CallKey, inst: Instance)
    requires Valid(c) && Find(c.entries, k).None? && inst.serial == c.nextSerial
    ensures var kept := if |c.entries| == MaxSize then c.entries[1..] else c.entries;
            Valid(Cache(kept + [Entry(k, inst)], c.nextSerial + 1))
  {
    var kept := if |c.entries| == MaxSize then c.entries[1..] else c.entries;
    var n := kept + [Entry(k, inst)];
    forall a, b | 0 <= a < b < |n|
      ensures n[a].call != n[b].call
    {
      var off := if |c.entries| == MaxSize then 1 else 0;
      assert n[a] == c.entries[a + off];
      if b < |n| - 1 {
        assert n[b] == c.entries[b + off];
      }
    }
    forall a | 0 <= a < |n|
      ensures n[a].instance.serial < c.nextSerial + 1
    {
      if a < |n| - 1 {
        var off := if |c.entries| == MaxSize then 1 else 0;
        assert n[a] == c.entries[a + off];
      }
    }
  }

  /** A successful call followed at once by the identical call returns the
      same helper, whether or not the constructor would now raise, and leaves
      the cache as the first call left it. */
  lemma RepeatCallSameInstance(c: Cache, key: string, kw: Kwargs, e1: Option<string>, e2: Option<string>)
    requires Valid(c)
    requires CachedGet(c, key, kw, e1).result.Success?
    ensures var first := CachedGet(c, key, kw, e1);
            CachedGet(first.cache, key, kw, e2) == first
  {
    var first := CachedGet(c, key, kw, e1);
    var k := CallKey(key, kw);
    var es := first.cache.entries;
    assert es[|es| - 1].call == k;
    UniqueFind(first.cache, k, |es| - 1);
    assert MoveToEnd(es, |es| - 1) == es;
  }

  /** A failed call leaves no trace: exceptions are never cached. */
  lemma FailureNotCached(c: Cache, key: string, kw: Kwargs, e: Option<string>)
    requires Valid(c)
    requires CachedGet(c, key, kw, e).result.Failure?
    ensures CachedGet(c, key, kw, e).cache == c
    ensures !Cached(c, CallKey(key, kw))
  {
  }

  /** Number of entries used more recently than the one for `k`. */
  function Age(c: Cache, k: CallKey): nat
    requires Cached(c, k)
  {
    |c.entries| - 1 - Find(c.entries, k).value
  }

  /** A call with another key keeps the entry for `k`, with the same helper,
      as long as fewer than 31 entries were more recent; it ages by at most
      one. */
  lemma OtherCallKeepsEntry(c: Cache, k: CallKey, key: string, kw: Kwargs, e: Option<string>)
    requires Valid(c) && Cached(c, k) && CallKey(key, kw) != k
    requires Age(c, k) < MaxSize - 1
    ensures var r := CachedGet(c, key, kw, e);
      && Cached(r.cache, k)
      && CachedInstance(r.cache, k) == CachedInstance(c, k)
      && Age(r.cache, k) <= Age(c, k) + 1
  {
    var r := CachedGet(c, key, kw, e);
    var i := Find(c.entries, k).value;
    var es := r.cache.entries;
    var j: nat;
    if Cached(c, CallKey(key, kw)) {
      var h := Find(c.entries, CallKey(key, kw)).value;
      j := if h < i then i - 1 else i;
      assert h != i;
    } else if r.cache == c {
      j := i;
    } else {
      j := if |c.entries| == MaxSize then i - 1 else i;
      assert es[j] == c.entries[i];
    }
    assert es[j] == c.entries[i];
    UniqueFind(r.cache, k, j);
  }

  /** In a valid cache the entry whose key is `k` is the one `Find` returns. */
  lemma UniqueFind(c: Cache, k: CallKey, j: nat)
    requires Valid(c) && j < |c.entries| && c.entries[j].call == k
    ensures Find(c.entries, k) == Some(j)
  {
    var f := Find(c.entries, k);
    assert f.Some? && c.entries[f.value].call == k;
  }

  /** The cache after each call of `calls` in turn (each call's constructor
      error is paired with it). */
  function Calls(c: Cache, calls: seq<(CallKey, Option<string>)>): (r: Cache)
    requires Valid(c)
    ensures Valid(r)
    decreases |calls|
  {
    if |calls| == 0 then c
    else Calls(CachedGet(c, calls[0].0.key, calls[0].0.kwargs, calls[0].1).cache, calls[1..])
  }

  /** Identical calls return the same helper while its entry is among the
      32 most recently used: after fewer than `32 - Age` calls with other
      keys, the identical call is still a hit on the very same helper. */
  lemma {:induction false} StaysCachedWhileRecent(c: Cache, k: CallKey, calls: seq<(CallKey, Option<string>)>, e: Option<string>)
    requires Valid(c) && Cached(c, k)
    requires forall i :: 0 <= i < |calls| ==> calls[i].0 != k
    requires Age(c, k) + |calls| < MaxSize
    ensures var after := Calls(c, calls);
      && Cached(after, k)
      && CachedGet(after, k.key, k.kwargs, e).result == Success(CachedInstance(c, k))
    decreases |calls|
  {
    if |calls| > 0 {
      var c1 := CachedGet(c, calls[0].0.key, calls[0].0.kwargs, calls[0].1).cache;
      OtherCallKeepsEntry(c, k, calls[0].0.key, calls[0].0.kwargs, calls[0].1);
      StaysCachedWhileRecent(c1, k, calls[1..], e);
    }
  }

  /** A miss that fills a full cache evicts exactly the least recently used
      entry and keeps every other entry in order. */
  lemma FullCacheEvictsLeastRecent(c: Cache, key: string, kw: Kwargs)
    requires Valid(c) && |c.entries| == MaxSize
    requires !Cached(c, CallKey(key, kw)) && Dispatch(key, kw).Success?
    ensures var r := CachedGet(c, key, kw, None);
      && |r.cache.entries| == MaxSize
      && !Cached(r.cache, c.entries[0].call)
      && r.cache.entries[..MaxSize - 1] == c.entries[1..]
  {
    var r := CachedGet(c, key, kw, None);
    var old0 := c.entries[0].call;
    var es := r.cache.entries;
    assert old0 != CallKey(key, kw);
    forall j | 0 <= j < |es|
      ensures es[j].call != old0
    {
      if j < |es| - 1 {
        assert es[j] == c.entries[j + 1];
      }
    }
  }

  /** A call adds no entry but its own: a key the cache did not hold before
      the call, other than the call's own, is not held after it. */
  lemma CallAddsOnlyItsKey(c: Cache, key: string, kw: Kwargs, e: Option<string>, other: CallKey)
    requires Valid(c) && !Cached(c, other) && other != CallKey(key, kw)
    ensures !Cached(CachedGet(c, key, kw, e).cache, other)
  {
    var es := CachedGet(c, key, kw, e).cache.entries;
    forall j | 0 <= j < |es|
      ensures es[j].call != other
    {
      if Cached(c, CallKey(key, kw)) {
        var i := Find(c.entries, CallKey(key, kw)).value;
        assert es[j] == c.entries[if j < i then j else if j < |es| - 1 then j + 1 else i];
      } else if Dispatch(key, kw).Success? && e.None? {
        var off := if |c.entries| == MaxSize then 1 else 0;
        if j < |es| - 1 {
          assert es[j] == c.entries[j + off];
        }
      }
    }
  }

  /** Every distinct memoisation key gets its own helper: after a call that
      returns a helper, a call whose keyword arguments differ in any way
      (values or order) and whose key was not cached builds a new helper,
      never the one just returned. */
  lemma DistinctKeywordsDistinctHelpers(c: Cache, key: string, kw1: Kwargs, kw2: Kwargs, e: Option<string>)
    requires Valid(c) && kw1 != kw2 && !Cached(c, CallKey(key, kw2))
    requires Dispatch(key, kw2).Success?
    ensures var r1 := CachedGet(c, key, kw1, e);
      var r2 := CachedGet(r1.cache, key, kw2, None);
      r1.result.Success? ==>
        && r2.result.Success?
        && Cached(r2.cache, CallKey(key, kw2))
        && r2.result.value.serial != r1.result.value.serial
  {
    var r1 := CachedGet(c, key, kw1, e);
    CallAddsOnlyItsKey(c, key, kw1, e, CallKey(key, kw2));
    var r2 := CachedGet(r1.cache, key, kw2, None);
    if r1.result.Success? {
      if Cached(c, CallKey(key, kw1)) {
        assert r1.result.value.serial < c.nextSerial;
      }
      assert r2.cache.entries[|r2.cache.entries| - 1].call == CallKey(key, kw2);
    }
  }

  /** The memoisation key keeps the keyword order: the same arguments passed
      in another order are a separate entry and build a second helper. */
  lemma KeywordOrderMatters(c: Cache)
    requires c == EmptyCache()
    ensures var kw1 := [("resource_group_name", Some("rg")), ("resource_name", Some("adf"))];
      var kw2 := [("resource_name", Some("adf")), ("resource_group_name", Some("rg"))];
      var r1 := CachedGet(c, "adf.pipelines", kw1, None);
      var r2 := CachedGet(r1.cache, "adf.pipelines", kw2, None);
      && r1.result.Success? && r2.result.Success?
      && r1.result.value.serial != r2.result.value.serial
  {
    var kw1 := [("resource_group_name", Some("rg")), ("resource_name", Some("adf"))];
    var kw2 := [("resource_name", Some("adf")), ("resource_group_name", Some("rg"))];
    var r1 := CachedGet(c, "adf.pipelines", kw1, None);
    assert kw1[0] != kw2[0];
    assert !Cached(r1.cache, CallKey("adf.pipelines", kw2));
  }
}
