/**
 * The caching front of app.py as one service object: the durable cache
 * (cache.memoize), the transient cache (ttl_cache, one hour), the
 * per-explorer key cursors (cycle) and the endpoints built on them.
 * Calls are sequential; `now` is the clock reading of the request and
 * `upstream` is the explorer API as it answers during that request.
 */
module Service {
  import opened Wrappers
  import opened Failures
  import opened Json
  import opened Endpoints
  import Verification
  import Rotation
  import OnChain

  /** Lifetime of a transient entry, in seconds. */
  const TTL := 60 * 60

  /** The GET weak_cache sends: the explorer URL and its query parameters. */
  datatype UpstreamRequest = UpstreamRequest(url: string, apiModule: string, action: string,
                                             address: string, apiKey: string)

  /** The explorer's answer: a decoded JSON body, or a failed request with its status. */
  datatype Reply = Body(json: Json) | Failed(status: int)

  /** A transient entry and the instant it stops being served. */
  datatype Entry = Entry(payload: Json, expires: int)

  /** One upstream request, with the explorer whose key it spent. */
  datatype Call = Call(explorer: string, request: UpstreamRequest)

  /** All mutable state of the service, as one value. */
  datatype Caches = Caches(durable: map<CacheKey, Json>, transient: map<CacheKey, Entry>,
                           cursor: map<string, nat>, calls: seq<Call>)

  /** `raise_for_status()` then `resp.json()`. */
  function Received(reply: Reply): Result<Json, Failure> {
    match reply
    case Body(j) => Ok(j)
    case Failed(status) => Err(Upstream(status))
  }

  /** The API keys the requests of `log` spent for `explorer`, in order. */
  ghost function KeysUsed(log: seq<Call>, explorer: string): seq<string> {
    if log == [] then []
    else
      var last := log[|log| - 1];
      KeysUsed(log[..|log| - 1], explorer) + (if last.explorer == explorer then [last.request.apiKey] else [])
  }

  lemma KeysUsedAppend(log: seq<Call>, c: Call, explorer: string)
    ensures KeysUsed(log + [c], explorer)
         == KeysUsed(log, explorer) + (if c.explorer == explorer then [c.request.apiKey] else [])
  {
    assert (log + [c])[..|log|] == log;
  }

  /** Each cursor has handed out exactly the keys the log shows, in cycle order. */
  ghost predicate InCycleOrder(config: map<string, ExplorerConfig>, cursor: map<string, nat>, log: seq<Call>) {
    && cursor.Keys == config.Keys
    && (forall e | e in config && |config[e].keys| > 0 ::
          && cursor[e] == Rotation.PositionAfter(|config[e].keys|, |KeysUsed(log, e)|)
          && KeysUsed(log, e) == Rotation.Drawn(config[e].keys, |KeysUsed(log, e)|))
  }

  /** Drawing the key under the cursor, logging it and advancing the cursor keeps the cycle order. */
  lemma DrawKeepsCycleOrder(config: map<string, ExplorerConfig>, cursor: map<string, nat>, log: seq<Call>,
                            explorer: string, req: UpstreamRequest)
    requires InCycleOrder(config, cursor, log)
    requires explorer in config && |config[explorer].keys| > 0
    requires req.apiKey == config[explorer].keys[cursor[explorer]]
    ensures InCycleOrder(config, cursor[explorer := Rotation.Advance(|config[explorer].keys|, cursor[explorer])],
                         log + [Call(explorer, req)])
  {
    var cursor', log' := cursor[explorer := Rotation.Advance(|config[explorer].keys|, cursor[explorer])],
                         log + [Call(explorer, req)];
    forall e | e in config && |config[e].keys| > 0
      ensures cursor'[e] == Rotation.PositionAfter(|config[e].keys|, |KeysUsed(log', e)|)
      ensures KeysUsed(log', e) == Rotation.Drawn(config[e].keys, |KeysUsed(log', e)|)
    {
      KeysUsedAppend(log, Call(explorer, req), e);
    }
  }

  /** invalidate compares the explorer and the raw address, as given, with no checksumming. */
  predicate Targets(k: CacheKey, explorer: string, address: string) {
    k.explorer == explorer && k.address == address
  }

  function Matching(keys: set<CacheKey>, explorer: string, address: string): set<CacheKey> {
    set k | k in keys && Targets(k, explorer, address)
  }

  /** Taking one more key into account adds one match exactly when it is targeted. */
  lemma MatchingAdd(done: set<CacheKey>, k: CacheKey, explorer: string, address: string)
    requires k !in done
    ensures Matching(done + {k}, explorer, address)
         == Matching(done, explorer, address) + (if Targets(k, explorer, address) then {k} else {})
    ensures |Matching(done + {k}, explorer, address)|
         == |Matching(done, explorer, address)| + (if Targets(k, explorer, address) then 1 else 0)
  {
    var before, after := Matching(done, explorer, address), Matching(done + {k}, explorer, address);
    if Targets(k, explorer, address) {
      assert after == before + {k};
      assert k !in before;
    } else {
      assert after == before;
    }
  }

  lemma RemoveOneMore<V>(m: map<CacheKey, V>, done: set<CacheKey>, k: CacheKey, explorer: string, address: string)
    requires k in m && k !in done && Targets(k, explorer, address)
    ensures k in m - Matching(done, explorer, address)
    ensures (m - Matching(done, explorer, address)) - {k} == m - Matching(done + {k}, explorer, address)
  {
    MatchingAdd(done, k, explorer, address);
  }

  /**
   * The loop of invalidate: walk the keys of the store once, delete each
   * targeted key and count the deletions (cache.delete answers whether
   * the key was there).
   */
  method Sweep(store0: map<CacheKey, Json>, explorer: string, address: string)
    returns (store: map<CacheKey, Json>, deleted: nat)
    ensures store == store0 - Matching(store0.Keys, explorer, address)
    ensures deleted == |Matching(store0.Keys, explorer, address)|
  {
    deleted := 0;
    store := store0;
    var pending := store.Keys;
    ghost var done: set<CacheKey> := {};
    while pending != {}
      invariant pending + done == store0.Keys && pending !! done
      invariant store == store0 - Matching(done, explorer, address)
      invariant deleted == |Matching(done, explorer, address)|
      decreases pending
    {
      var k :| k in pending;
      MatchingAdd(done, k, explorer, address);
      if k.explorer == explorer && k.address == address {
        var existed := k in store;
        RemoveOneMore(store0, done, k, explorer, address);
        store := store - {k};
        if existed {
          deleted := deleted + 1;
        }
      }
      pending := pending - {k};
      done := done + {k};
    }
  }

  /**
   * What cached_api answers once the memoized call has returned: the
   * memoized outcome, except that NotVerified is answered with the raw
   * response weak_cache holds.
   */
  function Serve(memoized: Result<Json, Failure>, raw: Result<Json, Failure>): Result<Json, Failure>
  {
    if memoized == Err(NotVerified) then raw else memoized
  }

  class CacheService {
    const config: map<string, ExplorerConfig>
    const chains: map<string, int>
    const rpcUrls: map<int, Option<string>>
    /** to_checksum_address: the canonical form of an address, or None when it is malformed. */
    const checksum: string -> Option<string>

    var durable: map<CacheKey, Json>
    var transient: map<CacheKey, Entry>
    var cursor: map<string, nat>
    /** Every request sent upstream so far. */
    ghost var calls: seq<Call>

    /** Each cursor has handed out exactly the keys the log shows, in cycle order. */
    ghost predicate RotationValid()
      reads this`cursor, this`calls
    {
      InCycleOrder(config, cursor, calls)
    }

    /** The durable cache holds only verified responses. */
    ghost predicate DurableValid()
      reads this`durable
    {
      forall k | k in durable :: Verification.IsVerified(k.action, durable[k]) == Ok(true)
    }

    ghost predicate Valid()
      reads this
    {
      RotationValid() && DurableValid()
    }

    ghost function State(): Caches
      reads this
    {
      Caches(durable, transient, cursor, calls)
    }

    constructor (config: map<string, ExplorerConfig>, chains: map<string, int>,
                 rpcUrls: map<int, Option<string>>, checksum: string -> Option<string>)
      ensures Valid()
      ensures this.config == config && this.chains == chains && this.rpcUrls == rpcUrls
      ensures this.checksum == checksum
      ensures durable == map[] && transient == map[] && calls == []
    {
      this.config, this.chains, this.rpcUrls, this.checksum := config, chains, rpcUrls, checksum;
      durable, transient := map[], map[];
      cursor := map e | e in config :: 0;
      calls := [];
    }

    /** A transient entry for `key` that has not expired at `now`. */
    predicate Fresh(key: CacheKey, now: int)
      reads this
    {
      key in transient && now < transient[key].expires
    }

    /**
     * The request a transient miss sends: config[explorer] must exist and
     * its key cycle must not be empty; the key is the one under the cursor.
     */
    function Request(key: CacheKey): (r: Result<UpstreamRequest, Failure>)
      reads this
      requires Valid()
      ensures key.explorer !in config ==> r == Err(MissingConfig)
      ensures key.explorer in config && |config[key.explorer].keys| == 0 ==> r == Err(KeysExhausted)
      ensures r.Ok? ==> r.value.url == config[key.explorer].url && r.value.apiModule == key.apiModule
                        && r.value.action == key.action && r.value.address == key.address
      ensures r.Ok? <==> key.explorer in config && |config[key.explorer].keys| > 0
      ensures r.Ok? ==> r.value.apiKey == config[key.explorer].keys[cursor[key.explorer]]
    {
      if key.explorer !in config then Err(MissingConfig)
      else if |config[key.explorer].keys| == 0 then Err(KeysExhausted)
      else
        var e := key.explorer;
        Ok(UpstreamRequest(config[e].url, key.apiModule, key.action, key.address, config[e].keys[cursor[e]]))
    }

    /** What weak_cache(key) returns from this state. */
    ghost function Fetched(key: CacheKey, now: int, upstream: UpstreamRequest -> Reply): Result<Json, Failure>
      reads this
      requires Valid()
    {
      if Fresh(key, now) then Ok(transient[key].payload)
      else
        match Request(key)
        case Err(f) => Err(f)
        case Ok(req) => Received(upstream(req))
    }

    /** The state weak_cache(key) leaves. */
    ghost function AfterFetch(key: CacheKey, now: int, upstream: UpstreamRequest -> Reply): Caches
      reads this
      requires Valid()
    {
      if Fresh(key, now) || Request(key).Err? then State()
      else
        var e, req := key.explorer, Request(key).value;
        Caches(durable,
               if upstream(req).Body? then transient[key := Entry(upstream(req).json, now + TTL)] else transient,
               cursor[e := Rotation.Advance(|config[e].keys|, cursor[e])],
               calls + [Call(e, req)])
    }

    /** What get_from_upstream(key) returns from this state. */
    ghost function Memoized(key: CacheKey, now: int, upstream: UpstreamRequest -> Reply): Result<Json, Failure>
      reads this
      requires Valid()
    {
      if key in durable then Ok(durable[key]) else Verification.Gate(key.action, Fetched(key, now, upstream))
    }

    /** The state get_from_upstream(key) leaves. */
    ghost function AfterGet(key: CacheKey, now: int, upstream: UpstreamRequest -> Reply): Caches
      reads this
      requires Valid()
    {
      if key in durable then State()
      else
        var s, m := AfterFetch(key, now, upstream), Memoized(key, now, upstream);
        if m.Ok? then s.(durable := s.durable[key := m.value]) else s
    }

    /** What the service answers for `key`: the memoized value, or the raw one when unverified. */
    ghost function Served(key: CacheKey, now: int, upstream: UpstreamRequest -> Reply): Result<Json, Failure>
      reads this
      requires Valid()
    {
      Serve(Memoized(key, now, upstream), Fetched(key, now, upstream))
    }

    /** The i-th key ever spent for an explorer is keys[i mod |keys|]. */
    lemma NthFetchUsesKey(e: string, i: nat)
      requires Valid() && e in config && |config[e].keys| > 0
      requires i < |KeysUsed(calls, e)|
      ensures KeysUsed(calls, e)[i] == config[e].keys[i % |config[e].keys|]
    {
      Rotation.DrawnCycles(config[e].keys, |KeysUsed(calls, e)|, i);
    }

    /**
     * weak_cache: an unexpired transient entry is returned with nothing
     * else touched; otherwise one request goes upstream with the next key
     * of the explorer's cycle, and a successful answer is stored for TTL
     * seconds whether or not it is verified.
     */
    method WeakCache(key: CacheKey, now: int, upstream: UpstreamRequest -> Reply) returns (r: Result<Json, Failure>)
      requires Valid()
      modifies this
      ensures Valid()
      ensures r == old(Fetched(key, now, upstream))
      ensures State() == old(AfterFetch(key, now, upstream))
      ensures old(Fresh(key, now)) ==> r == Ok(old(transient[key].payload)) && unchanged(this)
      ensures !old(Fresh(key, now)) && old(Request(key)).Ok? ==>
                var e := key.explorer;
                && calls == old(calls) + [Call(e, old(Request(key)).value)]
                && old(Request(key)).value.apiKey == config[e].keys[|old(KeysUsed(calls, e))| % |config[e].keys|]
      ensures r.Ok? ==> Fresh(key, now) && transient[key].payload == r.value
    {
      if key in transient && now < transient[key].expires {
        return Ok(transient[key].payload);
      }
      var req :- Request(key);
      var e := key.explorer;
      var n := |config[e].keys|;
      ghost var used := |KeysUsed(calls, e)|;
      Rotation.PositionIsDrawsModLength(n, used);
      DrawKeepsCycleOrder(config, cursor, calls, e, req);
      cursor := cursor[e := Rotation.Advance(n, cursor[e])];
      calls := calls + [Call(e, req)];
      r := Received(upstream(req));
      if r.Ok? {
        transient := transient[key := Entry(r.value, now + TTL)];
      }
    }

    /**
     * get_from_upstream: a durable hit is returned with nothing else
     * touched; otherwise the weak_cache answer passes the verification
     * gate and is persisted only when verified.
     */
    method GetFromUpstream(key: CacheKey, now: int, upstream: UpstreamRequest -> Reply) returns (r: Result<Json, Failure>)
      requires Valid()
      modifies this
      ensures Valid()
      ensures r == old(Memoized(key, now, upstream))
      ensures State() == old(AfterGet(key, now, upstream))
      ensures key in old(durable) ==> r == Ok(old(durable[key])) && unchanged(this)
      ensures r.Ok? ==> key in durable && durable[key] == r.value
      ensures r.Err? ==> durable == old(durable)
      ensures !Verification.Supported(key.action) ==> r.Err? && durable == old(durable)
      ensures r == Err(NotVerified) ==> Fresh(key, now) && Ok(transient[key].payload) == old(Fetched(key, now, upstream))
    {
      if key in durable {
        return Ok(durable[key]);
      }
      var fetched := WeakCache(key, now, upstream);
      r := Verification.Gate(key.action, fetched);
      if r.Ok? {
        durable := durable[key := r.value];
      }
    }

    /**
     * cached_api: the request checks first, with no cache access when one
     * fails; then the memoized answer, or on NotVerified the raw response
     * weak_cache now holds.
     */
    method CachedApi(explorer: string, apiModule: string, action: string, address: string,
                     now: int, upstream: UpstreamRequest -> Reply) returns (r: Result<Json, Failure>)
      requires Valid()
      modifies this
      ensures Valid()
      ensures CheckRequest(config, checksum, explorer, apiModule, action, address).Err? ==>
                r == Err(CheckRequest(config, checksum, explorer, apiModule, action, address).error)
                && unchanged(this)
      ensures CheckRequest(config, checksum, explorer, apiModule, action, address).Ok? ==>
                var key := CheckRequest(config, checksum, explorer, apiModule, action, address).value;
                && r == old(Served(key, now, upstream))
                && State() == old(AfterGet(key, now, upstream))
      ensures CheckRequest(config, checksum, explorer, apiModule, action, address).Ok? ==>
                var key := CheckRequest(config, checksum, explorer, apiModule, action, address).value;
                old(Memoized(key, now, upstream)) == Err(NotVerified) ==>
                  && durable == old(durable)
                  && key in transient && r == Ok(transient[key].payload)
      ensures r != Err(NotVerified)
    {
      var checked := CheckRequest(config, checksum, explorer, apiModule, action, address);
      if checked.Err? {
        return Err(checked.error);
      }
      var key := checked.value;
      r := GetFromUpstream(key, now, upstream);
      if r == Err(NotVerified) {
        r := WeakCache(key, now, upstream);
      }
    }

    /**
     * invalidate: one pass over the durable keys, deleting those whose
     * explorer and address equal the arguments and counting the deletions.
     */
    method Invalidate(explorer: string, address: string) returns (deleted: nat)
      requires Valid()
      modifies this
      ensures Valid()
      ensures durable == old(durable) - Matching(old(durable).Keys, explorer, address)
      ensures deleted == |Matching(old(durable).Keys, explorer, address)|
      ensures transient == old(transient) && cursor == old(cursor) && calls == old(calls)
    {
      var store;
      store, deleted := Sweep(durable, explorer, address);
      durable := store;
    }

    /**
     * constructor_args: checksum the address (400), resolve the RPC
     * endpoint (404); then either the on-chain lookup alone, or the
     * explorer's getsourcecode answer (verified or raw) with the on-chain
     * lookup as fallback when its ConstructorArguments is empty.
     */
    method ConstructorArgs(explorer: string, address: string, onChainLookup: bool,
                           creationTxHash: Option<string>, bytecode: Option<string>,
                           now: int, upstream: UpstreamRequest -> Reply, rpc: OnChain.RpcCall -> OnChain.RpcReply)
      returns (r: Result<ArgsReply, Failure>)
      requires Valid()
      modifies this
      ensures Valid()
      ensures checksum(address).None? ==> r == Err(Http(400, "invalid address")) && unchanged(this)
      ensures checksum(address).Some? && ResolveRpcUrl(chains, rpcUrls, explorer).Err? ==>
                r == Err(ResolveRpcUrl(chains, rpcUrls, explorer).error) && unchanged(this)
      ensures checksum(address).Some? && ResolveRpcUrl(chains, rpcUrls, explorer).Ok? && onChainLookup ==>
                var addr, url := checksum(address).value, ResolveRpcUrl(chains, rpcUrls, explorer).value;
                && unchanged(this)
                && r == WithAddress(addr, AsJson(OnChain.Lookup(explorer, url, addr, creationTxHash, bytecode, rpc)))
      ensures checksum(address).Some? && ResolveRpcUrl(chains, rpcUrls, explorer).Ok? && !onChainLookup ==>
                var addr, url := checksum(address).value, ResolveRpcUrl(chains, rpcUrls, explorer).value;
                var key := CacheKey(explorer, ContractModule, Verification.GetSourceCode, addr);
                && State() == old(AfterGet(key, now, upstream))
                && r == WithAddress(addr, SelectArgs(old(Served(key, now, upstream)),
                                                     OnChain.Lookup(explorer, url, addr, creationTxHash, bytecode, rpc)))
    {
      var canonical := checksum(address);
      if canonical.None? {
        return Err(Http(400, "invalid address"));
      }
      var addr := canonical.value;
      var resolved := ResolveRpcUrl(chains, rpcUrls, explorer);
      if resolved.Err? {
        return Err(resolved.error);
      }
      var url := resolved.value;
      if onChainLookup {
        var derived := OnChain.Lookup(explorer, url, addr, creationTxHash, bytecode, rpc);
        return WithAddress(addr, AsJson(derived));
      }
      var key := CacheKey(explorer, ContractModule, Verification.GetSourceCode, addr);
      var res := GetFromUpstream(key, now, upstream);
      if res == Err(NotVerified) {
        res := WeakCache(key, now, upstream);
      }
      if res.Err? {
        return Err(res.error);
      }
      var found := ExplorerArgs(res.value);
      if found.Err? {
        return Err(found.error);
      }
      var args := found.value;
      if !Truthy(args) {
        var derived := OnChain.Lookup(explorer, url, addr, creationTxHash, bytecode, rpc);
        if derived.Err? {
          return Err(derived.error);
        }
        args := Str(derived.value);
      }
      r := Ok(ArgsReply(addr, args));
    }
  }

  /** The reply body of constructor_args around the chosen arguments. */
  function WithAddress(address: string, args: Result<Json, Failure>): Result<ArgsReply, Failure> {
    match args
    case Ok(a) => Ok(ArgsReply(address, a))
    case Err(f) => Err(f)
  }
}
