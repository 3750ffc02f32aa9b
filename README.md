# etherscan-cache in Dafny

A model of the caching proxy that sits in front of blockchain explorer APIs
(Etherscan and similar) and of its constructor-arguments resolver.

- **Cache gate** (`app.py`). `cached_api` answers `module=contract` queries for
  `getsourcecode` and `getabi`. A query is keyed by (explorer, module, action,
  checksummed address). The service has two caches:
  - the transient cache (`ttl_cache`, one hour) keeps every raw explorer answer;
  - the durable cache (`cache.memoize`) keeps only the answers the
    verification predicate accepts.

  An unverified answer is still served, from the transient cache. API keys are
  spent round-robin per explorer, one key per transient miss. `invalidate`
  deletes the durable entries of one (explorer, address) pair and counts them.
- **Constructor arguments** (`app.py` and `constructor_args.py`).
  `constructor_args` takes the explorer's `ConstructorArguments`. When that value
  is empty, or when an on-chain lookup is requested, it cuts the reference
  bytecode's length off the front of the creation transaction's input instead.

## Layout

- `wrappers.dfy`, module `Wrappers`: `Option` and `Result`.
- `failures.dfy`, module `Failures`: the exceptions the code raises, as one
  datatype, and the HTTP status each one reaches the client with.
- `json.dfy`, module `Json`: decoded JSON, with Python's subscripting, `get`,
  `len` and truthiness. A `KeyError`, `IndexError`, `TypeError` or
  `AttributeError` becomes `Malformed`.
- `verification.dfy`, module `Verification`: the verification predicate and the
  gate in front of the durable cache.
- `rotation.dfy`, module `Rotation`: what `cycle(keys)` hands out, and the proof
  that the i-th key drawn is `keys[i mod |keys|]`.
- `endpoints.dfy`, module `Endpoints`: the pure request logic of `app.py`. This is
  the request checks, the RPC URL resolution and the choice of constructor
  arguments.
- `onchain.dfy`, module `OnChain`: `constructor_args.py`.
- `service.dfy`, module `Service`: class `CacheService`. It holds the durable map,
  the transient map of `Entry(payload, expires)` and the per-explorer cursors,
  plus a ghost log of every request sent upstream. `Valid()` has two parts:
  - the durable cache holds only verified answers;
  - each cursor has handed out exactly the keys the log shows, in cycle order.

  Every method preserves `Valid()`.

The explorer API is a function parameter `upstream: UpstreamRequest -> Reply` of
each request. The JSON-RPC node is `rpc: RpcCall -> RpcReply`. The clock is a
parameter `now`, and a transient entry is served while `now < expires`.
`to_checksum_address` is the service constant `checksum: string -> Option<string>`.

Behaviour of the code that a reader might not expect:
- `invalidate` compares the address exactly as the caller typed it, with no
  checksumming. Durable keys hold checksummed addresses, so a lower-case address
  deletes nothing unless it already is its own checksummed form (an address
  with no hex letters a-f, for example).
- In `constructor_args`, `args` is never assigned when `message` is not "OK" or
  `result` is missing or empty. Reading it then raises `UnboundLocalError`, a
  server error, instead of falling back to the on-chain lookup. The model returns
  `Err(ArgsUnbound)` (`Endpoints.ExplorerArgs`).
- A failed explorer request surfaces as a server error (`Upstream(status)`, HTTP
  500). The upstream status code is not passed through.
- An explorer configured with no keys raises `StopIteration` on its first
  transient miss (`Err(KeysExhausted)`). No explorer is required to have keys.

## Model

| member | source | states |
|---|---|---|
| Verification.IsVerified | app.py:73-78 | getsourcecode is verified iff result[0] is a dict whose SourceCode is present and truthy; it is decidable iff `resp["result"][0]` is a dict. getabi is verified iff result exists and is not the exact string "Contract source code not verified". Any other action raises NotImplemented(action). |
| Verification.Gate | app.py:71-81 | A fetched answer passes unchanged iff the predicate says verified. An unverified answer becomes NotVerified. Fetch failures and predicate exceptions propagate. An unsupported action never passes. |
| Rotation.Advance | app.py:25 | One draw moves the cursor to (pos + 1) mod n and stays in range. |
| Rotation.PositionIsDrawsModLength | app.py:25 | After d draws the cursor of a cycle over n keys is d mod n. |
| Rotation.DrawnCycles | app.py:25 | The i-th key drawn is keys[i mod \|keys\|]. |
| Rotation.ThreeKeysFiveDraws | app.py:25 | Keys [k1,k2,k3] drawn five times give k1,k2,k3,k1,k2. |
| Endpoints.CheckRequest | app.py:86-98 | Checks run in order, each failing with 400 and its own message: explorer configured, module "contract", action getsourcecode or getabi, address checksummable. It succeeds iff all four hold, with the key holding the checksummed address. |
| Endpoints.ResolveRpcUrl | app.py:170-179 | An explorer without a chain gets no URL. A chain with no URL entry, or a null one, gives 404 "no rpc configured for explorer …". Otherwise the chain's URL is used. |
| Endpoints.ExplorerArgs | app.py:190-195 | Err(ArgsUnbound) exactly when message is not "OK" or result is missing or empty. The value is result[0]["ConstructorArguments"] when those lookups succeed; every other failure (a missing message, a result that is not a list, string or dict, a first result that is not a dict) is Malformed, a server error. |
| Endpoints.SelectArgs | app.py:186-199 | A truthy explorer value is returned as is. An empty one is replaced by the on-chain result, whose failure propagates. Explorer failures, including ArgsUnbound, propagate with no fallback. |
| Endpoints.ExplorerValueWins | app.py:195-199 | With a truthy explorer value the answer does not depend on the on-chain lookup at all. |
| OnChain.GetCreationTx | constructor_args.py:5-19 | A non-200 reply to ots_getContractCreator reads as no hash. A 200 reply gives its result.hash. |
| OnChain.GetCreationCode | constructor_args.py:21-35 | A non-200 reply to eth_getTransactionByHash reads as no code. A 200 reply gives its result.input. |
| OnChain.LastChars | constructor_args.py:62-64 | Python `s[-n:]` for n > 0 is a suffix of s of length min(n, \|s\|). |
| OnChain.ArgsSuffix | constructor_args.py:59-66 | The result has length max(0, \|code\| - \|bytecode\|), counted in characters, and is a suffix of the creation code. |
| OnChain.ArgsFollowBytecodeLength | constructor_args.py:59-64 | When the bytecode is shorter, the result is code[\|bytecode\|..] and code == code[..\|bytecode\|] + result. Otherwise the result is "" and nothing is raised. |
| OnChain.OnlyBytecodeLengthMatters | constructor_args.py:59-64 | Two bytecodes of equal length give the same result; the prefix is never compared. |
| OnChain.ExampleDiff | constructor_args.py:59-64 | "aabbccddeeff" against "aabbcc" gives "ddeeff", and against "000000" too. "aabbcc" against "aabbccdd" gives "". |
| OnChain.ResolveTx | constructor_args.py:44-46 | A supplied non-blank hash is used as is. Only a blank one triggers the creator lookup. |
| OnChain.Lookup | constructor_args.py:37-66 | Guards run in order: a blank RPC URL gives 404 even with no bytecode, then blank bytecode gives 400, then no creation tx gives 404, then no creation code gives 404. Every failure the node's modelled replies can cause is 400 or 404. Success holds exactly when all four are present, and the result then has the ArgsSuffix length and suffix property. |
| OnChain.GuardsPrecedeRpc | constructor_args.py:38-42 | With a blank RPC URL or bytecode the node is never consulted: any two nodes give the same answer. |
| OnChain.SuppliedHashSkipsCreatorLookup | constructor_args.py:44-53 | With a supplied hash, two nodes that agree on that transaction give the same answer, so the creator lookup never runs. |
| Service.DrawKeepsCycleOrder | app.py:60 | Spending the key under the cursor, logging it and advancing the cursor keeps every explorer's keys in cycle order. |
| Service.Sweep | app.py:108-114 | One pass over the durable keys deletes exactly those whose explorer and raw address equal the arguments, keeps every other entry, and counts the deletions. |
| Service.CacheService.constructor | app.py:22-25 | The service starts with empty caches, every cursor at the first key, and the invariant established. |
| Service.CacheService.Request | app.py:54-61 | A request is built exactly when the explorer is configured and has at least one key. It goes to config[explorer].url with the query's module, action and address, and carries the key under the explorer's cursor. An unknown explorer raises MissingConfig before any key is drawn; an empty key list raises KeysExhausted. |
| Service.CacheService.NthFetchUsesKey | app.py:60 | The i-th request ever sent for an explorer used keys[i mod \|keys\|]. |
| Service.CacheService.WeakCache | app.py:51-65 | An unexpired transient entry is returned with no state change: no request, no key spent. A miss sends one request with the next key, keys[n mod \|keys\|] for the n-th request, and stores a successful answer for an hour whether verified or not. Failures store nothing. The durable cache is untouched. |
| Service.CacheService.GetFromUpstream | app.py:68-81 | A durable hit returns the stored answer and changes nothing at all. Otherwise the weak answer passes the gate: a verified one is persisted and returned; anything else leaves the durable cache as it was. An unsupported action never writes it. After NotVerified the raw answer is fresh in the transient cache. The durable-only-verified invariant is kept. |
| Service.CacheService.CachedApi | app.py:84-103 | A failed request check returns its 400 with no cache access. Otherwise it serves the memoized answer. On NotVerified it leaves the durable cache unchanged and returns the payload the transient cache holds for the key. NotVerified never reaches the client. |
| Service.CacheService.Invalidate | app.py:106-114 | The durable cache loses exactly the keys matching (explorer, raw address), and the count returned is their number. The transient cache, cursors and request log are unchanged. |
| Service.CacheService.ConstructorArgs | app.py:161-199 | Checks run in order: a bad address gives 400, then a missing RPC URL gives 404. With on_chain_lookup the answer is the on-chain result and no cache or explorer is touched. Otherwise the explorer's getsourcecode answer (verified or raw) is chosen by SelectArgs, with the on-chain lookup as fallback, and the caches change as get_from_upstream changes them. |

## Left out

- Concurrency: the per-key locks of `stampede` (app.py:39-48) and the thread safety of `cycle` and `ttl_cache`. Calls are modelled one after another.
- `cache_stats` (app.py:117-126): hit and miss counters, SQL count and volume of the disk store.
- Eviction: the 10 GB `size_limit` of the disk store and the 128-entry LRU bound of `ttl_cache`. Expired transient entries stay in the map but are never served.
- Configuration loading (toml, app.py:24-33) and Sentry setup (app.py:18-20). The explorer configuration, `CHAINS` and `RPC_URLS` are given maps, so `RPC_URLS` may lack a chain or hold a null URL.
- HTTP transport: `requests.get`/`requests.post`, the user-agent header, `raise_for_status` and JSON decoding. The explorer is an oracle answering with a decoded body or a failure; FastAPI routing and query parsing are left out too.
- `to_checksum_address` (Keccak-based): an abstract function returning `Option`.
- Persistence across restarts: the service starts with an empty durable cache.
- Time within one request: a request runs at a single instant `now`, so the fallback `weak_cache` call after NotVerified always finds the entry just stored.
- JSON floating-point numbers: numbers are integers.
- The `print` logging in weak_cache (app.py:53).
- OnChain.GetCreationTx: a 200 reply whose `result` is missing (a JSON-RPC error reply, as from a node without `ots_getContractCreator`) or not an object makes Python raise a server error; the model receives the extracted string or None.
- OnChain.GetCreationCode: a 200 reply whose `result` is missing (a JSON-RPC error reply), null (an unknown transaction) or not an object makes Python raise a server error; the model receives the extracted string or None.
- Service.CacheService.Invalidate: the pass deletes from a copy of the durable map (`Service.Sweep`), which is written back once. With calls sequential, nothing else can observe the difference.
