/**
 * The request-level logic of app.py that neither touches a cache nor the
 * network: the checks cached_api makes before any cache access, the RPC
 * endpoint resolution of constructor_args, and the choice between the
 * explorer's constructor arguments and the on-chain fallback.
 */
module Endpoints {
  import opened Wrappers
  import opened Failures
  import opened Json
  import Verification

  /** One explorer's entry in config.toml: its API base URL and its API keys. */
  datatype ExplorerConfig = ExplorerConfig(url: string, keys: seq<string>)

  /** The arguments get_from_upstream is memoized on (positions 1 to 4 of its diskcache key). */
  datatype CacheKey = CacheKey(explorer: string, apiModule: string, action: string, address: string)

  /** The body constructor_args returns: {"address": ..., "constructor_args": ...}. */
  datatype ArgsReply = ArgsReply(address: string, constructorArgs: Json)

  const ContractModule := "contract"

  function NoRpcDetail(explorer: string): string {
    "no rpc configured for explorer " + explorer
  }

  /**
   * The checks of cached_api, in order: a configured explorer, the module
   * "contract", a supported action, then an address `checksum` accepts.
   * The key that passes holds the checksummed address.
   */
  function CheckRequest(config: map<string, ExplorerConfig>, checksum: string -> Option<string>,
                        explorer: string, apiModule: string, action: string, address: string)
    : (r: Result<CacheKey, Failure>)
    ensures explorer !in config ==> r == Err(Http(400, "explorer not supported"))
    ensures explorer in config && apiModule != ContractModule ==> r == Err(Http(400, "module not supported"))
    ensures explorer in config && apiModule == ContractModule && !Verification.Supported(action) ==>
              r == Err(Http(400, "action not supported"))
    ensures (explorer in config && apiModule == ContractModule && Verification.Supported(action)
             && checksum(address).None?) ==> r == Err(Http(400, "invalid address"))
    ensures r.Ok? <==> explorer in config && apiModule == ContractModule && Verification.Supported(action)
                       && checksum(address).Some?
    ensures r.Ok? ==> r.value == CacheKey(explorer, apiModule, action, checksum(address).value)
    ensures r.Err? ==> Status(r.error) == 400
  {
    if explorer !in config then Err(Http(400, "explorer not supported"))
    else if apiModule !in [ContractModule] then Err(Http(400, "module not supported"))
    else if action !in [Verification.GetSourceCode, Verification.GetAbi] then Err(Http(400, "action not supported"))
    else match checksum(address)
      case None => Err(Http(400, "invalid address"))
      case Some(canonical) => Ok(CacheKey(explorer, apiModule, action, canonical))
  }

  /**
   * The RPC endpoint for an explorer: none when the explorer has no chain,
   * a 404 when its chain has no URL or a null one, the URL otherwise.
   */
  function ResolveRpcUrl(chains: map<string, int>, rpcUrls: map<int, Option<string>>, explorer: string)
    : (r: Result<Option<string>, Failure>)
    ensures explorer !in chains ==> r == Ok(None)
    ensures r.Err? <==> explorer in chains && (chains[explorer] !in rpcUrls || rpcUrls[chains[explorer]].None?)
    ensures r.Err? ==> r.error == Http(404, NoRpcDetail(explorer))
    ensures r.Ok? && explorer in chains ==> r.value.Some? && r.value == rpcUrls[chains[explorer]]
  {
    if explorer !in chains then Ok(None)
    else
      var chainId := chains[explorer];
      if chainId !in rpcUrls then Err(Http(404, NoRpcDetail(explorer)))
      else if rpcUrls[chainId] == None then Err(Http(404, NoRpcDetail(explorer)))
      else Ok(rpcUrls[chainId])
  }

  /** A getsourcecode response whose `message` is "OK" and whose `result` is non-empty. */
  predicate ReportsResult(res: Json) {
    && res.Obj? && "message" in res.fields && res.fields["message"] == Str("OK")
    && "result" in res.fields && Length(res.fields["result"]).Ok?
    && Length(res.fields["result"]).value > 0
  }

  /**
   * The explorer's ConstructorArguments, read from a getsourcecode
   * response as constructor_args reads it. When `message` is not "OK", or
   * `result` is absent or empty, `args` is never assigned and reading it
   * raises UnboundLocalError: Err(ArgsUnbound).
   */
  function ExplorerArgs(res: Json): (r: Result<Json, Failure>)
    ensures r == Err(ArgsUnbound) <==>
              res.Obj? && "message" in res.fields
              && (res.fields["message"] != Str("OK") || "result" !in res.fields
                  || Length(res.fields["result"]) == Ok(0))
    ensures r.Ok? <==> ReportsResult(res) && First(res.fields["result"]).Ok?
                       && First(res.fields["result"]).value.Obj?
                       && "ConstructorArguments" in First(res.fields["result"]).value.fields
    ensures r.Ok? && res.fields["result"].Arr? ==>
              r.value == res.fields["result"].items[0].fields["ConstructorArguments"]
    ensures r.Err? && r.error != ArgsUnbound ==> r.error == Malformed
  {
    var message :- Member(res, "message");
    if message == Str("OK") && "result" in res.fields then
      var results := res.fields["result"];
      var count :- Length(results);
      if count > 0 then
        var first :- First(results);
        Member(first, "ConstructorArguments")
      else Err(ArgsUnbound)
    else Err(ArgsUnbound)
  }

  /** An on-chain result as the JSON string it is returned as. */
  function AsJson(derived: Result<string, Failure>): Result<Json, Failure> {
    match derived
    case Ok(s) => Ok(Str(s))
    case Err(f) => Err(f)
  }

  /**
   * The constructor arguments constructor_args answers with when no
   * on-chain lookup was asked for: the explorer's value when it is
   * truthy, the on-chain result when it is empty; failures propagate.
   */
  function SelectArgs(served: Result<Json, Failure>, onChain: Result<string, Failure>): (r: Result<Json, Failure>)
    ensures served.Err? ==> r == Err(served.error)
    ensures served.Ok? && ExplorerArgs(served.value).Err? ==> r == Err(ExplorerArgs(served.value).error)
    ensures served.Ok? && ExplorerArgs(served.value).Ok? && Truthy(ExplorerArgs(served.value).value) ==>
              r == ExplorerArgs(served.value)
    ensures served.Ok? && ExplorerArgs(served.value).Ok? && !Truthy(ExplorerArgs(served.value).value) ==>
              r == AsJson(onChain)
    ensures r.Ok? ==> Truthy(r.value) || r.value.Str?
  {
    var res :- served;
    var args :- ExplorerArgs(res);
    if Truthy(args) then Ok(args)
    else
      var derived :- onChain;
      Ok(Str(derived))
  }

  /** A truthy explorer value is answered whatever the on-chain lookup would give. */
  lemma ExplorerValueWins(served: Result<Json, Failure>, onChain1: Result<string, Failure>,
                          onChain2: Result<string, Failure>)
    requires served.Ok? && ExplorerArgs(served.value).Ok? && Truthy(ExplorerArgs(served.value).value)
    ensures SelectArgs(served, onChain1) == SelectArgs(served, onChain2) == ExplorerArgs(served.value)
  {
  }
}
