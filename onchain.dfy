/**
 * constructor_args.py: recover a contract's constructor arguments by
 * cutting the reference bytecode's length off the front of the creation
 * transaction's input. Lengths are counted in hex characters; the prefix
 * itself is never compared with the bytecode.
 */
module OnChain {
  import opened Wrappers
  import opened Failures

  /** A JSON-RPC request to the node at `url`: a method and its single parameter. */
  datatype RpcCall = RpcCall(url: string, rpcMethod: string, param: string)

  /**
   * The node's answer: the HTTP status, and the string a 200 answer holds
   * at result.hash (creator lookup) or result.input (transaction lookup),
   * None when that value is null.
   */
  datatype RpcReply = RpcReply(status: int, field: Option<string>)

  const CreatorMethod := "ots_getContractCreator"
  const TransactionMethod := "eth_getTransactionByHash"

  /** Python's `not s` for an optional string: None and "" are both blank. */
  predicate Blank(s: Option<string>) {
    s.None? || s.value == ""
  }

  /** get_creation_tx: the hash of the transaction that created `address`, per the node. */
  function GetCreationTx(address: string, url: string, rpc: RpcCall -> RpcReply): (hash: Option<string>)
    ensures rpc(RpcCall(url, CreatorMethod, address)).status != 200 ==> hash == None
    ensures rpc(RpcCall(url, CreatorMethod, address)).status == 200 ==>
              hash == rpc(RpcCall(url, CreatorMethod, address)).field
  {
    var reply := rpc(RpcCall(url, CreatorMethod, address));
    if reply.status != 200 then None else reply.field
  }

  /** get_creation_code: the input data of transaction `tx`, per the node. */
  function GetCreationCode(tx: string, url: string, rpc: RpcCall -> RpcReply): (code: Option<string>)
    ensures rpc(RpcCall(url, TransactionMethod, tx)).status != 200 ==> code == None
    ensures rpc(RpcCall(url, TransactionMethod, tx)).status == 200 ==>
              code == rpc(RpcCall(url, TransactionMethod, tx)).field
  {
    var reply := rpc(RpcCall(url, TransactionMethod, tx));
    if reply.status != 200 then None else reply.field
  }

  /** Python's `s[-n:]` for a positive n: the last n characters, or all of s when it is shorter. */
  function LastChars(s: string, n: nat): (tail: string)
    requires n > 0
    ensures |tail| == if n < |s| then n else |s|
    ensures s == s[..|s| - |tail|] + tail
  {
    if n < |s| then s[|s| - n..] else s[..]
  }

  /** The slice at the end of do_on_chain_lookup: the characters of the creation code past the bytecode's length. */
  function ArgsSuffix(creationCode: string, bytecode: string): (args: string)
    ensures |args| == if |creationCode| > |bytecode| then |creationCode| - |bytecode| else 0
    ensures creationCode == creationCode[..|creationCode| - |args|] + args
  {
    var length := |creationCode| - |bytecode|;
    if length > 0 then LastChars(creationCode, length) else ""
  }

  /** The suffix is everything after the first |bytecode| characters of the creation code. */
  lemma ArgsFollowBytecodeLength(creationCode: string, bytecode: string)
    ensures |bytecode| < |creationCode| ==> ArgsSuffix(creationCode, bytecode) == creationCode[|bytecode|..]
    ensures |bytecode| < |creationCode| ==>
              creationCode == creationCode[..|bytecode|] + ArgsSuffix(creationCode, bytecode)
    ensures |bytecode| >= |creationCode| ==> ArgsSuffix(creationCode, bytecode) == ""
  {
    var args := ArgsSuffix(creationCode, bytecode);
    if |bytecode| < |creationCode| {
      assert |creationCode| - |args| == |bytecode|;
      assert creationCode[|bytecode|..] == args by {
        assert creationCode == creationCode[..|bytecode|] + args;
      }
    }
  }

  /** Only the bytecode's length matters, never its content. */
  lemma OnlyBytecodeLengthMatters(creationCode: string, bytecode1: string, bytecode2: string)
    requires |bytecode1| == |bytecode2|
    ensures ArgsSuffix(creationCode, bytecode1) == ArgsSuffix(creationCode, bytecode2)
  {
  }

  /** "aabbccddeeff" against "aabbcc" gives "ddeeff"; a mismatching prefix gives the same. */
  lemma ExampleDiff()
    ensures ArgsSuffix("aabbccddeeff", "aabbcc") == "ddeeff"
    ensures ArgsSuffix("aabbccddeeff", "000000") == "ddeeff"
    ensures ArgsSuffix("aabbcc", "aabbccdd") == ""
  {
    ArgsFollowBytecodeLength("aabbccddeeff", "aabbcc");
  }

  /** The creation transaction: the caller's hash if it is not blank, else the node's answer. */
  function ResolveTx(address: string, url: string, creationTxHash: Option<string>,
                     rpc: RpcCall -> RpcReply): (hash: Option<string>)
    ensures !Blank(creationTxHash) ==> hash == creationTxHash
    ensures Blank(creationTxHash) ==> hash == GetCreationTx(address, url, rpc)
  {
    if Blank(creationTxHash) then GetCreationTx(address, url, rpc) else creationTxHash
  }

  /**
   * do_on_chain_lookup. Guards in order: a non-blank RPC URL (404), a
   * non-blank bytecode (400), a creation transaction (404), its creation
   * code (404); then the suffix of the creation code.
   */
  function Lookup(explorer: string, rpcUrl: Option<string>, address: string,
                  creationTxHash: Option<string>, bytecode: Option<string>,
                  rpc: RpcCall -> RpcReply): (r: Result<string, Failure>)
    ensures Blank(rpcUrl) ==> r == Err(Http(404, "no rpc configured for explorer " + explorer))
    ensures !Blank(rpcUrl) && Blank(bytecode) ==>
              r == Err(Http(400, "no bytecode provided for address " + address))
    ensures !Blank(rpcUrl) && !Blank(bytecode) && Blank(ResolveTx(address, rpcUrl.value, creationTxHash, rpc)) ==>
              r == Err(Http(404, "creation tx not found for address " + address))
    ensures !Blank(rpcUrl) && !Blank(bytecode) && !Blank(ResolveTx(address, rpcUrl.value, creationTxHash, rpc)) ==>
              var tx := ResolveTx(address, rpcUrl.value, creationTxHash, rpc).value;
              Blank(GetCreationCode(tx, rpcUrl.value, rpc)) ==> r == Err(Http(404, "creation code not found for tx " + tx))
    ensures r.Err? ==> Status(r.error) in {400, 404}
    ensures r.Ok? <==>
              !Blank(rpcUrl) && !Blank(bytecode)
              && !Blank(ResolveTx(address, rpcUrl.value, creationTxHash, rpc))
              && !Blank(GetCreationCode(ResolveTx(address, rpcUrl.value, creationTxHash, rpc).value, rpcUrl.value, rpc))
    ensures r.Ok? ==>
              var code := GetCreationCode(ResolveTx(address, rpcUrl.value, creationTxHash, rpc).value, rpcUrl.value, rpc).value;
              && |r.value| == (if |code| > |bytecode.value| then |code| - |bytecode.value| else 0)
              && code == code[..|code| - |r.value|] + r.value
  {
    if Blank(rpcUrl) then Err(Http(404, "no rpc configured for explorer " + explorer))
    else if Blank(bytecode) then Err(Http(400, "no bytecode provided for address " + address))
    else
      var url := rpcUrl.value;
      var tx := ResolveTx(address, url, creationTxHash, rpc);
      if Blank(tx) then Err(Http(404, "creation tx not found for address " + address))
      else
        var code := GetCreationCode(tx.value, url, rpc);
        if Blank(code) then Err(Http(404, "creation code not found for tx " + tx.value))
        else Ok(ArgsSuffix(code.value, bytecode.value))
  }

  /** Without a usable RPC URL or bytecode the node is never consulted. */
  lemma GuardsPrecedeRpc(explorer: string, rpcUrl: Option<string>, address: string,
                         creationTxHash: Option<string>, bytecode: Option<string>,
                         rpc1: RpcCall -> RpcReply, rpc2: RpcCall -> RpcReply)
    requires Blank(rpcUrl) || Blank(bytecode)
    ensures Lookup(explorer, rpcUrl, address, creationTxHash, bytecode, rpc1)
         == Lookup(explorer, rpcUrl, address, creationTxHash, bytecode, rpc2)
  {
  }

  /**
   * With a caller-supplied hash the creator lookup never runs: two nodes
   * that agree on that transaction give the same answer.
   */
  lemma SuppliedHashSkipsCreatorLookup(explorer: string, rpcUrl: Option<string>, address: string,
                                       creationTxHash: Option<string>, bytecode: Option<string>,
                                       rpc1: RpcCall -> RpcReply, rpc2: RpcCall -> RpcReply)
    requires !Blank(rpcUrl) && !Blank(creationTxHash)
    requires rpc1(RpcCall(rpcUrl.value, TransactionMethod, creationTxHash.value))
          == rpc2(RpcCall(rpcUrl.value, TransactionMethod, creationTxHash.value))
    ensures Lookup(explorer, rpcUrl, address, creationTxHash, bytecode, rpc1)
         == Lookup(explorer, rpcUrl, address, creationTxHash, bytecode, rpc2)
  {
  }
}
