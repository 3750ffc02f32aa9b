/**
 * The verification predicate of app.py and the gate it puts in front of the
 * durable cache: only a response the predicate accepts may be persisted.
 */
module Verification {
  import opened Wrappers
  import opened Failures
  import opened Json

  const GetSourceCode := "getsourcecode"
  const GetAbi := "getabi"

  /** The `result` an explorer sends for an ABI query about an unverified contract. */
  const NotVerifiedSentinel := "Contract source code not verified"

  predicate Supported(action: string) {
    action == GetSourceCode || action == GetAbi
  }

  /** The first entry of `result` is a dict whose SourceCode is present and truthy. */
  predicate HasSourceCode(resp: Json) {
    && resp.Obj? && "result" in resp.fields
    && resp.fields["result"].Arr? && resp.fields["result"].items != []
    && resp.fields["result"].items[0].Obj?
    && "SourceCode" in resp.fields["result"].items[0].fields
    && Truthy(resp.fields["result"].items[0].fields["SourceCode"])
  }

  /** Python's `resp["result"][0].get(...)` gets as far as the `get` call. */
  predicate SourceCodeReadable(resp: Json) {
    && resp.Obj? && "result" in resp.fields
    && First(resp.fields["result"]).Ok?
    && First(resp.fields["result"]).value.Obj?
  }

  /**
   * Whether `resp` is the answer about a verified contract: Ok(true) or
   * Ok(false), or the exception raised while deciding.
   */
  function IsVerified(action: string, resp: Json): (r: Result<bool, Failure>)
    ensures !Supported(action) ==> r == Err(NotImplemented(action))
    ensures action == GetSourceCode ==> (r == Ok(true) <==> HasSourceCode(resp))
    ensures action == GetSourceCode ==> (r.Ok? <==> SourceCodeReadable(resp))
    ensures action == GetAbi ==> (r.Ok? <==> resp.Obj? && "result" in resp.fields)
    ensures action == GetAbi ==>
              (r == Ok(true) <==> resp.Obj? && "result" in resp.fields
                                  && resp.fields["result"] != Str(NotVerifiedSentinel))
    ensures r.Err? && Supported(action) ==> r.error == Malformed
  {
    if action == GetSourceCode then
      var result :- Member(resp, "result");
      var entry :- First(result);
      var source :- Get(entry, "SourceCode");
      Ok(Truthy(source))
    else if action == GetAbi then
      var result :- Member(resp, "result");
      Ok(result != Str(NotVerifiedSentinel))
    else
      Err(NotImplemented(action))
  }

  /**
   * The body of get_from_upstream after its weak_cache call: a fetched
   * response passes only when it is verified; an unverified one becomes
   * NotVerified; every other failure propagates.
   */
  function Gate(action: string, fetched: Result<Json, Failure>): (r: Result<Json, Failure>)
    ensures r.Ok? <==> fetched.Ok? && IsVerified(action, fetched.value) == Ok(true)
    ensures r.Ok? ==> r.value == fetched.value
    ensures fetched.Ok? ==> (r == Err(NotVerified) <==> IsVerified(action, fetched.value) == Ok(false))
    ensures fetched.Err? ==> r == fetched
    ensures !Supported(action) ==> r.Err?
  {
    match fetched
    case Err(f) => Err(f)
    case Ok(resp) =>
      match IsVerified(action, resp)
      case Err(f) => Err(f)
      case Ok(verified) => if verified then Ok(resp) else Err(NotVerified)
  }
}
