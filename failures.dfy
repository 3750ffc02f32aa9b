/**
 * The exceptions the service raises, as values. Every failure that is not an
 * HTTPException raised on purpose reaches the client as a server error (500).
 */
module Failures {

  datatype Failure =
    | Http(status: int, detail: string)  // HTTPException(status, detail) raised by the service
    | NotVerified                        // ContractNotVerified, raised by get_from_upstream and always caught
    | NotImplemented(action: string)     // NotImplementedError(action) from the verification predicate
    | Upstream(status: int)              // raise_for_status() or a body that is not JSON
    | Malformed                          // KeyError, IndexError, TypeError or AttributeError on a payload
    | MissingConfig                      // KeyError on config[explorer]
    | KeysExhausted                      // StopIteration from cycling over an empty key list
    | ArgsUnbound                        // UnboundLocalError: `args` read before assignment

  /** The HTTP status the client sees for a failure that propagates out of an endpoint. */
  function Status(f: Failure): int
  {
    match f
    case Http(s, _) => s
    case NotVerified => 404
    case _ => 500
  }
}
