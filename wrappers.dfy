/**
 * Small value types shared by every module: an optional value, and the
 * outcome of a call into the remote fulfilment web service, which either
 * returns a response object or throws.
 */
module Wrappers {

  datatype Option<T> = None | Some(value: T)
  {
    function GetOr(default: T): (r: T)
      ensures this.Some? ==> r == value
      ensures this.None? ==> r == default
    {
      match this
      case Some(v) => v
      case None => default
    }
  }

  /** What a remote call did: it returned a response, or it threw an exception with a message. */
  datatype Outcome<T> = Returned(response: T) | Threw(message: string)

  /**
   * The service classes wrap every remote call in try/catch and
   * return null when the call throws; a returned response object is
   * always non-empty.
   */
  function Catch<T>(o: Outcome<T>): (r: Option<T>)
    ensures r.None? <==> o.Threw?
    ensures r.Some? ==> r.value == o.response
  {
    match o
    case Returned(v) => Some(v)
    case Threw(_) => None
  }
}
