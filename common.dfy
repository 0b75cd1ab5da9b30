/** Values shared by the server model: optional request fields and the JSON
    responses of the catalog and cart endpoints. */
module Common {

  /** A request field that may be absent from the JSON body or query string. */
  datatype Option<+T> = None | Some(value: T)

  /** The error statuses the endpoints answer with. */
  datatype Status = BadRequest | NotFound {
    function Code(): int {
      match this
      case BadRequest => 400
      case NotFound => 404
    }
  }

  /** A response: the JSON payload with status 200, or `{"error": message}`
      with an error status. */
  datatype Response<+T> = Ok(value: T) | Err(status: Status, message: string)

  /** Position of the first element whose key is `k`, the one that
      `next(x for x in xs if key(x) == k)` meets first; None when no element
      has that key. */
  function IndexOf<T>(xs: seq<T>, key: T -> int, k: int): (r: Option<nat>)
    ensures r.Some? ==> r.value < |xs| && key(xs[r.value]) == k
    ensures r.Some? ==> forall j :: 0 <= j < r.value ==> key(xs[j]) != k
    ensures r.None? ==> forall j :: 0 <= j < |xs| ==> key(xs[j]) != k
  {
    if xs == [] then None
    else if key(xs[0]) == k then Some(0)
    else
      match IndexOf(xs[1..], key, k)
      case None => None
      case Some(i) => Some(i + 1)
  }

  const ProductIdRequired: string := "Product ID is required"
  const ProductNotFound: string := "Product not found"
}
