/** The closed taxonomy of HTTP failures of the data layer (`RequestError`). */
module RequestErrors {
  import opened Wrappers

  const HttpUnauthorized: int := 401
  const HttpNotFound: int := 404

  /** The cases of the Swift enum `RequestError`. */
  datatype RequestError =
    | InvalidURL
    | StatusCode(code: int)
    | Unauthorized
    | NotFound
    | Fail

  /** The status code an error stands for, if any: the inverse of `Build`. */
  function StatusOf(e: RequestError): Option<int> {
    match e
    case InvalidURL => None
    case StatusCode(c) => Some(c)
    case Unauthorized => Some(HttpUnauthorized)
    case NotFound => Some(HttpNotFound)
    case Fail => None
  }

  /** The errors `Build` can produce: never `InvalidURL`, and `StatusCode`
      never carries one of the codes that have a dedicated case. */
  predicate Classified(e: RequestError) {
    match e
    case InvalidURL => false
    case StatusCode(c) => c != HttpUnauthorized && c != HttpNotFound
    case _ => true
  }

  /** `RequestError.build(from:)`: classifies an optional HTTP status code. */
  function Build(statusCode: Option<int>): (e: RequestError)
    ensures Classified(e)
    ensures StatusOf(e) == statusCode
    ensures e == Fail <==> statusCode.None?
    ensures statusCode == Some(HttpUnauthorized) <==> e == Unauthorized
    ensures statusCode == Some(HttpNotFound) <==> e == NotFound
  {
    match statusCode
    case None => Fail
    case Some(c) =>
      if c == HttpUnauthorized then Unauthorized
      else if c == HttpNotFound then NotFound
      else StatusCode(c)
  }

  /** Every classified error is what `Build` makes of the code it stands for:
      together with `Build`'s contract, `Build` is a bijection between
      optional codes and classified errors. */
  lemma BuildOfStatusOf(e: RequestError)
    requires Classified(e)
    ensures Build(StatusOf(e)) == e
  {
  }
}
