/** The default `executeDataSource` of `BaseRepositoryProtocol`: map the input
    entity to a request, run the call, map the response to the output entity,
    stopping at the first stage that throws. */
module Repository {
  import opened Wrappers

  /** `executeDataSource(mapper:data:call:)`, with the mapper's two
      conversions passed as the throwing functions `mapRequest` and
      `mapResponse`. */
  function ExecuteDataSource<I, Req, Resp, O, E>(
    mapRequest: I -> Result<Req, E>,
    call: Req -> Result<Resp, E>,
    mapResponse: Resp -> Result<O, E>,
    data: I)
    : (r: Result<O, E>)
    ensures mapRequest(data).Failure? ==> r == Failure(mapRequest(data).error)
    ensures mapRequest(data).Success? && call(mapRequest(data).value).Failure? ==>
              r == Failure(call(mapRequest(data).value).error)
    ensures mapRequest(data).Success? && call(mapRequest(data).value).Success? ==>
              r == mapResponse(call(mapRequest(data).value).value)
  {
    var request :- mapRequest(data);
    var response :- call(request);
    mapResponse(response)
  }

  /** A failing `mapRequest` decides the outcome alone: neither `call` nor
      `mapResponse` has any say, as when they are never invoked. */
  lemma MapRequestFailureShortCircuits<I, Req, Resp, O, E>(
    mapRequest: I -> Result<Req, E>,
    call1: Req -> Result<Resp, E>, call2: Req -> Result<Resp, E>,
    mapResponse1: Resp -> Result<O, E>, mapResponse2: Resp -> Result<O, E>,
    data: I)
    requires mapRequest(data).Failure?
    ensures ExecuteDataSource(mapRequest, call1, mapResponse1, data)
            == ExecuteDataSource(mapRequest, call2, mapResponse2, data)
  {
  }

  /** A failing `call` decides the outcome without `mapResponse`. */
  lemma CallFailureShortCircuits<I, Req, Resp, O, E>(
    mapRequest: I -> Result<Req, E>, call: Req -> Result<Resp, E>,
    mapResponse1: Resp -> Result<O, E>, mapResponse2: Resp -> Result<O, E>,
    data: I)
    requires mapRequest(data).Success? && call(mapRequest(data).value).Failure?
    ensures ExecuteDataSource(mapRequest, call, mapResponse1, data)
            == ExecuteDataSource(mapRequest, call, mapResponse2, data)
  {
  }

  /** `call` sees only the request `mapRequest` produced: two calls that agree
      on it give the same outcome. */
  lemma CallSeesOnlyMappedRequest<I, Req, Resp, O, E>(
    mapRequest: I -> Result<Req, E>,
    call1: Req -> Result<Resp, E>, call2: Req -> Result<Resp, E>,
    mapResponse: Resp -> Result<O, E>,
    data: I)
    requires mapRequest(data).Success?
    requires call1(mapRequest(data).value) == call2(mapRequest(data).value)
    ensures ExecuteDataSource(mapRequest, call1, mapResponse, data)
            == ExecuteDataSource(mapRequest, call2, mapResponse, data)
  {
  }
}
