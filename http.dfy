/**
 * The HTTP exchange with the provider, reduced to values. A tool builds a
 * `Request`; the provider (an argument of every tool) answers it with an
 * `Exchange`: either a response whose body has already been decoded by
 * `response.json()`, or the message of the exception `requests.get` raised.
 */
module Http {
  import opened Json
  import opened Python

  /** The provider's query endpoint, shared by every tool. */
  const BaseUrl := "https://www.alphavantage.co/query"

  /**
   * `requests.get(url, params=params, timeout=timeout)`. A Python dict value
   * of `None` is kept as `None` here; how requests serialises it is not modelled.
   */
  datatype Request = Request(url: string, params: map<string, Option<string>>, timeout: Option<nat>)

  datatype HttpResponse = HttpResponse(status: nat, reason: string, url: string, body: Json)

  datatype Exchange =
    | Answered(response: HttpResponse)
    | Unreachable(message: string)

  /** The provider as seen by a tool: a total function from request to exchange. */
  type Provider = Request -> Exchange

  /** `requests.get(...)`: an unreachable provider raises a `RequestException`. */
  function Get(exchange: Exchange): (r: Py<HttpResponse>)
    ensures exchange.Answered? ==> r == Returns(exchange.response)
    ensures exchange.Unreachable? ==> r == Raises(RequestFailure(exchange.message))
  {
    match exchange
    case Answered(response) => Returns(response)
    case Unreachable(message) => Raises(RequestFailure(message))
  }

  /** `response.raise_for_status()`: raises exactly for the 4xx and 5xx statuses. */
  function RaiseForStatus(response: HttpResponse): (r: Py<HttpResponse>)
    ensures r.Raises? <==> 400 <= response.status < 600
    ensures r.Returns? ==> r.value == response
    ensures r.Raises? ==> r.exception.IsRequestException()
  {
    if 400 <= response.status < 600 then Raises(HTTPError(response.status, response.reason, response.url))
    else Returns(response)
  }
}
