/**
  The parts of the host pipeline the middleware touches: the response's
  status and headers, the request context, and the factory that hands out a
  context's temp data.
*/
module Http {
  import opened Wrappers
  import opened TempData

  /** Response headers by name, each with one value. */
  type Headers = map<string, string>

  const LocationHeader := "Location"

  /** The exceptions the modelled code can throw. */
  datatype Error =
    | ArgumentNull(paramName: string)   // ArgumentNullException
    | DuplicateHeader(name: string)     // ArgumentException from Headers.Add

  /** A response as the handler left it: its status code and headers. */
  datatype Response = Response(statusCode: int, headers: Headers)

  /** `(string)headers[name]`: the header's value, or null when the header is absent. */
  function HeaderValue(headers: Headers, name: string): (r: Option<string>)
    ensures r == None <==> name !in headers
    ensures r.Some? ==> r.value == headers[name]
  {
    if name in headers then Some(headers[name]) else None
  }

  /**
    `headers.Add(name, value)`: throws when a header of that name exists.
    A header added with a null value carries no value, so it does not show
    in the map.
  */
  function AddHeader(headers: Headers, name: string, value: Option<string>): (r: Result<Headers, Error>)
    ensures r.Failure? <==> name in headers
    ensures r.Failure? ==> r.error == DuplicateHeader(name)
    ensures r.Success? ==> HeaderValue(r.value, name) == value
    ensures r.Success? ==> forall n :: n != name ==> HeaderValue(r.value, n) == HeaderValue(headers, n)
  {
    if name in headers then Failure(DuplicateHeader(name))
    else if value.Some? then Success(headers[name := value.value])
    else Success(headers)
  }

  class HttpResponse {
    var statusCode: int
    var headers: Headers

    function Value(): Response
      reads this
    {
      Response(statusCode, headers)
    }

    constructor (statusCode: int, headers: Headers)
      ensures Value() == Response(statusCode, headers)
    {
      this.statusCode, this.headers := statusCode, headers;
    }

    /** `Headers.Add(name, value)` */
    method Add(name: string, value: Option<string>) returns (outcome: Outcome<Error>)
      modifies this`headers
      ensures AddHeader(old(headers), name, value).Success? ==>
                headers == AddHeader(old(headers), name, value).value && outcome == Pass
      ensures AddHeader(old(headers), name, value).Failure? ==>
                headers == old(headers) && outcome == Fail(AddHeader(old(headers), name, value).error)
    {
      var added := AddHeader(headers, name, value);
      if added.Success? {
        headers := added.value;
        outcome := Pass;
      } else {
        outcome := Fail(added.error);
      }
    }
  }

  /** One request/response cycle together with the temp data of its client. */
  class HttpContext {
    const response: HttpResponse
    const tempData: TempDataDictionary

    constructor (response: HttpResponse, tempData: TempDataDictionary)
      ensures this.response == response && this.tempData == tempData
    {
      this.response, this.tempData := response, tempData;
    }
  }

  /**
    Stands in for the framework's factory, which keeps one temp-data
    dictionary per context: here the context carries its dictionary.
  */
  class TempDataDictionaryFactory {
    constructor ()
    {
    }

    method GetTempData(context: HttpContext) returns (tempData: TempDataDictionary)
      ensures tempData == context.tempData
    {
      tempData := context.tempData;
    }
  }
}
