/**
 * The abstract transport that stands in for the axios instance and the Drupal
 * backend behind it. A request is answered by a total function: either the
 * `data` member of the JSON:API document, or an error carrying the HTTP status
 * (absent when no response arrived) and the error's message.
 */
module Http {
  import opened Wrappers
  import opened DrupalTypes

  /** A query-parameter value: axios serialises numbers and strings alike. */
  datatype Param = Num(n: nat) | Text(s: string)

  /** One GET request: the instance's base URL, the relative path, the query parameters and the headers. */
  datatype Request = Request(
    baseURL: string,
    path: string,
    params: map<string, Param>,
    headers: map<string, string>)

  /** A failed request: `error.response?.status` and `error.message`. */
  datatype HttpError = HttpError(status: Option<int>, message: string)

  /** The transport oracle, at the two response shapes the client asks for. */
  datatype Transport = Transport(
    getNodes: Request -> Result<PrimaryData<DrupalNode>, HttpError>,
    getNodeTypes: Request -> Result<PrimaryData<NodeTypeResource>, HttpError>)
}
