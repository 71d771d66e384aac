/** Values exchanged by the service-registry REST helper: the request a caller
    describes, the request that goes out on the wire, and the result handed to
    the caller's response handler. */
module Types {

  datatype Option<+T> = None | Some(value: T)

  /** One byte of a request body. */
  newtype byte = x: int | 0 <= x < 256

  /** The HTTP methods of the transport library; `httpDo` accepts any of them,
      the four entry points use GET, POST, PUT and DELETE. */
  datatype HttpMethod = OPTIONS | GET | HEAD | POST | PUT | DELETE | TRACE | CONNECT | PATCH | OTHER

  /** The registry endpoint a request is sent to. */
  datatype IpPort = IpPort(hostOrIp: string, port: int)

  /** One entry of a string-to-string map or of a header multimap, as met
      when the map is iterated. */
  datatype Entry = Entry(key: string, value: string)

  /** What the caller supplies besides method, address and URI. A map given
      as `seq<Entry>` lists its entries in the map's iteration order; `None`
      stands for a null reference. The query string is already encoded. */
  datatype RequestParam = RequestParam(
    queryParams: string,
    headers: Option<seq<Entry>>,
    cookies: Option<seq<Entry>>,
    body: Option<seq<byte>>)

  /** The full intent of one call; a `None` address is a null `IpPort`. */
  datatype RequestContext = RequestContext(
    httpMethod: HttpMethod,
    ipPort: Option<IpPort>,
    uri: string,
    params: RequestParam)

  /** The two configuration values the helper reads from the registry
      configuration: the tenant name and the request timeout. */
  datatype RegistryConfig = RegistryConfig(tenantName: string, requestTimeout: int)

  /** The request handed to the pooled HTTP client: method, port, host, URL,
      the header multimap in its iteration order, the armed timeout, and the
      body passed to `end` (`None` when `end()` is called without one). */
  datatype Request = Request(
    httpMethod: HttpMethod,
    port: int,
    hostOrIp: string,
    url: string,
    headers: seq<Entry>,
    timeout: int,
    body: Option<seq<byte>>)

  /** What `httpDo` does with a context: answer without building a request,
      or send one. */
  datatype Outgoing = ShortCircuit | Send(request: Request)

  /** An opaque live response of the transport; its status and body are not
      looked at by the helper. */
  datatype ResponseHandle = ResponseHandle(id: nat)

  /** What the response handler receives: the originating context and the
      response, absent on every failure path. */
  datatype RestResponse = RestResponse(requestContext: RequestContext, response: Option<ResponseHandle>)
}
