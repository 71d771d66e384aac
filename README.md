# Registry REST helper: request building

This project models the request-building core of the service-registry
client's HTTP helper (`RestUtils`). `httpDo` takes a request context and a
response handler. Every path runs inside the callback that `httpDo` schedules
on the pooled client's context. When the context has no address, the handler
gets an empty response and no request is built. Otherwise one outgoing
request is built:

- the URL, from the URI and the pre-encoded query string;
- the header multimap, in three layers: defaults plus authentication headers
  (added), then the caller's headers (set), then the `Cookie` header (set);
- the body, sent only for methods other than GET.

The handler then receives a `RestResponse` pairing the context with the
transport's response, or with no response on failure.

Modules:

- `Types` (`types.dfy`): the entities as datatypes. These are the method, the
  address, the request parameters, the request context, the registry
  configuration values, the outgoing request and the `RestResponse`.
- `Headers` (`headers.dfy`): the transport library's case-insensitive header
  multimap. The `HeaderMultiMap` class has `Add`, `AddAll` and `Set`. Pure
  functions (`GetAll`, `Removed`, `Replaced`, `PutAll`, `LastValue`) specify it.
- `Auth` (`auth.dfy`): merging the authentication providers' maps with
  `putAll`, and iterating the merged hash map in an unspecified order.
- `RestUtils` (`rest_utils.dfy`): URL composition, the cookie header, the body
  decision, default headers, `BuildRequest` (the specification of one
  dispatch), `HttpDo` (the step-by-step method proved against it),
  `CreateRequestContext` and the four method-fixing entry points.

`HttpDo` is a method, as the source is imperative. The caller-header loop
calls `Set` on a `HeaderMultiMap` object. The cookie value is built by a loop
that appends to a string. The provider merge is a loop over a local map.
`HttpDo`'s postcondition says its result equals `BuildRequest` applied to the
context, the configuration and the merged authentication headers in the
order they were iterated. That order is unspecified, so `HttpDo` returns it
as a ghost value. The lemmas state what `BuildRequest` guarantees.

Header names are compared the way the transport library's
case-insensitive headers compare them: same length, and equal character by
character after folding ASCII `A`-`Z` to lower case. `set` removes every
entry of the name and appends the new entry at the end. That library is not
part of this model. These two behaviours are taken as its contract.

Two behaviours of the code are worth stating:

- The separator before the query string is `&` only when the URI's last `?`
  is at an index greater than 0. A URI whose only `?` is its first character
  therefore gets a second `?` (`BuildUrlLeadingQuestionMark`).
- Authentication headers are added, not set. A colliding authentication
  header therefore gives the name a second value after the default.

## Model

| member | source | states |
|---|---|---|
| `Headers.HeaderMultiMap.Add` | service-registry/src/main/java/io/servicecomb/serviceregistry/client/http/RestUtils.java:135-138 | `add` appends one entry: the name gains the value at the end and every other name keeps its values |
| `Headers.HeaderMultiMap.AddAll` | service-registry/src/main/java/io/servicecomb/serviceregistry/client/http/RestUtils.java:129-131 | `addAll` appends every entry in order and keeps what was there |
| `Headers.HeaderMultiMap.Set` | service-registry/src/main/java/io/servicecomb/serviceregistry/client/http/RestUtils.java:94 | `putHeader` leaves exactly the new value under the name and changes no other name |
| `Headers.ReplacedGetAll` | service-registry/src/main/java/io/servicecomb/serviceregistry/client/http/RestUtils.java:94 | after `set(name, v)`, the name (in any letter case) holds `[v]` and every other name keeps its values |
| `Headers.AddedGetAll` | service-registry/src/main/java/io/servicecomb/serviceregistry/client/http/RestUtils.java:130 | after `add(name, v)`, the name's values are the old ones followed by `v`; other names are unchanged |
| `Headers.PutAllGetAll` | service-registry/src/main/java/io/servicecomb/serviceregistry/client/http/RestUtils.java:92-96 | after the caller-header loop, a name the caller used holds exactly the caller's last value for it; a name the caller did not use keeps its earlier values |
| `Headers.LastValue` | service-registry/src/main/java/io/servicecomb/serviceregistry/client/http/RestUtils.java:93-95 | there is no caller value for a name exactly when no caller header has that name |
| `Headers.LastValueIsLast` | service-registry/src/main/java/io/servicecomb/serviceregistry/client/http/RestUtils.java:93-95 | the caller value of a name is the one of the entry that no later entry of the same name follows |
| `Auth.MergeAll` | service-registry/src/main/java/io/servicecomb/serviceregistry/client/http/RestUtils.java:161-165 | the merged map holds every provider's keys, and every entry of the last provider visited |
| `Headers.GetAllAppend` | service-registry/src/main/java/io/servicecomb/serviceregistry/client/http/RestUtils.java:130 | a name's values in two concatenated header lists are its values in the first followed by those in the second |
| `Auth.MergeAllKeys` | service-registry/src/main/java/io/servicecomb/serviceregistry/client/http/RestUtils.java:161-165 | the merged authentication map has a key exactly when some provider supplies it |
| `Auth.MergeAllLastWins` | service-registry/src/main/java/io/servicecomb/serviceregistry/client/http/RestUtils.java:161-165 | on a key several providers supply, the merged map holds the value of the last provider visited |
| `Auth.AuthHeaders` | service-registry/src/main/java/io/servicecomb/serviceregistry/client/http/RestUtils.java:161-165 | the `putAll` loop over the providers yields the merged map |
| `Auth.EntriesOf` | service-registry/src/main/java/io/servicecomb/serviceregistry/client/http/RestUtils.java:138 | iterating the merged map lists each of its entries exactly once, in some order |
| `Auth.AuthValueOf` | service-registry/src/main/java/io/servicecomb/serviceregistry/client/http/RestUtils.java:138 | a merged key that no other key matches ignoring case contributes exactly its value under that header name |
| `RestUtils.LastIndexOf` | service-registry/src/main/java/io/servicecomb/serviceregistry/client/http/RestUtils.java:69 | `lastIndexOf` is -1 when the character is absent, otherwise the index of its last occurrence |
| `RestUtils.BuildUrl` | service-registry/src/main/java/io/servicecomb/serviceregistry/client/http/RestUtils.java:66-71 | an empty query leaves the URI unchanged; otherwise the URL is the URI, one separator and the query, and the separator is `&` exactly when the URI has a `?` after its first character, else `?` |
| `RestUtils.BuildUrlExamples` | service-registry/src/main/java/io/servicecomb/serviceregistry/client/http/RestUtils.java:66-71 | `/v1/foo` + `a=1` gives `/v1/foo?a=1`; `/v1/foo?x=2` + `a=1` gives `/v1/foo?x=2&a=1`; an empty query leaves the URI unchanged |
| `RestUtils.BuildUrlLeadingQuestionMark` | service-registry/src/main/java/io/servicecomb/serviceregistry/client/http/RestUtils.java:69 | `?x=2` + `a=1` gives `?x=2?a=1`, because the test is `> 0` |
| `RestUtils.CookieText` | service-registry/src/main/java/io/servicecomb/serviceregistry/client/http/RestUtils.java:100-106 | the cookie value's length is the sum of the `key=value; ` pieces, and a non-empty value ends with `; ` |
| `RestUtils.CookieTextPiece` | service-registry/src/main/java/io/servicecomb/serviceregistry/client/http/RestUtils.java:101-106 | each cookie's `key=value; ` stands in the value right after the pieces of the cookies before it in iteration order |
| `RestUtils.CookieHeaderValue` | service-registry/src/main/java/io/servicecomb/serviceregistry/client/http/RestUtils.java:100-106 | the string-builder loop produces exactly the concatenation of the pieces |
| `RestUtils.OutgoingBody` | service-registry/src/main/java/io/servicecomb/serviceregistry/client/http/RestUtils.java:111-115 | a body goes out exactly when the method is not GET and the body is non-null and non-empty, and then it is the caller's bytes unchanged |
| `RestUtils.DefaultHeaders` | service-registry/src/main/java/io/servicecomb/serviceregistry/client/http/RestUtils.java:133-139 | the default list is `Content-Type`, `User-Agent`, then `x-domain-name` with the tenant, followed by the authentication headers unchanged and in order |
| `RestUtils.DefaultHeadersPresent` | service-registry/src/main/java/io/servicecomb/serviceregistry/client/http/RestUtils.java:133-139 | `Content-Type: application/json`, `User-Agent: cse-serviceregistry-client/1.0.0` and `x-domain-name: <tenant>` are always present and first under their names; an authentication header of the same name only adds values after them |
| `RestUtils.DefaultHeadersOther` | service-registry/src/main/java/io/servicecomb/serviceregistry/client/http/RestUtils.java:133-139 | any other name has exactly the authentication headers' values |
| `RestUtils.BuildRequest` | service-registry/src/main/java/io/servicecomb/serviceregistry/client/http/RestUtils.java:52-116 | no request is built exactly when the address is null; a built request has the context's method, host and port and the configured timeout |
| `RestUtils.RequestHeaders` | service-registry/src/main/java/io/servicecomb/serviceregistry/client/http/RestUtils.java:89-108 | with cookies the last header is the `Cookie` header built from them; without cookies it is the caller's last header, and with neither the list is exactly the defaults and the authentication headers |
| `RestUtils.RequestHeaderValues` | service-registry/src/main/java/io/servicecomb/serviceregistry/client/http/RestUtils.java:89-108 | header precedence for every name: the cookie header when cookies are given, else the caller's value when the caller named the header, else the default and authentication values untouched |
| `RestUtils.CallerHeaderWins` | service-registry/src/main/java/io/servicecomb/serviceregistry/client/http/RestUtils.java:92-96 | a header the caller sets ends with exactly one value, the caller's, whatever the defaults and the providers put there |
| `RestUtils.CookieHeaderWins` | service-registry/src/main/java/io/servicecomb/serviceregistry/client/http/RestUtils.java:99-108 | with cookies, the request has a single `Cookie` value built from them, replacing any caller `Cookie` header |
| `RestUtils.DefaultContentTypeKept` | service-registry/src/main/java/io/servicecomb/serviceregistry/client/http/RestUtils.java:90-96 | when the caller does not name `Content-Type`, the request keeps `application/json` first under it |
| `RestUtils.PlainRequestHeaders` | service-registry/src/main/java/io/servicecomb/serviceregistry/client/http/RestUtils.java:89-108 | with no caller headers and no cookies, the request headers are exactly the defaults followed by the authentication headers |
| `RestUtils.Complete` | service-registry/src/main/java/io/servicecomb/serviceregistry/client/http/RestUtils.java:59-63 | the handler's `RestResponse` always carries the original context, and it has a response only when a request was sent and the transport answered |
| `RestUtils.RequestHeadersOf` | service-registry/src/main/java/io/servicecomb/serviceregistry/client/http/RestUtils.java:89-108 | the in-place header steps (add defaults, set each caller header, set the cookie) produce the specified header list |
| `RestUtils.HttpDo` | service-registry/src/main/java/io/servicecomb/serviceregistry/client/http/RestUtils.java:52-117 | with a null address nothing is sent and the handler gets the context with no response; otherwise the request sent is `BuildRequest` for the merged authentication headers in their iteration order, and the handler gets the transport's outcome |
| `RestUtils.CreateRequestContext` | service-registry/src/main/java/io/servicecomb/serviceregistry/client/http/RestUtils.java:119-127 | the context holds exactly the given method, address, URI and parameters |
| `RestUtils.Get` | service-registry/src/main/java/io/servicecomb/serviceregistry/client/http/RestUtils.java:141-144 | dispatches a context with method GET and the given address, URI and parameters |
| `RestUtils.Post` | service-registry/src/main/java/io/servicecomb/serviceregistry/client/http/RestUtils.java:146-149 | dispatches a context with method POST and the given address, URI and parameters |
| `RestUtils.Put` | service-registry/src/main/java/io/servicecomb/serviceregistry/client/http/RestUtils.java:151-154 | dispatches a context with method PUT and the given address, URI and parameters |
| `RestUtils.Delete` | service-registry/src/main/java/io/servicecomb/serviceregistry/client/http/RestUtils.java:156-159 | dispatches a context with method DELETE and the given address, URI and parameters |

## Left out

- The pooled Vert.x transport: getting a client, `runOnContext`, `request` and `end`. These are foreign calls. The model returns the outgoing request as a value, and the transport's outcome is an input: `Some` response, or `None`.
- Timeout arming and the exception handler. The timeout value is recorded in the outgoing request. A timeout or a transport exception is the `None` outcome.
- `HttpDo`: it does not claim the handler runs exactly once. It gives the single result of the path taken. Whether the transport can call both the response and the exception callbacks is up to the transport.
- Logging on the null-address and failure paths.
- `ServiceLoader` discovery of authentication providers. The providers are an input sequence of maps, each being one provider's `authHeaders()` result, in discovery order.
- The registry configuration singleton. The tenant name and the request timeout are passed in as `RegistryConfig`.
- `RequestParam`, `RequestContext`, `RestResponse`, `IpPort` and the Vert.x header classes are defined outside `RestUtils.java`. They are modelled from how `RestUtils` uses them. A Java map is given as its entries in iteration order, and `null` is `None`. `getQueryParams()` is taken as the already-encoded string, never null.
- Header values are not checked for illegal characters. The transport library may reject them, and this code does not look.
- Nulls other than whole maps are not modelled: a null parameter object (the source then throws before any request is built), a null URI, and null keys or values inside the header and cookie maps (a null cookie value is appended as the text `null`).
