# Drupal MCP server: a Dafny model of the client and the tool router

The server exposes a Drupal site's JSON:API as four tools for an MCP (Model
Context Protocol) assistant. Two pieces hold its logic:

- **`DrupalClient`** (src/drupal-client.ts). The constructor normalises the
  base URL and installs one `Authorization` header. `queryContent`,
  `getNode`, `listContentTypes` and `searchContent` each build one JSON:API
  request, normalise the payload and wrap every failure in a fixed message.
- **The call-tool handler** (src/index.ts). It routes on the tool name,
  projects the client's result to reduced records, serialises them as one
  text block, and turns every error into a response flagged `isError`.

In the model the network is an abstract **transport oracle**, `Http.Transport`.
It is a pair of total functions from a `Request` to either the `data` member
of a JSON:API document or an `HttpError` carrying an optional status and a
message. The request carries the instance's base URL, the relative path, the
query parameters and the headers. The two functions are the same transport
asked for node documents and for content-type documents.

Modules, one per source concern:

| file | module | models |
|---|---|---|
| wrappers.dfy | `Wrappers` | `Option` for optional fields, `Result` for returned-or-thrown |
| types.dfy | `DrupalTypes` | src/types.ts: config, node, JSON:API `data`, tool argument records |
| http.dfy | `Http` | the transport oracle |
| node_json.dfy | `NodeJson` | a node written as the JSON object it is, and read back |
| drupal_client.dfy | `Client` | `DrupalClient`: one specification function per operation (`...Result`) and the class whose methods do what the source does and are proved equal to it |
| client_properties.dfy | `ClientProperties` | what the client promises |
| router.dfy | `Router` | the tool catalog, the projections and `CallTool` |
| router_properties.dfy | `RouterProperties` | what the handler promises |

`DrupalClient` is a class: its constructor assigns `baseUrl` and the HTTP
instance, then adds the `Authorization` header. Its methods change nothing. An
object whose methods may not modify it keeps its headers fixed after
construction. `queryContent` builds its parameter map key by key.
`searchContent` is a loop over the content types with a proved invariant: the
results gathered so far are the concatenation of the successful queries so far.
The router is pure: `CallTool` is a function of the HTTP instance, the
transport, the serialiser, the tool name and the argument record.

### The `get_node` arm

The handler passes three arguments to `getNode`: the node type, the node id
and the include list (src/index.ts:171-175). `getNode` declares only two
parameters, `nodeId` and `include` (src/drupal-client.ts:81-84). So the node
type is used as the id, the node-id string is bound to `include`, and the
include list is dropped.

The model keeps `Client.GetNodeResult` on the client's own signature. It
models the arm's call as written, in `Router.GetNodeCall`:

- A non-empty node-id string has a positive length but no `join` method. The
  call then throws a TypeError inside `getNode`'s try block, which reports
  `Failed to get node: include.join is not a function` and sends no request.
- An empty node-id string requests `/node/node/<nodeType>` with no `include`
  parameter.

Nothing in the model relies on the arm passing the intended arguments.

## Model

| member | source | states |
|---|---|---|
| Client.StripTrailingSlash | src/drupal-client.ts:16 | the stored base URL is a prefix of the input, one character shorter exactly when the input ends with `/` |
| ClientProperties.StripTrailingSlashRemovesOne | src/drupal-client.ts:16 | one trailing slash is removed (`a//` becomes `a/`); a URL without one is unchanged |
| Client.Authorization | src/drupal-client.ts:28-33 | a header is installed exactly when both basic credentials or a token are non-empty |
| Client.Configure | src/drupal-client.ts:16-33 | the instance's base URL is the stripped URL followed by `/jsonapi`; its headers are the two JSON:API media types plus `Authorization` exactly when one is chosen |
| Client.DrupalClient.constructor | src/drupal-client.ts:15-34 | `baseUrl` is the stripped URL and the instance is the one `Configure` describes |
| ClientProperties.AuthorizationPrecedence | src/drupal-client.ts:28-33 | read back, the header is Basic with the encoded `username:password` when both are non-empty, even if a token is set; else Bearer with the token when it is non-empty; else absent |
| Client.PageLimit | src/drupal-client.ts:50 | the page size is the given limit when it is non-zero; when the limit is absent or zero it is 10 |
| Client.QueryParams | src/drupal-client.ts:49-61 | `page[limit]` is always set; the `CONTAINS` title pair is present iff the title is non-empty; `filter[status]` is present iff a status is given, `"1"` for true and `"0"` for false; no other key |
| ClientProperties.QueryContentRequest | src/drupal-client.ts:64-67 | the request goes to `/node/<type>` with those parameters and the instance's base URL and headers |
| Client.AsList | src/drupal-client.ts:70-72 | an array payload is returned as it is; a single object becomes a one-element list |
| Client.QueryContentResult | src/drupal-client.ts:39-76 | `queryContent` fails exactly when the request fails, and every failure starts with `Failed to query content: ` |
| ClientProperties.QueryContentNormalises | src/drupal-client.ts:64-75 | array payload unchanged, single object wrapped, failure message is the prefix followed by the upstream message |
| Client.DrupalClient.QueryContent | src/drupal-client.ts:39-76 | building the parameters key by key returns exactly what `QueryContentResult` says |
| Client.IncludeParams | src/drupal-client.ts:86-92 | `include` is set iff the list is non-empty, to the entries joined with `,`; no other key |
| ClientProperties.SplitJoin | src/drupal-client.ts:91 | splitting the joined `include` value at commas gives back the list when no entry contains a comma |
| ClientProperties.GetNodeRequest | src/drupal-client.ts:86-97 | for every include list, the request uses the instance's base URL and headers and goes to `/node/node/<id>` with an `include` parameter (the comma join) exactly when the list is non-empty. When no entry contains a comma, that value splits back into the requested list |
| ClientProperties.ListContentTypesRequest | src/drupal-client.ts:112-114 | the listing request goes to `/node_type/node_type` with the instance's base URL and headers and no parameters |
| ClientProperties.AuthorizationReachesEveryRequest | src/drupal-client.ts:19-33 | the query, node and listing requests of a configured instance all use its `/jsonapi` base URL, and carry an `Authorization` header exactly when the constructor chose one, with that value |
| Client.GetNodeResult | src/drupal-client.ts:81-107 | `getNode` fails exactly when the request fails, with either `Node <id> not found` or a message that starts with `Failed to get node: ` |
| ClientProperties.GetNodeNotFound | src/drupal-client.ts:102-104 | an upstream 404 gives exactly `Node <id> not found`, without the upstream message |
| ClientProperties.GetNodeOtherOutcomes | src/drupal-client.ts:100-105 | a success returns the `data` member unchanged; any other failure gives the prefix followed by the upstream message |
| Client.DrupalClient.GetNode | src/drupal-client.ts:81-107 | the method returns exactly what `GetNodeResult` says |
| Client.ProjectTypes | src/drupal-client.ts:120-123 | same length and order as the listed types; each entry is the pair (`drupal_internal__type`, `name`) |
| Client.ListContentTypesResult | src/drupal-client.ts:112-127 | `listContentTypes` fails exactly when the request fails, and every failure starts with `Failed to list content types: ` |
| ClientProperties.ListContentTypesProjects | src/drupal-client.ts:114-126 | on success the output has the normalised payload's length and order, with each entry exactly `{id, label}`; on failure the prefix is followed by the upstream message |
| Client.DrupalClient.ListContentTypes | src/drupal-client.ts:112-127 | the method returns exactly what `ListContentTypesResult` says |
| Client.CeilDiv | src/drupal-client.ts:144 | the per-type page size q satisfies `limit <= q * n < limit + n`, i.e. it is the ceiling of `limit / n` |
| Client.Take | src/drupal-client.ts:154 | the slice has `min(n, length)` elements and is a prefix of the input |
| Client.SearchContentResult | src/drupal-client.ts:132-158 | the search fails exactly when listing the types fails, and then with both prefixes; a success never has more than `limit` nodes |
| Client.ConcatSuccessesAppend | src/drupal-client.ts:140-152 | concatenating the per-type results distributes over appending attempts, so results stay in listing order |
| Client.DrupalClient.SearchContent | src/drupal-client.ts:132-158 | the sequential loop over the types returns exactly what `SearchContentResult` says |
| ClientProperties.SearchQueriesEachType | src/drupal-client.ts:140-146 | type i, in listing order, is queried with its id, the search term as title filter, `filter[status]=1` and the ceiling page size |
| ClientProperties.SearchZeroLimit | src/drupal-client.ts:144-154 | with limit 0 every type is still asked for 10 nodes (zero is falsy), and the search returns an empty list |
| ClientProperties.SearchListingFailure | src/drupal-client.ts:155-157 | a failed listing gives `Failed to search content: Failed to list content types: <message>` |
| ClientProperties.SearchIsPrefixOfConcatenation | src/drupal-client.ts:138-154 | a successful search returns the first `min(limit, total)` nodes of the concatenation of the successful per-type results |
| ClientProperties.SearchAllTypesFail | src/drupal-client.ts:140-154 | when every type's query fails, or there are no types, the search succeeds with an empty list |
| ClientProperties.ConcatSkipsFailure | src/drupal-client.ts:148-151 | a failed type is skipped: removing it leaves the concatenation unchanged |
| ClientProperties.ConcatMembership | src/drupal-client.ts:140-152 | a node is in the concatenation iff some successful query returned it |
| ClientProperties.SearchResultsComeFromTypes | src/drupal-client.ts:140-154 | every node the search returns came from a successful query of a listed type |
| ClientProperties.ConcatListingOrder | src/drupal-client.ts:140-152 | the results of the first k types form a prefix of the whole concatenation |
| NodeJson.PrimaryToJson | src/index.ts:182 | the `data` member is written as one object, or as an array of objects in the same order |
| NodeJson.AttributesRoundTrip | src/types.ts:13-24 | a node's attributes, written as JSON and read back, are unchanged |
| NodeJson.NodeRoundTrip | src/types.ts:10-28 | a node written as JSON and read back is the same node |
| Router.ToolNames | src/index.ts:40-118 | the names of the catalog, one per tool, in order |
| Router.PublicationStatus | src/index.ts:154 | `published` exactly for a published node, otherwise `unpublished` |
| Router.QueryRecord | src/index.ts:150-157 | the record has exactly the keys id, title, type, status, created and changed. `id`, `type`, `title`, `created` and `changed` hold the node's id, resource type, title and timestamps. `status` is `published` iff the node's status is true |
| Router.SearchRecord | src/index.ts:205-210 | the record is the query record without `created` and `changed`: `id`, `title`, `type` and `status` carry the same values |
| Router.ContentTypeToJson | src/drupal-client.ts:120-123 | an entry is the object with exactly the keys `id` and `label`, holding the entry's machine name and display name |
| Router.ContentTypesToJson | src/index.ts:189-197 | the listing is an array of one such object per entry, in order |
| Router.QueryRecords | src/index.ts:150-157 | one record per node, same length and order |
| Router.SearchRecords | src/index.ts:205-210 | one record per node, same length and order |
| Router.GetNodeCall | src/index.ts:169-175 | as the arm is written: a non-empty node id fails with `Failed to get node: include.join is not a function`; an empty one fetches the node type as an id with no includes |
| Router.CallTool | src/index.ts:132-237 | every response holds exactly one text block; the flag is absent or true, and a flagged text starts with `Error: ` |
| RouterProperties.CatalogNames | src/index.ts:40-126 | listing returns the catalog verbatim: exactly four tools, `query_content`, `get_node`, `list_content_types`, `search_content` in that order |
| RouterProperties.CatalogRequiredFields | src/index.ts:40-118 | the required arguments are `contentType`; `nodeType`, `nodeId`; none; `searchTerm` |
| RouterProperties.RoutedIffCatalogued | src/index.ts:137-223 | a name is routed to a client operation iff the catalog lists it; only uncatalogued names get the unknown-tool response |
| RouterProperties.UnknownTool | src/index.ts:222-235 | an uncatalogued name gives exactly one text block `Error: Unknown tool: <name>` with `isError` true |
| RouterProperties.ClientFailuresBecomeErrorResponses | src/index.ts:225-236 | in every arm a client failure with message m becomes `{content: [text "Error: " + m], isError: true}` |
| RouterProperties.ErrorFlagMeansFailure | src/index.ts:135-236 | a response is flagged iff the name is unknown or the arm's client call failed |
| RouterProperties.QueryContentResponse | src/index.ts:138-166 | a successful `query_content` serialises one record per node, in the client's order, with no flag |
| RouterProperties.SearchContentResponse | src/index.ts:201-219 | a successful `search_content` serialises at most `limit` records of `{id, title, type, status}`, in order, with no flag |
| RouterProperties.UnprojectedArms | src/index.ts:177-198 | `list_content_types` and `get_node` serialise the client's result as it is, in one unflagged text block |
| RouterProperties.GetNodeKeepsWholeNode | src/index.ts:177-185 | when the payload is a single object, the JSON `get_node` serialises reads back to the whole node the client returned |
| RouterProperties.GetNodeKeepsEveryNode | src/index.ts:177-185 | when the payload is an array, the JSON has one element per node, and each reads back to the node in that position |
| RouterProperties.ListContentTypesReadBack | src/index.ts:188-198 | the JSON `list_content_types` serialises reads back, entry by entry and in order, to the client's `{id, label}` list |
| RouterProperties.GetNodeArmUsesNodeTypeAsId | src/index.ts:171-175 | with an empty `nodeId` the request is `/node/node/<nodeType>` with no parameters |
| RouterProperties.GetNodeArmRejectsNodeId | src/index.ts:171-175 | with a non-empty `nodeId` the arm fails whatever the backend holds, and the `include` argument never matters |
| RouterProperties.QueryLimitDefault | src/index.ts:143 | for `query_content` an absent limit and a zero limit both behave as 10 |
| RouterProperties.SearchLimitDefault | src/index.ts:202-203 | for `search_content` only an absent limit becomes 10; a zero limit yields an empty list |
| RouterProperties.QueryTwoOfFive | src/index.ts:138-166 | with `limit: 2`, against a backend of five articles that honours the page size, the response lists the first two articles in the backend's order |

## Left out

- HTTP transport: axios, the network and the Drupal backend are the abstract `Http.Transport`. The model leaves to the transport how axios joins the base URL and the path.
- Base64: the library encoder that builds the Basic credentials is a function parameter, `base64`. Its output is not specified.
- JSON serialisation: the pretty-printing serialiser is a function parameter, `serialize`. Key order and whitespace are not modelled.
- Server plumbing: the MCP SDK server, the stdio transport, handler registration, `main`, the environment variables and the `console.error` logging are I/O.
- async/await: every operation runs sequentially, as the source's awaits make it.
- JSON:API document members other than `data` (`links`, `included`, `meta`) are not modelled; the client never reads them.
- Numbers: `limit` is a `nat`, so `NaN`, negative and fractional limits are excluded. JSON numbers are integers.
- Argument validation: the handler casts arguments without checking them. The model's argument record gives every required field a string and every optional field an `Option`. Missing or mistyped required arguments, which JavaScript would turn into `undefined`, are not modelled.
- Node resources: a node holds only `type`, `id`, `attributes` and `relationships`. Its body is present or absent; a node's own `links` or `meta`, and an explicit `body: null`, cannot be represented. The `get_node` read-back lemmas cover only that shape.
- Resource shapes: node-type resources are typed with the two attributes the client reads, so the `undefined` a missing attribute would yield is not modelled. A node's open attribute bag is assumed not to repeat a known attribute (`NodeJson.WellFormedNode`) where a round trip is stated.
- src/drupal-client.js is the compiled form of src/drupal-client.ts with the same logic, so it is modelled once. src/drupal-client.d.ts and src/types.d.ts hold declarations only.
