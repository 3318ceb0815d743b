/**
 * The JSON:API client of src/drupal-client.ts. Each operation is given twice:
 * a function `...Result` that says what the operation returns for a given
 * transport, and a method of `DrupalClient` that does it the way the source
 * does (building the parameter map key by key, looping over the content
 * types) and is proved to return exactly that.
 */
module Client {
  import opened Wrappers
  import opened DrupalTypes
  import opened Http

  const JsonApiMediaType := "application/vnd.api+json"
  const DefaultPageLimit: nat := 10

  const QueryFailurePrefix := "Failed to query content: "
  const GetFailurePrefix := "Failed to get node: "
  const ListFailurePrefix := "Failed to list content types: "
  const SearchFailurePrefix := "Failed to search content: "

  /** JavaScript truthiness of an optional string: present and not empty. */
  predicate Truthy(s: Option<string>)
  {
    s.Some? && s.value != ""
  }

  predicate EndsWithSlash(s: string)
  {
    |s| > 0 && s[|s| - 1] == '/'
  }

  /** The base URL with one trailing slash removed, if it ends with one (a regular-expression replace anchored at the end). */
  function StripTrailingSlash(s: string): (r: string)
    ensures r <= s
    ensures |s| - |r| == (if EndsWithSlash(s) then 1 else 0)
  {
    if EndsWithSlash(s) then s[..|s| - 1] else s
  }

  /** The configured axios instance: its base URL and its default headers. */
  datatype HttpClient = HttpClient(baseURL: string, headers: map<string, string>)

  function JsonApiHeaders(): map<string, string>
  {
    map["Accept" := JsonApiMediaType, "Content-Type" := JsonApiMediaType]
  }

  /**
   * The `Authorization` header the constructor installs, first match wins:
   * Basic when both username and password are non-empty, else Bearer when a
   * token is non-empty, else none. `base64` stands for the library's Base64 encoder.
   */
  function Authorization(config: DrupalConfig, base64: string -> string): (h: Option<string>)
    ensures h.Some? <==> (Truthy(config.username) && Truthy(config.password)) || Truthy(config.accessToken)
  {
    if Truthy(config.username) && Truthy(config.password) then
      Some("Basic " + base64(config.username.value + ":" + config.password.value))
    else if Truthy(config.accessToken) then
      Some("Bearer " + config.accessToken.value)
    else
      None
  }

  /** The instance the constructor builds: base URL `<stripped>/jsonapi`, JSON:API headers, optional `Authorization`. */
  function Configure(config: DrupalConfig, base64: string -> string): (c: HttpClient)
    ensures c.baseURL == StripTrailingSlash(config.baseUrl) + "/jsonapi"
    ensures c.headers.Keys == {"Accept", "Content-Type"} + (if Authorization(config, base64).Some? then {"Authorization"} else {})
    ensures c.headers["Accept"] == JsonApiMediaType && c.headers["Content-Type"] == JsonApiMediaType
    ensures "Authorization" in c.headers ==> Authorization(config, base64) == Some(c.headers["Authorization"])
  {
    var auth := Authorization(config, base64);
    HttpClient(StripTrailingSlash(config.baseUrl) + "/jsonapi",
               if auth.Some? then JsonApiHeaders()["Authorization" := auth.value] else JsonApiHeaders())
  }

  /** The `options` of `queryContent`. */
  datatype QueryOptions = QueryOptions(limit: Option<nat>, title: Option<string>, status: Option<bool>)

  /** The page size sent: the given limit, or 10 when it is absent or zero (JavaScript's falsy `||` default). */
  function PageLimit(limit: Option<nat>): (n: nat)
    ensures n > 0
    ensures limit.Some? && limit.value != 0 ==> n == limit.value
    ensures !(limit.Some? && limit.value != 0) ==> n == DefaultPageLimit
  {
    if limit.Some? && limit.value != 0 then limit.value else DefaultPageLimit
  }

  /** The JSON:API query parameters of `queryContent`. */
  function QueryParams(options: QueryOptions): (p: map<string, Param>)
    ensures p.Keys <= {"page[limit]", "filter[title][operator]", "filter[title][value]", "filter[status]"}
    ensures "page[limit]" in p && p["page[limit]"] == Num(PageLimit(options.limit))
    ensures "filter[title][operator]" in p <==> Truthy(options.title)
    ensures "filter[title][value]" in p <==> Truthy(options.title)
    ensures Truthy(options.title) ==>
              p["filter[title][operator]"] == Text("CONTAINS") && p["filter[title][value]"] == Text(options.title.value)
    ensures "filter[status]" in p <==> options.status.Some?
    ensures options.status.Some? ==> p["filter[status]"] == Text(if options.status.value then "1" else "0")
  {
    var page := map["page[limit]" := Num(PageLimit(options.limit))];
    var titled := if Truthy(options.title) then
                    page["filter[title][operator]" := Text("CONTAINS")]["filter[title][value]" := Text(options.title.value)]
                  else page;
    if options.status.Some? then titled["filter[status]" := Text(if options.status.value then "1" else "0")] else titled
  }

  function QueryRequest(c: HttpClient, contentType: string, options: QueryOptions): Request
  {
    Request(c.baseURL, "/node/" + contentType, QueryParams(options), c.headers)
  }

  /** The payload as a list: an array as it is, a single resource object as a one-element list. */
  function AsList<T>(d: PrimaryData<T>): (r: seq<T>)
    ensures d.Many? ==> r == d.items
    ensures d.One? ==> |r| == 1 && r[0] == d.item
  {
    match d
    case One(x) => [x]
    case Many(xs) => xs
  }

  /** What `queryContent(contentType, options)` returns or throws. */
  function QueryContentResult(c: HttpClient, t: Transport, contentType: string, options: QueryOptions)
    : (r: Result<seq<DrupalNode>, string>)
    ensures r.Err? <==> t.getNodes(QueryRequest(c, contentType, options)).Err?
    ensures r.Err? ==> QueryFailurePrefix <= r.error
  {
    match t.getNodes(QueryRequest(c, contentType, options))
    case Ok(d) => Ok(AsList(d))
    case Err(e) => Err(QueryFailurePrefix + e.message)
  }

  /** The entries with `sep` between each two, as JavaScript's array join does for strings. */
  function Join(xs: seq<string>, sep: string): string
  {
    if |xs| == 0 then ""
    else if |xs| == 1 then xs[0]
    else xs[0] + sep + Join(xs[1..], sep)
  }

  /** The query parameters of `getNode`: `include` iff the list is non-empty. */
  function IncludeParams(includes: seq<string>): (p: map<string, Param>)
    ensures p.Keys <= {"include"}
    ensures "include" in p <==> |includes| > 0
    ensures "include" in p ==> p["include"] == Text(Join(includes, ","))
  {
    if |includes| > 0 then map["include" := Text(Join(includes, ","))] else map[]
  }

  function NodeRequest(c: HttpClient, nodeId: string, includes: seq<string>): Request
  {
    Request(c.baseURL, "/node/node/" + nodeId, IncludeParams(includes), c.headers)
  }

  /** What `getNode(nodeId, include)` returns or throws: the `data` member unchanged, or a not-found or generic error. */
  function GetNodeResult(c: HttpClient, t: Transport, nodeId: string, includes: seq<string>)
    : (r: Result<PrimaryData<DrupalNode>, string>)
    ensures r.Err? <==> t.getNodes(NodeRequest(c, nodeId, includes)).Err?
    ensures r.Err? ==> r.error == "Node " + nodeId + " not found" || GetFailurePrefix <= r.error
  {
    match t.getNodes(NodeRequest(c, nodeId, includes))
    case Ok(d) => Ok(d)
    case Err(e) =>
      if e.status == Some(404) then Err("Node " + nodeId + " not found")
      else Err(GetFailurePrefix + e.message)
  }

  /** A content type as `listContentTypes` reports it. */
  datatype ContentType = ContentType(id: string, displayName: string)

  function ProjectType(r: NodeTypeResource): ContentType
  {
    ContentType(r.attributes.drupalInternalType, r.attributes.name)
  }

  /** Each listed type reduced to its machine name (`drupal_internal__type`) and display name, in order. */
  function ProjectTypes(rs: seq<NodeTypeResource>): (r: seq<ContentType>)
    ensures |r| == |rs|
    ensures forall i :: 0 <= i < |rs| ==> r[i] == ContentType(rs[i].attributes.drupalInternalType, rs[i].attributes.name)
  {
    if rs == [] then [] else [ProjectType(rs[0])] + ProjectTypes(rs[1..])
  }

  function TypesRequest(c: HttpClient): Request
  {
    Request(c.baseURL, "/node_type/node_type", map[], c.headers)
  }

  /** What `listContentTypes()` returns or throws. */
  function ListContentTypesResult(c: HttpClient, t: Transport): (r: Result<seq<ContentType>, string>)
    ensures r.Err? <==> t.getNodeTypes(TypesRequest(c)).Err?
    ensures r.Err? ==> ListFailurePrefix <= r.error
  {
    match t.getNodeTypes(TypesRequest(c))
    case Ok(d) => Ok(ProjectTypes(AsList(d)))
    case Err(e) => Err(ListFailurePrefix + e.message)
  }

  /** The ceiling of `limit / n` for a positive divisor (the per-type page size of the search). */
  function CeilDiv(limit: nat, n: nat): (q: nat)
    requires n > 0
    ensures limit <= q * n < limit + n
  {
    var q := (limit + n - 1) / n;
    assert limit + n - 1 == q * n + (limit + n - 1) % n;
    q
  }

  /** The options `searchContent` passes to `queryContent` for each type. */
  function SearchOptions(searchTerm: string, perType: nat): QueryOptions
  {
    QueryOptions(Some(perType), Some(searchTerm), Some(true))
  }

  /** One `queryContent` outcome per listed type, in listing order, each asking for `ceil(limit / n)` nodes. */
  function Attempts(c: HttpClient, t: Transport, searchTerm: string, limit: nat, types: seq<ContentType>)
    : seq<Result<seq<DrupalNode>, string>>
  {
    seq(|types|, i requires 0 <= i < |types| =>
      QueryContentResult(c, t, types[i].id, SearchOptions(searchTerm, CeilDiv(limit, |types|))))
  }

  /** The successful results concatenated in order; failed attempts contribute nothing. */
  function ConcatSuccesses(rs: seq<Result<seq<DrupalNode>, string>>): seq<DrupalNode>
  {
    if rs == [] then []
    else (if rs[0].Ok? then rs[0].value else []) + ConcatSuccesses(rs[1..])
  }

  /** The first `n` elements, or all of them when there are fewer (an array slice from 0 to a non-negative `n`). */
  function Take<T>(xs: seq<T>, n: nat): (r: seq<T>)
    ensures |r| == if n <= |xs| then n else |xs|
    ensures r == xs[..|r|]
  {
    if n <= |xs| then xs[..n] else xs
  }

  /** What `searchContent(searchTerm, limit)` returns or throws. */
  function SearchContentResult(c: HttpClient, t: Transport, searchTerm: string, limit: nat)
    : (r: Result<seq<DrupalNode>, string>)
    ensures r.Err? <==> ListContentTypesResult(c, t).Err?
    ensures r.Ok? ==> |r.value| <= limit
    ensures r.Err? ==> SearchFailurePrefix + ListFailurePrefix <= r.error
  {
    match ListContentTypesResult(c, t)
    case Err(e) => Err(SearchFailurePrefix + e)
    case Ok(types) => Ok(Take(ConcatSuccesses(Attempts(c, t, searchTerm, limit, types)), limit))
  }

  /** Concatenation distributes over appending attempts: results keep the listing order. */
  lemma {:induction false} ConcatSuccessesAppend(a: seq<Result<seq<DrupalNode>, string>>, b: seq<Result<seq<DrupalNode>, string>>)
    ensures ConcatSuccesses(a + b) == ConcatSuccesses(a) + ConcatSuccesses(b)
  {
    if a == [] {
      assert a + b == b;
    } else {
      assert (a + b)[1..] == a[1..] + b;
      ConcatSuccessesAppend(a[1..], b);
    }
  }

  /** A client for one Drupal site: `baseUrl` and the configured HTTP instance. */
  class DrupalClient {
    var baseUrl: string
    var client: HttpClient

    constructor (config: DrupalConfig, base64: string -> string)
      ensures baseUrl == StripTrailingSlash(config.baseUrl)
      ensures client == Configure(config, base64)
    {
      var stripped := StripTrailingSlash(config.baseUrl);
      baseUrl := stripped;
      client := HttpClient(stripped + "/jsonapi", JsonApiHeaders());
      new;
      if Truthy(config.username) && Truthy(config.password) {
        var auth := base64(config.username.value + ":" + config.password.value);
        client := client.(headers := client.headers["Authorization" := "Basic " + auth]);
      } else if Truthy(config.accessToken) {
        client := client.(headers := client.headers["Authorization" := "Bearer " + config.accessToken.value]);
      }
    }

    method QueryContent(transport: Transport, contentType: string, options: QueryOptions)
      returns (r: Result<seq<DrupalNode>, string>)
      ensures r == QueryContentResult(client, transport, contentType, options)
    {
      var params: map<string, Param> := map["page[limit]" := Num(PageLimit(options.limit))];
      if Truthy(options.title) {
        params := params["filter[title][operator]" := Text("CONTAINS")];
        params := params["filter[title][value]" := Text(options.title.value)];
      }
      if options.status.Some? {
        params := params["filter[status]" := Text(if options.status.value then "1" else "0")];
      }
      assert params == QueryParams(options);
      var response := transport.getNodes(Request(client.baseURL, "/node/" + contentType, params, client.headers));
      match response {
        case Ok(d) =>
          r := Ok(if d.Many? then d.items else [d.item]);
        case Err(e) =>
          r := Err(QueryFailurePrefix + e.message);
      }
    }

    method GetNode(transport: Transport, nodeId: string, includes: seq<string>)
      returns (r: Result<PrimaryData<DrupalNode>, string>)
      ensures r == GetNodeResult(client, transport, nodeId, includes)
    {
      var params: map<string, Param> := map[];
      if |includes| > 0 {
        params := params["include" := Text(Join(includes, ","))];
      }
      var response := transport.getNodes(Request(client.baseURL, "/node/node/" + nodeId, params, client.headers));
      match response {
        case Ok(d) =>
          r := Ok(d);
        case Err(e) =>
          if e.status == Some(404) {
            r := Err("Node " + nodeId + " not found");
          } else {
            r := Err(GetFailurePrefix + e.message);
          }
      }
    }

    method ListContentTypes(transport: Transport) returns (r: Result<seq<ContentType>, string>)
      ensures r == ListContentTypesResult(client, transport)
    {
      var response := transport.getNodeTypes(Request(client.baseURL, "/node_type/node_type", map[], client.headers));
      match response {
        case Ok(d) =>
          r := Ok(ProjectTypes(AsList(d)));
        case Err(e) =>
          r := Err(ListFailurePrefix + e.message);
      }
    }

    method SearchContent(transport: Transport, searchTerm: string, limit: nat)
      returns (r: Result<seq<DrupalNode>, string>)
      ensures r == SearchContentResult(client, transport, searchTerm, limit)
    {
      var listed := ListContentTypes(transport);
      if listed.Err? {
        r := Err(SearchFailurePrefix + listed.error);
        return;
      }
      var types := listed.value;
      ghost var attempts := Attempts(client, transport, searchTerm, limit, types);
      var allResults: seq<DrupalNode> := [];
      var i := 0;
      while i < |types|
        invariant i <= |types|
        invariant allResults == ConcatSuccesses(attempts[..i])
      {
        var results := QueryContent(transport, types[i].id, SearchOptions(searchTerm, CeilDiv(limit, |types|)));
        if results.Ok? {
          allResults := allResults + results.value;
        }
        assert attempts[..i + 1] == attempts[..i] + [attempts[i]];
        ConcatSuccessesAppend(attempts[..i], [attempts[i]]);
        i := i + 1;
      }
      assert attempts[..i] == attempts;
      r := Ok(if limit <= |allResults| then allResults[..limit] else allResults);
    }
  }
}
