/**
 * The tool router of src/index.ts: the fixed catalog of four tools, and the
 * call-tool handler that routes on the tool name, runs the client operation,
 * projects its result and turns every failure into an error response.
 * `serialize` stands for the library's pretty-printing JSON serialiser.
 */
module Router {
  import opened Wrappers
  import opened DrupalTypes
  import opened Http
  import opened Client
  import opened NodeJson

  // ---------------------------------------------------------------- catalog

  /** A tool as advertised: its name, description and JSON Schema of its arguments. */
  datatype Tool = Tool(name: string, description: string, inputSchema: Json)

  function Property(jsonType: string, description: string): Json
  {
    JObj(map["type" := JStr(jsonType), "description" := JStr(description)])
  }

  function NumberProperty(description: string, default: int): Json
  {
    JObj(map["type" := JStr("number"), "description" := JStr(description), "default" := JNum(default)])
  }

  function StringsToJson(xs: seq<string>): Json
  {
    JArr(seq(|xs|, i requires 0 <= i < |xs| => JStr(xs[i])))
  }

  /** An object schema; `required` is present only when given. */
  function ObjectSchema(properties: map<string, Json>, required: Option<seq<string>>): Json
  {
    JObj(map["type" := JStr("object"), "properties" := JObj(properties)]
         + (if required.Some? then map["required" := StringsToJson(required.value)] else map[]))
  }

  const ContentTypeDescription := "The machine name of the content type (e.g., \"article\", \"page\", \"blog_post\")"

  const QueryContentTool := Tool(
    "query_content",
    "Search and filter Drupal content by type. Returns a list of nodes matching the criteria.",
    ObjectSchema(
      map["contentType" := Property("string", ContentTypeDescription),
          "limit" := NumberProperty("Maximum number of results to return (default: 10)", 10),
          "title" := Property("string", "Filter by title (partial match)"),
          "status" := Property("boolean", "Filter by publication status (true = published, false = unpublished)")],
      Some(["contentType"])))

  const GetNodeTool := Tool(
    "get_node",
    "Retrieve complete details of a specific Drupal node by its ID",
    ObjectSchema(
      map["nodeType" := Property("string", ContentTypeDescription),
          "nodeId" := Property("string", "The UUID or numeric ID of the node"),
          "include" := JObj(map["type" := JStr("array"), "items" := JObj(map["type" := JStr("string")]),
                                "description" := JStr("Related entities to include (e.g., [\"field_image\", \"uid\"] to include image and author)")])],
      Some(["nodeType", "nodeId"])))

  const ListContentTypesTool := Tool(
    "list_content_types",
    "List all available content types on the Drupal site",
    ObjectSchema(map[], None))

  const SearchContentTool := Tool(
    "search_content",
    "Search across all content types by title. Useful when you don't know the specific content type.",
    ObjectSchema(
      map["searchTerm" := Property("string", "The text to search for in content titles"),
          "limit" := NumberProperty("Maximum number of results (default: 10)", 10)],
      Some(["searchTerm"])))

  /** The tool catalog, in declaration order. */
  const Tools: seq<Tool> := [QueryContentTool, GetNodeTool, ListContentTypesTool, SearchContentTool]

  datatype ListToolsResult = ListToolsResult(tools: seq<Tool>)

  /** The list-tools handler: the catalog, verbatim. */
  function ListTools(): ListToolsResult
  {
    ListToolsResult(Tools)
  }

  function StringItems(js: seq<Json>): seq<string>
  {
    if js == [] then [] else (if js[0].JStr? then [js[0].s] else []) + StringItems(js[1..])
  }

  /** The names a schema lists under `required` (none when the member is absent). */
  function RequiredFields(schema: Json): seq<string>
  {
    if schema.JObj? && "required" in schema.fields && schema.fields["required"].JArr? then
      StringItems(schema.fields["required"].items)
    else []
  }

  function ToolNames(tools: seq<Tool>): (names: seq<string>)
    ensures |names| == |tools|
    ensures forall i :: 0 <= i < |tools| ==> names[i] == tools[i].name
  {
    if tools == [] then [] else [tools[0].name] + ToolNames(tools[1..])
  }

  // ---------------------------------------------------------------- responses

  /** One content block of type `text`. */
  datatype TextContent = TextContent(text: string)

  /** A call-tool response; `isError` is `None` when the handler sets no flag. */
  datatype CallToolResult = CallToolResult(content: seq<TextContent>, isError: Option<bool>)

  function TextResult(text: string): CallToolResult
  {
    CallToolResult([TextContent(text)], None)
  }

  /** The catch arm: the error's message behind `Error: `, flagged as an error. */
  function ErrorResult(message: string): CallToolResult
  {
    CallToolResult([TextContent("Error: " + message)], Some(true))
  }

  // ---------------------------------------------------------------- arguments

  /** The argument bag of a call, with every member any tool reads. */
  datatype ToolArguments = ToolArguments(
    contentType: string,
    limit: Option<nat>,
    title: Option<string>,
    status: Option<bool>,
    nodeType: string,
    nodeId: string,
    includes: Option<seq<string>>,
    searchTerm: string)

  /** The same bag read as `QueryContentArgs` (the handler casts without checking). */
  function AsQueryContentArgs(a: ToolArguments): QueryContentArgs
  {
    QueryContentArgs(a.contentType, a.limit, a.title, a.status)
  }

  /** The same bag read as `GetNodeArgs`. */
  function AsGetNodeArgs(a: ToolArguments): GetNodeArgs
  {
    GetNodeArgs(a.nodeType, a.nodeId, a.includes)
  }

  // ---------------------------------------------------------------- projections

  function PublicationStatus(published: bool): (s: string)
    ensures s == "published" || s == "unpublished"
    ensures s == "published" <==> published
  {
    if published then "published" else "unpublished"
  }

  /** The record `query_content` reports for a node. */
  function QueryRecord(n: DrupalNode): (j: Json)
    ensures j.JObj? && j.fields.Keys == {"id", "title", "type", "status", "created", "changed"}
    ensures j.fields["status"] == JStr("published") <==> n.attributes.status
    ensures j.fields["status"] == JStr("unpublished") <==> !n.attributes.status
    ensures j.fields["id"] == JStr(n.id) && j.fields["type"] == JStr(n.resourceType)
    ensures j.fields["title"] == JStr(n.attributes.title)
    ensures j.fields["created"] == JStr(n.attributes.created) && j.fields["changed"] == JStr(n.attributes.changed)
  {
    JObj(map["id" := JStr(n.id), "title" := JStr(n.attributes.title), "type" := JStr(n.resourceType),
             "status" := JStr(PublicationStatus(n.attributes.status)),
             "created" := JStr(n.attributes.created), "changed" := JStr(n.attributes.changed)])
  }

  /** The record `search_content` reports: the same without `created` and `changed`. */
  function SearchRecord(n: DrupalNode): (j: Json)
    ensures j.JObj? && j.fields.Keys == {"id", "title", "type", "status"}
    ensures j.fields == QueryRecord(n).fields - {"created", "changed"}
  {
    JObj(map["id" := JStr(n.id), "title" := JStr(n.attributes.title), "type" := JStr(n.resourceType),
             "status" := JStr(PublicationStatus(n.attributes.status))])
  }

  function QueryRecords(ns: seq<DrupalNode>): (js: seq<Json>)
    ensures |js| == |ns|
    ensures forall i :: 0 <= i < |ns| ==> js[i] == QueryRecord(ns[i])
  {
    if ns == [] then [] else [QueryRecord(ns[0])] + QueryRecords(ns[1..])
  }

  function SearchRecords(ns: seq<DrupalNode>): (js: seq<Json>)
    ensures |js| == |ns|
    ensures forall i :: 0 <= i < |ns| ==> js[i] == SearchRecord(ns[i])
  {
    if ns == [] then [] else [SearchRecord(ns[0])] + SearchRecords(ns[1..])
  }

  /** A `{id, label}` entry as the JSON object the client returned. */
  function ContentTypeToJson(ct: ContentType): (j: Json)
    ensures j.JObj? && j.fields.Keys == {"id", "label"}
    ensures j.fields["id"] == JStr(ct.id) && j.fields["label"] == JStr(ct.displayName)
  {
    JObj(map["id" := JStr(ct.id), "label" := JStr(ct.displayName)])
  }

  function ContentTypesToJson(cts: seq<ContentType>): (j: Json)
    ensures j.JArr? && |j.items| == |cts|
    ensures forall i :: 0 <= i < |cts| ==> j.items[i] == ContentTypeToJson(cts[i])
  {
    JArr(seq(|cts|, i requires 0 <= i < |cts| => ContentTypeToJson(cts[i])))
  }

  /** Reads a `{id, label}` entry back; `None` when either member is missing or not a string. */
  function ContentTypeFromJson(j: Json): Option<ContentType>
  {
    if j.JObj? && "id" in j.fields && j.fields["id"].JStr? && "label" in j.fields && j.fields["label"].JStr?
    then Some(ContentType(j.fields["id"].s, j.fields["label"].s))
    else None
  }

  // ---------------------------------------------------------------- dispatch

  /** The TypeError raised inside `getNode` when a non-empty string stands where the include list belongs. */
  const IncludeJoinTypeError := "include.join is not a function"

  /**
   * What the `get_node` arm's call to the client yields. The arm passes three
   * arguments (the node type, the node id and the include list) to the
   * two-parameter `getNode`: the node type is taken as the node id, the
   * node id string as the include list, and the include list is dropped.
   * A non-empty string has a positive length but no `join`, so the call
   * throws a TypeError inside `getNode`'s try block, which wraps it with the
   * generic prefix before any request is made; an empty string has length 0
   * and the request goes out without an `include` parameter.
   */
  function GetNodeCall(c: HttpClient, t: Transport, g: GetNodeArgs): (r: Result<PrimaryData<DrupalNode>, string>)
    ensures g.nodeId != "" ==> r == Err(GetFailurePrefix + IncludeJoinTypeError)
    ensures g.nodeId == "" ==> r == GetNodeResult(c, t, g.nodeType, [])
  {
    if g.nodeId != "" then Err(GetFailurePrefix + IncludeJoinTypeError)
    else GetNodeResult(c, t, g.nodeType, [])
  }

  /** The call-tool handler. No error escapes: every response holds one text block, and only errors are flagged. */
  function CallTool(c: HttpClient, t: Transport, serialize: Json -> string, name: string, args: ToolArguments)
    : (r: CallToolResult)
    ensures |r.content| == 1
    ensures r.isError == None || r.isError == Some(true)
    ensures r.isError == Some(true) ==> "Error: " <= r.content[0].text
  {
    match name
    case "query_content" =>
      var q := AsQueryContentArgs(args);
      (match QueryContentResult(c, t, q.contentType, QueryOptions(q.limit, q.title, q.status))
       case Ok(nodes) => TextResult(serialize(JArr(QueryRecords(nodes))))
       case Err(m) => ErrorResult(m))
    case "get_node" =>
      (match GetNodeCall(c, t, AsGetNodeArgs(args))
       case Ok(node) => TextResult(serialize(PrimaryToJson(node)))
       case Err(m) => ErrorResult(m))
    case "list_content_types" =>
      (match ListContentTypesResult(c, t)
       case Ok(cts) => TextResult(serialize(ContentTypesToJson(cts)))
       case Err(m) => ErrorResult(m))
    case "search_content" =>
      (match SearchContentResult(c, t, args.searchTerm, args.limit.GetOr(10))
       case Ok(nodes) => TextResult(serialize(JArr(SearchRecords(nodes))))
       case Err(m) => ErrorResult(m))
    case _ => ErrorResult("Unknown tool: " + name)
  }
}
