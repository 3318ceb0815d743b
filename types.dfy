/**
 * The shapes of src/types.ts: client configuration, JSON:API node resources,
 * the `data` member of a JSON:API document, and the tool argument records.
 */
module DrupalTypes {
  import opened Wrappers

  /** A JSON value as the backend sends it; numbers are limited to integers. */
  datatype Json =
    | JNull
    | JBool(b: bool)
    | JNum(n: int)
    | JStr(s: string)
    | JArr(items: seq<Json>)
    | JObj(fields: map<string, Json>)

  /** `DrupalConfig`: the site's base URL and optional credentials. */
  datatype DrupalConfig = DrupalConfig(
    baseUrl: string,
    username: Option<string>,
    password: Option<string>,
    accessToken: Option<string>)

  /** The optional formatted `body` attribute of a node. */
  datatype NodeBody = NodeBody(value: string, format: string, processed: string)

  /** A node's `attributes`: the four known fields, the optional body and the open-ended rest. */
  datatype NodeAttributes = NodeAttributes(
    title: string,
    created: string,
    changed: string,
    status: bool,
    body: Option<NodeBody>,
    rest: map<string, Json>)

  /** `DrupalNode`: a JSON:API resource object of some `node--*` type. */
  datatype DrupalNode = DrupalNode(
    resourceType: string,
    id: string,
    attributes: NodeAttributes,
    relationships: Option<map<string, Json>>)

  /** The `data` member of a JSON:API document: a single resource object or an array of them. */
  datatype PrimaryData<T> = One(item: T) | Many(items: seq<T>)

  /** The attributes of a `node_type--node_type` resource that the client reads, and the rest. */
  datatype NodeTypeAttributes = NodeTypeAttributes(
    drupalInternalType: string,
    name: string,
    rest: map<string, Json>)

  /** A content-type resource object as listed by `/node_type/node_type`. */
  datatype NodeTypeResource = NodeTypeResource(
    resourceType: string,
    id: string,
    attributes: NodeTypeAttributes)

  /** `QueryContentArgs`: the arguments of the `query_content` tool. */
  datatype QueryContentArgs = QueryContentArgs(
    contentType: string,
    limit: Option<nat>,
    title: Option<string>,
    status: Option<bool>)

  /** `GetNodeArgs`: the arguments of the `get_node` tool. */
  datatype GetNodeArgs = GetNodeArgs(
    nodeType: string,
    nodeId: string,
    includes: Option<seq<string>>)
}
