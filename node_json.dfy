/**
 * A node is, in the source, the very JSON object the backend returned. This
 * module writes a `DrupalNode` back as that object (the value the serialiser
 * receives in the `get_node` arm) and reads it again, so that "returned
 * unprojected" can be stated as a round trip.
 */
module NodeJson {
  import opened Wrappers
  import opened DrupalTypes

  /** Attribute keys that `NodeAttributes` holds in fields of its own. */
  const KnownAttributeKeys: set<string> := {"title", "created", "changed", "status", "body"}

  /** The open-ended attribute bag does not repeat a known attribute. */
  predicate WellFormedNode(n: DrupalNode)
  {
    n.attributes.rest.Keys !! KnownAttributeKeys
  }

  function BodyToJson(b: NodeBody): Json
  {
    JObj(map["value" := JStr(b.value), "format" := JStr(b.format), "processed" := JStr(b.processed)])
  }

  function KnownAttributesToJson(a: NodeAttributes): map<string, Json>
  {
    map["title" := JStr(a.title), "created" := JStr(a.created), "changed" := JStr(a.changed),
        "status" := JBool(a.status)]
    + (if a.body.Some? then map["body" := BodyToJson(a.body.value)] else map[])
  }

  function AttributesToJson(a: NodeAttributes): Json
  {
    JObj(a.rest + KnownAttributesToJson(a))
  }

  /** The node as a JSON:API resource object. */
  function NodeToJson(n: DrupalNode): Json
  {
    JObj(map["type" := JStr(n.resourceType), "id" := JStr(n.id), "attributes" := AttributesToJson(n.attributes)]
         + (if n.relationships.Some? then map["relationships" := JObj(n.relationships.value)] else map[]))
  }

  /** The `data` member as JSON: one object, or an array of objects in the same order. */
  function PrimaryToJson(d: PrimaryData<DrupalNode>): (j: Json)
    ensures d.One? ==> j == NodeToJson(d.item)
    ensures d.Many? ==> j.JArr? && |j.items| == |d.items|
    ensures d.Many? ==> forall i :: 0 <= i < |d.items| ==> j.items[i] == NodeToJson(d.items[i])
  {
    match d
    case One(n) => NodeToJson(n)
    case Many(ns) => JArr(seq(|ns|, i requires 0 <= i < |ns| => NodeToJson(ns[i])))
  }

  function StringField(m: map<string, Json>, key: string): Option<string>
  {
    if key in m && m[key].JStr? then Some(m[key].s) else None
  }

  function BodyFromJson(j: Json): Option<NodeBody>
  {
    if !j.JObj? then None
    else
      var f := j.fields;
      match (StringField(f, "value"), StringField(f, "format"), StringField(f, "processed"))
      case (Some(v), Some(fmt), Some(p)) => Some(NodeBody(v, fmt, p))
      case _ => None
  }

  function AttributesFromJson(j: Json): Option<NodeAttributes>
  {
    if !j.JObj? then None
    else
      var f := j.fields;
      match (StringField(f, "title"), StringField(f, "created"), StringField(f, "changed"))
      case (Some(title), Some(created), Some(changed)) =>
        if "status" !in f || !f["status"].JBool? then None
        else if "body" in f && BodyFromJson(f["body"]).None? then None
        else
          var body := if "body" in f then BodyFromJson(f["body"]) else None;
          Some(NodeAttributes(title, created, changed, f["status"].b, body, f - KnownAttributeKeys))
      case _ => None
  }

  /** Reads a JSON:API resource object back as a node; `None` when a known member is missing or mistyped. */
  function NodeFromJson(j: Json): Option<DrupalNode>
  {
    if !j.JObj? then None
    else
      var f := j.fields;
      match (StringField(f, "type"), StringField(f, "id"))
      case (Some(ty), Some(id)) =>
        if "attributes" !in f || AttributesFromJson(f["attributes"]).None? then None
        else if "relationships" in f && !f["relationships"].JObj? then None
        else
          var rel := if "relationships" in f then Some(f["relationships"].fields) else None;
          Some(DrupalNode(ty, id, AttributesFromJson(f["attributes"]).value, rel))
      case _ => None
  }

  /** Writing a node as JSON loses nothing: reading it back gives the same node. */
  lemma AttributesRoundTrip(a: NodeAttributes)
    requires a.rest.Keys !! KnownAttributeKeys
    ensures AttributesFromJson(AttributesToJson(a)) == Some(a)
  {
    var f := a.rest + KnownAttributesToJson(a);
    assert f - KnownAttributeKeys == a.rest;
    if a.body.Some? {
      assert BodyFromJson(f["body"]) == a.body;
    } else {
      assert "body" !in f;
    }
  }

  lemma NodeRoundTrip(n: DrupalNode)
    requires WellFormedNode(n)
    ensures NodeFromJson(NodeToJson(n)) == Some(n)
  {
    AttributesRoundTrip(n.attributes);
  }
}
