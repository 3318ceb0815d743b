/**
 * Properties of the tool router in module Router: the catalog, the routing
 * of names, the conversion of every failure into an error response, the
 * projections, and the defaults of the `limit` argument.
 */
module RouterProperties {
  import opened Wrappers
  import opened DrupalTypes
  import opened Http
  import opened Client
  import opened NodeJson
  import opened Router

  // ---------------------------------------------------------------- catalog

  /** Exactly four tools, in this order; listing returns them as they are. */
  lemma CatalogNames()
    ensures ListTools().tools == Tools
    ensures ToolNames(Tools) == ["query_content", "get_node", "list_content_types", "search_content"]
  {
  }

  /** The arguments each tool marks as required. */
  lemma CatalogRequiredFields()
    ensures RequiredFields(Tools[0].inputSchema) == ["contentType"]
    ensures RequiredFields(Tools[1].inputSchema) == ["nodeType", "nodeId"]
    ensures RequiredFields(Tools[2].inputSchema) == []
    ensures RequiredFields(Tools[3].inputSchema) == ["searchTerm"]
  {
    assert StringsToJson(["contentType"]).items == [JStr("contentType")];
    assert StringItems([JStr("contentType")]) == ["contentType"];
    assert StringsToJson(["searchTerm"]).items == [JStr("searchTerm")];
    assert StringItems([JStr("searchTerm")]) == ["searchTerm"];
    assert StringsToJson(["nodeType", "nodeId"]).items == [JStr("nodeType"), JStr("nodeId")];
    assert StringItems([JStr("nodeType"), JStr("nodeId")]) == ["nodeType", "nodeId"] by {
      assert [JStr("nodeType"), JStr("nodeId")][1..] == [JStr("nodeId")];
    }
  }

  /** A name is routed to a client operation exactly when the catalog lists it; any other name is refused. */
  lemma RoutedIffCatalogued(c: HttpClient, t: Transport, serialize: Json -> string, name: string, args: ToolArguments)
    ensures name in ToolNames(Tools) <==>
              CallTool(c, t, serialize, name, args) != ErrorResult("Unknown tool: " + name)
  {
    CatalogNames();
    var r := CallTool(c, t, serialize, name, args);
    var unknown := ErrorResult("Unknown tool: " + name);
    assert unknown.content[0].text[7] == 'U';
    if name in ToolNames(Tools) {
      // Every client failure message starts with 'F' or 'N', never with "Unknown tool".
      if r.isError == Some(true) {
        var m := r.content[0].text[7..];
        if name == "query_content" {
          var q := AsQueryContentArgs(args);
          assert QueryFailurePrefix <= QueryContentResult(c, t, q.contentType, QueryOptions(q.limit, q.title, q.status)).error;
        } else if name == "get_node" {
          var e := GetNodeCall(c, t, AsGetNodeArgs(args)).error;
          assert e[0] == 'N' || e[0] == 'F';
        } else if name == "list_content_types" {
          assert ListFailurePrefix <= ListContentTypesResult(c, t).error;
        } else {
          assert SearchFailurePrefix <= SearchContentResult(c, t, args.searchTerm, args.limit.GetOr(10)).error;
        }
        assert r.content[0].text[7] != 'U';
      }
    } else {
      assert name != "query_content" && name != "get_node" && name != "list_content_types" && name != "search_content";
    }
  }

  /** An unrecognised name gives exactly `Error: Unknown tool: <name>`, flagged as an error. */
  lemma UnknownTool(c: HttpClient, t: Transport, serialize: Json -> string, name: string, args: ToolArguments)
    requires name !in ToolNames(Tools)
    ensures CallTool(c, t, serialize, name, args) == CallToolResult([TextContent("Error: Unknown tool: " + name)], Some(true))
  {
    CatalogNames();
    assert name != "query_content" && name != "get_node" && name != "list_content_types" && name != "search_content";
    assert "Error: " + ("Unknown tool: " + name) == "Error: Unknown tool: " + name;
  }

  // ---------------------------------------------------------------- error boundary

  /** Any failure of the client becomes `{content: [text "Error: " + message], isError: true}`. */
  lemma ClientFailuresBecomeErrorResponses(c: HttpClient, t: Transport, serialize: Json -> string, args: ToolArguments)
    ensures var q := AsQueryContentArgs(args);
            var qr := QueryContentResult(c, t, q.contentType, QueryOptions(q.limit, q.title, q.status));
      qr.Err? ==> CallTool(c, t, serialize, "query_content", args) == ErrorResult(qr.error)
    ensures var gr := GetNodeCall(c, t, AsGetNodeArgs(args));
      gr.Err? ==> CallTool(c, t, serialize, "get_node", args) == ErrorResult(gr.error)
    ensures ListContentTypesResult(c, t).Err? ==>
              CallTool(c, t, serialize, "list_content_types", args) == ErrorResult(ListContentTypesResult(c, t).error)
    ensures var sr := SearchContentResult(c, t, args.searchTerm, args.limit.GetOr(10));
      sr.Err? ==> CallTool(c, t, serialize, "search_content", args) == ErrorResult(sr.error)
  {
  }

  /** Every tool failure reaches the caller as an error response; a success is never flagged. */
  lemma ErrorFlagMeansFailure(c: HttpClient, t: Transport, serialize: Json -> string, name: string, args: ToolArguments)
    ensures var r := CallTool(c, t, serialize, name, args);
      r.isError == Some(true) <==>
        (name !in ToolNames(Tools)
         || (name == "query_content"
             && QueryContentResult(c, t, args.contentType, QueryOptions(args.limit, args.title, args.status)).Err?)
         || (name == "get_node" && GetNodeCall(c, t, AsGetNodeArgs(args)).Err?)
         || (name == "list_content_types" && ListContentTypesResult(c, t).Err?)
         || (name == "search_content" && SearchContentResult(c, t, args.searchTerm, args.limit.GetOr(10)).Err?))
  {
    CatalogNames();
  }

  // ---------------------------------------------------------------- successful arms

  /** `query_content` reports one record per node, in the client's order, with `published`/`unpublished`. */
  lemma QueryContentResponse(c: HttpClient, t: Transport, serialize: Json -> string, args: ToolArguments, nodes: seq<DrupalNode>)
    requires QueryContentResult(c, t, args.contentType, QueryOptions(args.limit, args.title, args.status)) == Ok(nodes)
    ensures CallTool(c, t, serialize, "query_content", args) == TextResult(serialize(JArr(QueryRecords(nodes))))
    ensures |QueryRecords(nodes)| == |nodes|
    ensures forall i :: 0 <= i < |nodes| ==>
              QueryRecords(nodes)[i].fields["id"] == JStr(nodes[i].id)
              && QueryRecords(nodes)[i].fields["created"] == JStr(nodes[i].attributes.created)
              && (QueryRecords(nodes)[i].fields["status"] == JStr("published") <==> nodes[i].attributes.status)
  {
  }

  /** `search_content` reports the client's nodes as `{id, title, type, status}` records, in order. */
  lemma SearchContentResponse(c: HttpClient, t: Transport, serialize: Json -> string, args: ToolArguments, nodes: seq<DrupalNode>)
    requires SearchContentResult(c, t, args.searchTerm, args.limit.GetOr(10)) == Ok(nodes)
    ensures CallTool(c, t, serialize, "search_content", args) == TextResult(serialize(JArr(SearchRecords(nodes))))
    ensures |SearchRecords(nodes)| == |nodes| <= args.limit.GetOr(10)
    ensures forall i :: 0 <= i < |nodes| ==>
              "created" !in SearchRecords(nodes)[i].fields && "changed" !in SearchRecords(nodes)[i].fields
              && (SearchRecords(nodes)[i].fields["status"] == JStr("published") <==> nodes[i].attributes.status)
  {
  }

  /** `list_content_types` and `get_node` hand the client's result to the serialiser without projecting it. */
  lemma UnprojectedArms(c: HttpClient, t: Transport, serialize: Json -> string, args: ToolArguments)
    ensures ListContentTypesResult(c, t).Ok? ==>
              CallTool(c, t, serialize, "list_content_types", args)
              == TextResult(serialize(ContentTypesToJson(ListContentTypesResult(c, t).value)))
    ensures var gr := GetNodeCall(c, t, AsGetNodeArgs(args));
      gr.Ok? ==> CallTool(c, t, serialize, "get_node", args) == TextResult(serialize(PrimaryToJson(gr.value)))
  {
  }

  /** What `get_node` serialises is the whole node: reading the JSON back gives the node the client returned. */
  lemma GetNodeKeepsWholeNode(c: HttpClient, t: Transport, args: ToolArguments, n: DrupalNode)
    requires GetNodeCall(c, t, AsGetNodeArgs(args)) == Ok(One(n))
    requires WellFormedNode(n)
    ensures NodeFromJson(PrimaryToJson(GetNodeCall(c, t, AsGetNodeArgs(args)).value)) == Some(n)
  {
    NodeRoundTrip(n);
  }

  /** When the payload is an array, each element `get_node` serialises reads back to the node in that position. */
  lemma GetNodeKeepsEveryNode(c: HttpClient, t: Transport, args: ToolArguments, ns: seq<DrupalNode>)
    requires GetNodeCall(c, t, AsGetNodeArgs(args)) == Ok(Many(ns))
    requires forall i :: 0 <= i < |ns| ==> WellFormedNode(ns[i])
    ensures var j := PrimaryToJson(GetNodeCall(c, t, AsGetNodeArgs(args)).value);
      j.JArr? && |j.items| == |ns| && forall i :: 0 <= i < |ns| ==> NodeFromJson(j.items[i]) == Some(ns[i])
  {
    forall i | 0 <= i < |ns|
      ensures NodeFromJson(NodeToJson(ns[i])) == Some(ns[i])
    {
      NodeRoundTrip(ns[i]);
    }
  }

  /** What `list_content_types` serialises reads back, entry by entry and in order, to the client's `{id, label}` list. */
  lemma ListContentTypesReadBack(c: HttpClient, t: Transport, cts: seq<ContentType>)
    requires ListContentTypesResult(c, t) == Ok(cts)
    ensures var j := ContentTypesToJson(cts);
      j.JArr? && |j.items| == |cts| && forall i :: 0 <= i < |cts| ==> ContentTypeFromJson(j.items[i]) == Some(cts[i])
  {
  }

  // ---------------------------------------------------------------- the get_node arm as written

  /** With an empty `nodeId` the request asks for `/node/node/<nodeType>` without includes. */
  lemma GetNodeArmUsesNodeTypeAsId(c: HttpClient, t: Transport, args: ToolArguments)
    requires args.nodeId == ""
    ensures GetNodeCall(c, t, AsGetNodeArgs(args)) == GetNodeResult(c, t, args.nodeType, [])
    ensures NodeRequest(c, args.nodeType, []).path == "/node/node/" + args.nodeType
    ensures NodeRequest(c, args.nodeType, []).params == map[]
  {
  }

  /** With a non-empty `nodeId` the arm fails whatever the backend holds, and the include list never matters. */
  lemma GetNodeArmRejectsNodeId(c: HttpClient, t: Transport, serialize: Json -> string, args: ToolArguments,
                                includes: Option<seq<string>>)
    ensures args.nodeId != "" ==>
              CallTool(c, t, serialize, "get_node", args)
              == ErrorResult("Failed to get node: include.join is not a function")
    ensures CallTool(c, t, serialize, "get_node", args)
            == CallTool(c, t, serialize, "get_node", args.(includes := includes))
  {
    assert GetFailurePrefix + IncludeJoinTypeError == "Failed to get node: include.join is not a function";
  }

  // ---------------------------------------------------------------- limit defaults

  /** `query_content`: an absent limit and a zero limit both mean 10 (`|| 10` inside the client). */
  lemma QueryLimitDefault(c: HttpClient, t: Transport, serialize: Json -> string, args: ToolArguments)
    requires args.limit == None || args.limit == Some(0)
    ensures CallTool(c, t, serialize, "query_content", args)
            == CallTool(c, t, serialize, "query_content", args.(limit := Some(10)))
  {
    assert QueryParams(QueryOptions(args.limit, args.title, args.status))
        == QueryParams(QueryOptions(Some(10), args.title, args.status));
  }

  /** `search_content`: only an absent limit means 10; a zero limit yields no results. */
  lemma SearchLimitDefault(c: HttpClient, t: Transport, serialize: Json -> string, args: ToolArguments)
    ensures args.limit == None ==>
              CallTool(c, t, serialize, "search_content", args)
              == CallTool(c, t, serialize, "search_content", args.(limit := Some(10)))
    ensures args.limit == Some(0) && ListContentTypesResult(c, t).Ok? ==>
              CallTool(c, t, serialize, "search_content", args) == TextResult(serialize(JArr([])))
  {
  }

  // ---------------------------------------------------------------- an example

  /** A backend holding `articles` that answers with as many of them as `page[limit]` asks for. */
  function PagedBackend(articles: seq<DrupalNode>): Transport
  {
    Transport(
      (req: Request) => Ok(Many(if "page[limit]" in req.params && req.params["page[limit]"].Num?
                     then Take(articles, req.params["page[limit]"].n) else articles)),
      (req: Request) => Ok(Many([])))
  }

  /** `query_content` with `limit: 2` against five articles reports the first two, in the backend's order. */
  lemma QueryTwoOfFive(c: HttpClient, serialize: Json -> string, args: ToolArguments, articles: seq<DrupalNode>)
    requires |articles| == 5
    requires args.contentType == "article" && args.limit == Some(2)
    ensures CallTool(c, PagedBackend(articles), serialize, "query_content", args)
            == TextResult(serialize(JArr([QueryRecord(articles[0]), QueryRecord(articles[1])])))
  {
    var t := PagedBackend(articles);
    var opts := QueryOptions(args.limit, args.title, args.status);
    assert QueryParams(opts)["page[limit]"] == Num(2);
    assert QueryContentResult(c, t, "article", opts) == Ok(articles[..2]);
    assert QueryRecords(articles[..2]) == [QueryRecord(articles[0]), QueryRecord(articles[1])];
  }
}
