/**
 * Properties of the client operations in module Client: URL normalisation,
 * the precedence of the authorization schemes, the query parameters sent,
 * the error messages, and the bound, order and error policy of the search
 * across content types.
 */
module ClientProperties {
  import opened Wrappers
  import opened DrupalTypes
  import opened Http
  import opened Client

  // ---------------------------------------------------------------- construction

  /** Exactly one trailing slash is removed, and a slash-free URL is kept as it is. */
  lemma StripTrailingSlashRemovesOne(s: string)
    ensures StripTrailingSlash(s + "/") == s
    ensures StripTrailingSlash(s + "//") == s + "/"
    ensures !EndsWithSlash(s) ==> StripTrailingSlash(s) == s
  {
    assert (s + "//")[..|s| + 1] == s + "/";
  }

  /** How the backend reads an `Authorization` header: the scheme and what follows it. */
  datatype Credentials = BasicCredentials(encoded: string) | BearerToken(token: string) | Unrecognised

  function ParseAuthorization(h: string): Credentials
  {
    if |h| >= 6 && h[..6] == "Basic " then BasicCredentials(h[6..])
    else if |h| >= 7 && h[..7] == "Bearer " then BearerToken(h[7..])
    else Unrecognised
  }

  /**
   * The header the constructor installs, read back: Basic with the encoded
   * `username:password` whenever both are non-empty (whatever the token),
   * otherwise Bearer with the token when it is non-empty, otherwise none.
   */
  lemma AuthorizationPrecedence(config: DrupalConfig, base64: string -> string)
    ensures var c := Configure(config, base64);
      && (Truthy(config.username) && Truthy(config.password) ==>
            "Authorization" in c.headers
            && ParseAuthorization(c.headers["Authorization"])
               == BasicCredentials(base64(config.username.value + ":" + config.password.value)))
      && (!(Truthy(config.username) && Truthy(config.password)) && Truthy(config.accessToken) ==>
            "Authorization" in c.headers
            && ParseAuthorization(c.headers["Authorization"]) == BearerToken(config.accessToken.value))
      && (!(Truthy(config.username) && Truthy(config.password)) && !Truthy(config.accessToken) ==>
            "Authorization" !in c.headers)
  {
    var c := Configure(config, base64);
    if Truthy(config.username) && Truthy(config.password) {
      var h := "Basic " + base64(config.username.value + ":" + config.password.value);
      assert c.headers["Authorization"] == h;
      assert h[..6] == "Basic " && h[6..] == base64(config.username.value + ":" + config.password.value);
    } else if Truthy(config.accessToken) {
      var h := "Bearer " + config.accessToken.value;
      assert c.headers["Authorization"] == h;
      assert h[..6] != "Basic " by { assert h[1] == 'e'; }
      assert h[..7] == "Bearer " && h[7..] == config.accessToken.value;
    }
  }

  // ---------------------------------------------------------------- queryContent

  /** The payload always comes back as a list: an array unchanged, a single object wrapped; errors get the prefix. */
  lemma QueryContentNormalises(c: HttpClient, t: Transport, contentType: string, options: QueryOptions)
    ensures var reply := t.getNodes(QueryRequest(c, contentType, options));
            var r := QueryContentResult(c, t, contentType, options);
      && (reply.Ok? && reply.value.Many? ==> r == Ok(reply.value.items))
      && (reply.Ok? && reply.value.One? ==> r == Ok([reply.value.item]))
      && (reply.Err? ==> r == Err(QueryFailurePrefix + reply.error.message))
  {
  }

  /** The request goes to `/node/<contentType>` with the instance's base URL and headers. */
  lemma QueryContentRequest(c: HttpClient, contentType: string, options: QueryOptions)
    ensures var req := QueryRequest(c, contentType, options);
      req.baseURL == c.baseURL && req.headers == c.headers
      && req.path == "/node/" + contentType && req.params == QueryParams(options)
  {
  }

  // ---------------------------------------------------------------- getNode

  /** Splitting at every separator: the inverse of `Join` over separator-free pieces. */
  function Split(s: string, sep: char): (r: seq<string>)
    ensures |r| > 0
  {
    if s == [] then [""]
    else
      var rest := Split(s[1..], sep);
      if s[0] == sep then [""] + rest else [[s[0]] + rest[0]] + rest[1..]
  }

  lemma {:induction false} SplitAfterPiece(a: string, t: string, sep: char)
    requires sep !in a
    ensures Split(a + t, sep) == [a + Split(t, sep)[0]] + Split(t, sep)[1..]
  {
    if a != [] {
      assert (a + t)[1..] == a[1..] + t;
      SplitAfterPiece(a[1..], t, sep);
      assert [a[0]] + (a[1..] + Split(t, sep)[0]) == a + Split(t, sep)[0];
    } else {
      assert a + t == t;
      assert a + Split(t, sep)[0] == Split(t, sep)[0];
      assert Split(t, sep) == [Split(t, sep)[0]] + Split(t, sep)[1..];
    }
  }

  /** The `include` value the client sends splits back into the requested list when no entry contains a comma. */
  lemma {:induction false} SplitJoin(xs: seq<string>)
    requires |xs| > 0
    requires forall i :: 0 <= i < |xs| ==> ',' !in xs[i]
    ensures Split(Join(xs, ","), ',') == xs
  {
    if |xs| == 1 {
      SplitAfterPiece(xs[0], "", ',');
      assert xs[0] + "" == xs[0];
    } else {
      var tail := "," + Join(xs[1..], ",");
      assert Join(xs, ",") == xs[0] + tail;
      SplitAfterPiece(xs[0], tail, ',');
      assert tail[1..] == Join(xs[1..], ",");
      SplitJoin(xs[1..]);
      assert Split(tail, ',') == [""] + xs[1..];
      assert xs[0] + "" == xs[0];
      assert [xs[0]] + xs[1..] == xs;
    }
  }

  /** `getNode` asks for `/node/node/<id>`, with an `include` parameter exactly when the list is non-empty. */
  lemma GetNodeRequest(c: HttpClient, nodeId: string, includes: seq<string>)
    ensures var req := NodeRequest(c, nodeId, includes);
      && req.baseURL == c.baseURL && req.headers == c.headers
      && req.path == "/node/node/" + nodeId
      && req.params.Keys == (if |includes| > 0 then {"include"} else {})
      && (|includes| > 0 ==> req.params["include"] == Text(Join(includes, ",")))
    ensures var req := NodeRequest(c, nodeId, includes);
      (|includes| > 0 && forall i :: 0 <= i < |includes| ==> ',' !in includes[i]) ==>
        Split(req.params["include"].s, ',') == includes
  {
    if |includes| > 0 && forall i :: 0 <= i < |includes| ==> ',' !in includes[i] {
      SplitJoin(includes);
    }
  }

  /** `listContentTypes` asks for `/node_type/node_type`, with the instance's base URL and headers and no parameters. */
  lemma ListContentTypesRequest(c: HttpClient)
    ensures TypesRequest(c) == Request(c.baseURL, "/node_type/node_type", map[], c.headers)
  {
  }

  /**
   * Every request a configured instance sends carries the header the constructor chose:
   * `Authorization` is present exactly when `Authorization` picks one, with that value.
   */
  lemma AuthorizationReachesEveryRequest(config: DrupalConfig, base64: string -> string,
                                         contentType: string, options: QueryOptions, nodeId: string, includes: seq<string>)
    ensures var c := Configure(config, base64);
      forall req :: req in [QueryRequest(c, contentType, options), NodeRequest(c, nodeId, includes), TypesRequest(c)] ==>
        && req.baseURL == StripTrailingSlash(config.baseUrl) + "/jsonapi"
        && ("Authorization" in req.headers <==> Authorization(config, base64).Some?)
        && ("Authorization" in req.headers ==> Authorization(config, base64) == Some(req.headers["Authorization"]))
  {
  }

  /** A 404 becomes exactly "Node <id> not found", without the upstream message. */
  lemma GetNodeNotFound(c: HttpClient, t: Transport, nodeId: string, includes: seq<string>)
    requires t.getNodes(NodeRequest(c, nodeId, includes)).Err?
    requires t.getNodes(NodeRequest(c, nodeId, includes)).error.status == Some(404)
    ensures GetNodeResult(c, t, nodeId, includes) == Err("Node " + nodeId + " not found")
  {
  }

  /** Every other failure keeps the upstream message behind the fixed prefix; a success is the payload unchanged. */
  lemma GetNodeOtherOutcomes(c: HttpClient, t: Transport, nodeId: string, includes: seq<string>)
    ensures var reply := t.getNodes(NodeRequest(c, nodeId, includes));
      && (reply.Ok? ==> GetNodeResult(c, t, nodeId, includes) == Ok(reply.value))
      && (reply.Err? && reply.error.status != Some(404) ==>
            GetNodeResult(c, t, nodeId, includes) == Err(GetFailurePrefix + reply.error.message))
  {
  }

  // ---------------------------------------------------------------- listContentTypes

  /** Same length and order as the (normalised) payload; each entry is `{id, label}` and nothing else. */
  lemma ListContentTypesProjects(c: HttpClient, t: Transport)
    ensures var reply := t.getNodeTypes(TypesRequest(c));
            var r := ListContentTypesResult(c, t);
      && (reply.Ok? ==>
            r.Ok? && |r.value| == |AsList(reply.value)|
            && forall i :: 0 <= i < |r.value| ==>
                 r.value[i] == ContentType(AsList(reply.value)[i].attributes.drupalInternalType,
                                           AsList(reply.value)[i].attributes.name))
      && (reply.Err? ==> r == Err(ListFailurePrefix + reply.error.message))
  {
  }

  // ---------------------------------------------------------------- searchContent

  /** Each listed type is queried in listing order with the search term, published only, `ceil(limit / n)` nodes. */
  lemma SearchQueriesEachType(c: HttpClient, t: Transport, searchTerm: string, limit: nat, types: seq<ContentType>, i: nat)
    requires i < |types|
    ensures var per := CeilDiv(limit, |types|);
            var opts := QueryOptions(Some(per), Some(searchTerm), Some(true));
      && |Attempts(c, t, searchTerm, limit, types)| == |types|
      && Attempts(c, t, searchTerm, limit, types)[i] == QueryContentResult(c, t, types[i].id, opts)
      && limit <= per * |types| < limit + |types|
      && QueryParams(opts)["filter[status]"] == Text("1")
      && (searchTerm != "" ==> QueryParams(opts)["filter[title][value]"] == Text(searchTerm))
  {
  }

  /** With a zero limit each type is still asked for 10 nodes (`0 || 10`), and the result is empty. */
  lemma SearchZeroLimit(c: HttpClient, t: Transport, searchTerm: string, types: seq<ContentType>)
    requires ListContentTypesResult(c, t) == Ok(types)
    requires |types| > 0
    ensures QueryParams(SearchOptions(searchTerm, CeilDiv(0, |types|)))["page[limit]"] == Num(10)
    ensures SearchContentResult(c, t, searchTerm, 0) == Ok([])
  {
  }

  /** A failing listing fails the whole search, with both prefixes in front of the upstream message. */
  lemma SearchListingFailure(c: HttpClient, t: Transport, searchTerm: string, limit: nat)
    requires t.getNodeTypes(TypesRequest(c)).Err?
    ensures SearchContentResult(c, t, searchTerm, limit)
            == Err(SearchFailurePrefix + ListFailurePrefix + t.getNodeTypes(TypesRequest(c)).error.message)
  {
    var m := t.getNodeTypes(TypesRequest(c)).error.message;
    assert SearchFailurePrefix + (ListFailurePrefix + m) == SearchFailurePrefix + ListFailurePrefix + m;
  }

  /** The result is the first `min(limit, total)` nodes of the concatenated successful results. */
  lemma SearchIsPrefixOfConcatenation(c: HttpClient, t: Transport, searchTerm: string, limit: nat, types: seq<ContentType>)
    requires ListContentTypesResult(c, t) == Ok(types)
    ensures var all := ConcatSuccesses(Attempts(c, t, searchTerm, limit, types));
      SearchContentResult(c, t, searchTerm, limit) == Ok(all[..if limit <= |all| then limit else |all|])
  {
  }

  lemma {:induction false} ConcatOfFailures(rs: seq<Result<seq<DrupalNode>, string>>)
    requires forall i :: 0 <= i < |rs| ==> rs[i].Err?
    ensures ConcatSuccesses(rs) == []
  {
    if rs != [] {
      ConcatOfFailures(rs[1..]);
    }
  }

  /** When every type's query fails, or there are no types, the search succeeds with no results. */
  lemma SearchAllTypesFail(c: HttpClient, t: Transport, searchTerm: string, limit: nat, types: seq<ContentType>)
    requires ListContentTypesResult(c, t) == Ok(types)
    requires forall i :: 0 <= i < |types| ==>
               QueryContentResult(c, t, types[i].id, SearchOptions(searchTerm, CeilDiv(limit, |types|))).Err?
    ensures SearchContentResult(c, t, searchTerm, limit) == Ok([])
  {
    ConcatOfFailures(Attempts(c, t, searchTerm, limit, types));
  }

  /** A failed attempt is skipped: dropping it leaves the concatenation unchanged. */
  lemma ConcatSkipsFailure(rs: seq<Result<seq<DrupalNode>, string>>, i: nat)
    requires i < |rs| && rs[i].Err?
    ensures ConcatSuccesses(rs) == ConcatSuccesses(rs[..i] + rs[i + 1..])
  {
    assert rs == rs[..i] + ([rs[i]] + rs[i + 1..]);
    ConcatSuccessesAppend(rs[..i], [rs[i]] + rs[i + 1..]);
    ConcatSuccessesAppend([rs[i]], rs[i + 1..]);
    ConcatSuccessesAppend(rs[..i], rs[i + 1..]);
    assert ConcatSuccesses([rs[i]]) == [];
  }

  /** A node is in the concatenation exactly when some successful attempt returned it. */
  lemma {:induction false} ConcatMembership(rs: seq<Result<seq<DrupalNode>, string>>, n: DrupalNode)
    ensures n in ConcatSuccesses(rs) <==> exists i :: 0 <= i < |rs| && rs[i].Ok? && n in rs[i].value
  {
    if rs != [] {
      ConcatMembership(rs[1..], n);
      if n in ConcatSuccesses(rs) && !(rs[0].Ok? && n in rs[0].value) {
        var j :| 0 <= j < |rs[1..]| && rs[1..][j].Ok? && n in rs[1..][j].value;
        assert rs[j + 1] == rs[1..][j];
      }
      if exists i :: 0 <= i < |rs| && rs[i].Ok? && n in rs[i].value {
        var i :| 0 <= i < |rs| && rs[i].Ok? && n in rs[i].value;
        if i > 0 {
          assert rs[1..][i - 1] == rs[i];
        }
      }
    }
  }

  /** Every node the search returns came from a successful query of one of the listed types. */
  lemma SearchResultsComeFromTypes(c: HttpClient, t: Transport, searchTerm: string, limit: nat, types: seq<ContentType>, n: DrupalNode)
    requires ListContentTypesResult(c, t) == Ok(types)
    requires n in SearchContentResult(c, t, searchTerm, limit).value
    ensures exists i :: 0 <= i < |types|
              && QueryContentResult(c, t, types[i].id, SearchOptions(searchTerm, CeilDiv(limit, |types|))).Ok?
              && n in QueryContentResult(c, t, types[i].id, SearchOptions(searchTerm, CeilDiv(limit, |types|))).value
  {
    var rs := Attempts(c, t, searchTerm, limit, types);
    var all := ConcatSuccesses(rs);
    assert n in all;
    ConcatMembership(rs, n);
    var i :| 0 <= i < |rs| && rs[i].Ok? && n in rs[i].value;
    assert rs[i] == QueryContentResult(c, t, types[i].id, SearchOptions(searchTerm, CeilDiv(limit, |types|)));
  }

  /** Results of an earlier type come before those of a later one: the first type's nodes open the concatenation. */
  lemma ConcatListingOrder(rs: seq<Result<seq<DrupalNode>, string>>, k: nat)
    requires k <= |rs|
    ensures ConcatSuccesses(rs[..k]) <= ConcatSuccesses(rs)
  {
    assert rs == rs[..k] + rs[k..];
    ConcatSuccessesAppend(rs[..k], rs[k..]);
  }
}
