/**
  End-to-end runs of the adapter on concrete commands and replies,
  stated on the dicts the caller receives.
 */
module Scenarios {
  import opened JsonData
  import opened Normalizer
  import opened Dispatcher
  import opened Session

  /** A backend that answers every request with the same decoded reply. */
  function Constant(reply: Outcome<Json>): Backend
  {
    (req: Request) => reply
  }

  /** A search for "rust ownership" whose reply holds one organic hit. */
  lemma SearchOneHit(apiKey: Option<string>)
    ensures var hit := JObj(map["title" := JStr("T"), "link" := JStr("U"), "snippet" := JStr("S")]);
      var run := FakeMcpSession(NewServer(apiKey)).Execute(
        map["action" := JStr("search"), "query" := JStr("rust ownership")],
        Constant(Returned(JObj(map["organic" := JArr([hit])]))));
      && run.calls == [Request("https://google.serper.dev/search",
                               map["X-API-KEY" := apiKey, "Content-Type" := Some("application/json")],
                               JObj(map["q" := JStr("rust ownership"), "num" := JInt(5)]))]
      && run.outcome.Returned?
      && ResponseToJson(run.outcome.value) ==
           JObj(map["mcp_version" := JStr("1.0"),
                    "results" := JArr([JObj(map["title" := JStr("T"), "url" := JStr("U"),
                                                "content" := JStr("S"), "source" := JStr("Serper/Google")])])])
  {
    var hit := JObj(map["title" := JStr("T"), "link" := JStr("U"), "snippet" := JStr("S")]);
    var reply := JObj(map["organic" := JArr([hit])]);
    var item := ResultItem(Some(JStr("T")), Some(JStr("U")), Some(JStr("S")), SOURCE_LABEL);
    assert BASE_URL + SEARCH_PATH == "https://google.serper.dev/search";
    assert OrganicItems(reply) == [hit];
    // the normaliser's contract fixes the single result entry
    var result := FormatMcpResponse(reply).value;
    assert result == NormalizedResult(MCP_VERSION, [item]);
    var rendered := ResultToJson(result).fields["results"].items;
    assert |rendered| == 1 && rendered[0] == ItemToJson(item);
    assert rendered == [ItemToJson(item)];
  }

  /** An unknown action gets the fixed error dict and no request is sent. */
  lemma UnknownAction(apiKey: Option<string>, backend: Backend)
    ensures var run := FakeMcpSession(NewServer(apiKey)).Execute(map["action" := JStr("weather")], backend);
      && run.calls == []
      && run.outcome.Returned?
      && ResponseToJson(run.outcome.value) == JObj(map["error" := JStr("Unsupported MCP action")])
  {
  }

  /**
    A reply without "organic", or with "organic" as an empty string, yields
    an empty result list; one whose "organic" is null raises TypeError.
   */
  lemma DegenerateReplies(server: McpServer, query: Json)
    ensures var c := map["action" := JStr("search"), "query" := query];
      && server.Execute(c, Constant(Returned(JObj(map[])))).outcome == Returned(Normalized(NormalizedResult("1.0", [])))
      && server.Execute(c, Constant(Returned(JObj(map["organic" := JStr("")])))).outcome
           == Returned(Normalized(NormalizedResult("1.0", [])))
      && server.Execute(c, Constant(Returned(JObj(map["organic" := JNull])))).outcome == Raised(TypeError("NoneType"))
  {
  }

  /** A transport failure is raised out of `execute` as it is, not turned into an error dict. */
  lemma TimeoutIsNotWrapped(server: McpServer, query: Json)
    ensures server.Execute(map["action" := JStr("search"), "query" := query],
                           Constant(Raised(TransportError("timed out")))).outcome
            == Raised(TransportError("timed out"))
  {
  }

  /** A command without "action", or a search without "query", raises KeyError. */
  lemma MissingKeys(server: McpServer, backend: Backend)
    ensures server.Execute(map["query" := JStr("q")], backend) == Run(Raised(KeyError("action")), [])
    ensures server.Execute(map["action" := JStr("search")], backend) == Run(Raised(KeyError("query")), [])
  {
  }
}
