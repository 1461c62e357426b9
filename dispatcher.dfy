/**
  The command dispatcher `PythonMCPServer` (Web-Agent/web_agent.py:13-47):
  its fixed configuration, the search request it builds, and `execute`,
  which routes `"search"` commands to the search provider and answers
  every other action with a fixed error dict.

  The HTTP round trip (the POST and `response.json()`) is a `Backend`
  function passed in. A call's value is a `Run`: what `execute` returns or
  raises, together with the log of requests it sent to the backend.
 */
module Dispatcher {
  import opened JsonData
  import opened Normalizer

  const BASE_URL: string := "https://google.serper.dev"
  const SEARCH_PATH: string := "/search"
  const RESULT_COUNT: int := 5
  const UNSUPPORTED_ACTION: string := "Unsupported MCP action"

  /** An outgoing POST: full URL, headers (a header read from an unset variable is None) and JSON body. */
  datatype Request = Request(url: string, headers: map<string, Option<string>>, body: Json)

  /** One POST to the provider followed by decoding its body; may raise. */
  type Backend = Request -> Outcome<Json>

  /** What `execute` returns: the normalised result or an error dict `{"error": message}`. */
  datatype Response = Normalized(result: NormalizedResult) | ErrorReply(message: string)

  /** The dict `execute` returns. */
  function ResponseToJson(r: Response): Json
  {
    match r
    case Normalized(result) => ResultToJson(result)
    case ErrorReply(message) => JObj(map["error" := JStr(message)])
  }

  /** The outcome of one `execute` call and the requests it sent, in order. */
  datatype Run = Run(outcome: Outcome<Response>, calls: seq<Request>)

  /** `command["action"] == "search"`, for a command that has an action. */
  predicate IsSearch(command: map<string, Json>)
    requires "action" in command
  {
    command["action"] == JStr("search")
  }

  /** The headers `__init__` sets, with the API key read from the environment. */
  function ServerHeaders(apiKey: Option<string>): (h: map<string, Option<string>>)
    ensures h.Keys == {"X-API-KEY", "Content-Type"}
    ensures h["X-API-KEY"] == apiKey && h["Content-Type"] == Some("application/json")
  {
    map["X-API-KEY" := apiKey, "Content-Type" := Some("application/json")]
  }

  /** `PythonMCPServer`: configuration fixed at construction and never changed. */
  datatype McpServer = McpServer(baseUrl: string, headers: map<string, Option<string>>)
  {
    /** The request `_handle_search` sends for `query`, whatever value that is. */
    function SearchRequest(query: Json): (req: Request)
      ensures req.url == baseUrl + SEARCH_PATH
      ensures req.headers == headers
      ensures req.body.JObj? && req.body.fields.Keys == {"q", "num"}
      ensures req.body.fields["q"] == query
      ensures req.body.fields["num"] == JInt(RESULT_COUNT)
    {
      Request(baseUrl + SEARCH_PATH, headers, JObj(map["q" := query, "num" := JInt(RESULT_COUNT)]))
    }

    /** `_handle_search(query)`: one request, then the normaliser on the decoded reply. */
    function HandleSearch(query: Json, backend: Backend): (run: Run)
      ensures run.calls == [SearchRequest(query)]
      ensures backend(SearchRequest(query)).Raised? ==> run.outcome == Raised(backend(SearchRequest(query)).fault)
      ensures backend(SearchRequest(query)).Returned? ==>
        var reply := backend(SearchRequest(query)).value;
        && (run.outcome.Returned? <==> Normalizable(reply))
        && (run.outcome.Returned? ==> run.outcome.value.Normalized? && Returned(run.outcome.value.result) == FormatMcpResponse(reply))
        && (run.outcome.Raised? ==> run.outcome.fault == FormatMcpResponse(reply).fault)
    {
      var req := SearchRequest(query);
      var outcome :=
        match backend(req)
        case Raised(f) => Raised(f)
        case Returned(reply) =>
          (match FormatMcpResponse(reply)
           case Returned(result) => Returned(Normalized(result))
           case Raised(f) => Raised(f));
      Run(outcome, [req])
    }

    /** `execute(command)`. */
    function Execute(command: map<string, Json>, backend: Backend): (run: Run)
      // at most one backend call, and one exactly when a search command carries a query
      ensures |run.calls| <= 1
      ensures |run.calls| == 1 <==> "action" in command && IsSearch(command) && "query" in command
      ensures |run.calls| == 1 ==> run.calls[0] == SearchRequest(command["query"])
      // the fixed error dict is the answer to exactly the non-search actions
      ensures run.outcome == Returned(ErrorReply(UNSUPPORTED_ACTION)) <==> "action" in command && !IsSearch(command)
      ensures run.outcome.Returned? && run.outcome.value.ErrorReply? ==> run.outcome.value.message == UNSUPPORTED_ACTION
      // missing keys raise KeyError before anything is sent
      ensures "action" !in command ==> run == Run(Raised(KeyError("action")), [])
      ensures "action" in command && IsSearch(command) && "query" !in command ==> run == Run(Raised(KeyError("query")), [])
      // a search's answer is the normaliser applied to the backend's reply; a backend fault passes through unwrapped
      ensures |run.calls| == 1 && backend(run.calls[0]).Raised? ==> run.outcome == Raised(backend(run.calls[0]).fault)
      ensures |run.calls| == 1 && backend(run.calls[0]).Returned? ==>
        (run.outcome.Returned? <==> Normalizable(backend(run.calls[0]).value))
      ensures |run.calls| == 1 && backend(run.calls[0]).Returned? && run.outcome.Raised? ==>
        run.outcome.fault == FormatMcpResponse(backend(run.calls[0]).value).fault
      ensures |run.calls| == 1 && run.outcome.Returned? ==>
        run.outcome.value.Normalized? && Returned(run.outcome.value.result) == FormatMcpResponse(backend(run.calls[0]).value)
    {
      match Subscript(command, "action")
      case Raised(f) => Run(Raised(f), [])
      case Returned(action) =>
        if action == JStr("search") then
          match Subscript(command, "query")
          case Raised(f) => Run(Raised(f), [])
          case Returned(query) => HandleSearch(query, backend)
        else
          Run(Returned(ErrorReply(UNSUPPORTED_ACTION)), [])
    }
  }

  /** `PythonMCPServer()`, with the value of `SERPER_API_KEY` (None when unset) as a parameter. */
  function NewServer(apiKey: Option<string>): (s: McpServer)
    ensures s.baseUrl == BASE_URL
    ensures s.headers == ServerHeaders(apiKey)
  {
    McpServer(BASE_URL, ServerHeaders(apiKey))
  }

  /** Every search request a server sends goes to the provider's `/search` endpoint and asks for 5 results. */
  lemma SearchRequestFixedPolicy(apiKey: Option<string>, command: map<string, Json>, backend: Backend)
    ensures forall req :: req in NewServer(apiKey).Execute(command, backend).calls ==>
      && req.url == "https://google.serper.dev/search"
      && req.headers["X-API-KEY"] == apiKey
      && req.body.JObj? && "num" in req.body.fields && req.body.fields["num"] == JInt(5)
  {
  }

  /** What is sent never depends on the reply: two backends see the same requests. */
  lemma CallsIndependentOfBackend(server: McpServer, command: map<string, Json>, b1: Backend, b2: Backend)
    ensures server.Execute(command, b1).calls == server.Execute(command, b2).calls
  {
  }

  /** Two searches differ in their requests only in the query. */
  lemma SearchRequestsDifferOnlyInQuery(server: McpServer, q1: Json, q2: Json)
    ensures server.SearchRequest(q1).url == server.SearchRequest(q2).url
    ensures server.SearchRequest(q1).headers == server.SearchRequest(q2).headers
    ensures server.SearchRequest(q1).body.fields["num"] == server.SearchRequest(q2).body.fields["num"]
    ensures server.SearchRequest(q1) == server.SearchRequest(q2) <==> q1 == q2
  {
  }
}
