# Search adapter of the web agent, modelled in Dafny

The web agent answers a user's question with a language model that calls one tool: a small
adapter between the agent's tool calls and the Serper Google search API. The adapter is
`PythonMCPServer` and its `FakeMCPSession` wrapper, in `Web-Agent/web_agent.py`. This project
models that adapter and proves what it does:

- `execute(command)` reads `command["action"]`. For `"search"` it sends one POST to
  `https://google.serper.dev/search` with the body `{"q": command["query"], "num": 5}`.
  For any other action it returns `{"error": "Unsupported MCP action"}` and sends nothing.
- `_format_mcp_response(data)` turns the provider's decoded reply into
  `{"mcp_version": "1.0", "results": [...]}`. It makes one entry per element of
  `data["organic"]`, in order. Each entry renames `title`/`link`/`snippet` to
  `title`/`url`/`content`, keeps whatever value `.get` found (None when a key is missing), and
  stamps `source` with `"Serper/Google"`.
- `FakeMCPSession.execute` forwards to its server.

Modules, one per component:

- `JsonData` (`json_data.dfy`): decoded JSON values, the Python exceptions that can get out of
  the adapter (`Fault`), a returns-or-raises `Outcome`, and `dict.get` and `dict[...]`.
- `Normalizer` (`normalizer.dfy`): the response normaliser and how its result renders as a dict.
- `Dispatcher` (`dispatcher.dfy`): the server's configuration, the search request and `execute`.
- `Session` (`session.dfy`): the forwarding facade.
- `Scenarios` (`scenarios.dfy`): end-to-end runs on concrete commands and replies.

How it is modelled:

- The HTTP round trip is a `Backend` function parameter. It takes the `Request` (URL, headers,
  JSON body) and returns the decoded reply or raises.
- `execute` yields a `Run`: what the call returned or raised, plus the list of requests it
  handed to the backend. So "the backend is called exactly once, with `num = 5`" is a statement
  about that list.
- The servers' fields are set once in `__init__` and never change, so `McpServer` and
  `FakeMcpSession` are datatypes. Their methods are member functions.
- Python's exceptions are modelled as outcomes, not as preconditions. The code has no error
  handling, so `KeyError`, `AttributeError` and `TypeError` leave `execute` as they are. An
  `Outcome` value `Raised(...)` names the exception.

The code has no error handling and no validation, and the model keeps it that way:

- A missing `action`, or a search without `query`, raises `KeyError`. No error dict is returned
  (web_agent.py:22-23).
- A transport or JSON-decoding failure propagates as it is. The code never turns it into
  `{"error": "Search failed: ..."}` (web_agent.py:27-33; `Scenarios.TimeoutIsNotWrapped`).
- HTTP status is not checked. The backend's decoded reply is normalised whatever the status.
- The normaliser is total only on well-typed replies. It raises when the reply is not a dict,
  when `organic` is not iterable, or when an `organic` element is not a dict.
  `Normalizer.FormatMcpResponse` states exactly which replies return (`Normalizable`).
- It also accepts two degenerate shapes: an empty string or an empty dict under `organic` gives
  zero results (`Scenarios.DegenerateReplies`).

## Model

| member | source | states |
|---|---|---|
| `Normalizer.FormatItems` | Web-Agent/web_agent.py:38-46 | the comprehension over a list returns iff every element is a dict. It then gives one entry per element, in order, each with title/url/content equal to the element's `get("title")`/`get("link")`/`get("snippet")` and source "Serper/Google". Otherwise it raises AttributeError on `.get`, naming the type of the first non-dict element |
| `Normalizer.FormatMcpResponse` | Web-Agent/web_agent.py:35-47 | returns exactly on `Normalizable` replies, with mcp_version "1.0", as many results as organic elements (0 when the key is absent), and results[i] built from organic[i]. A reply that is not a dict raises AttributeError on `get`. For a dict reply it names the exception: a list `organic` raises AttributeError for its first non-dict element, a None/bool/number `organic` raises TypeError, and a non-empty str or dict `organic` raises AttributeError for `'str'` |
| `Normalizer.FormatOrganic` | Web-Agent/web_agent.py:45 | iterating the `organic` value returns iff it is a list of dicts, an empty str or an empty dict. A list gives one mapped entry per element, the other two give none. A list with a non-dict element raises AttributeError for the first one, a non-empty str or dict raises AttributeError for `'str'` (its items or keys), and None, bool or a number raises TypeError (not iterable) |
| `Normalizer.AbsentOrganicIsEmpty` | Web-Agent/web_agent.py:45 | a dict reply without "organic" normalises to version "1.0" and no results |
| `Normalizer.FormatItemsAppend` | Web-Agent/web_agent.py:38-46 | no reordering, filtering or merging: the results for `xs + ys` are the results for `xs` followed by those for `ys`, and a failure in `xs` is the failure of the whole |
| `Normalizer.RenderedResponse` | Web-Agent/web_agent.py:36-47 | the returned dict has exactly the keys mcp_version ("1.0") and results. Each entry has exactly the keys title, url, content and source, with values `get(...)` or None, and source "Serper/Google" |
| `Normalizer.MissingAndNullRenderAlike` | Web-Agent/web_agent.py:40-42 | a missing "title" gives None, not "". In the returned dict it is indistinguishable from an explicit JSON null |
| `Dispatcher.ServerHeaders` | Web-Agent/web_agent.py:16-19 | headers are exactly X-API-KEY (the environment's key, None if unset) and Content-Type application/json |
| `Dispatcher.NewServer` | Web-Agent/web_agent.py:14-19 | a new server targets https://google.serper.dev with those headers |
| `Dispatcher.McpServer.SearchRequest` | Web-Agent/web_agent.py:28-32 | the request goes to base URL + "/search" with the server's headers. Its body has exactly the keys q (the query, unchecked) and num (5) |
| `Dispatcher.McpServer.HandleSearch` | Web-Agent/web_agent.py:26-33 | exactly one backend call with that request. A backend fault is raised through unchanged. Otherwise the outcome is the normaliser's on the reply |
| `Dispatcher.McpServer.Execute` | Web-Agent/web_agent.py:21-24 | at most one backend call, and one exactly when the action is "search" and a query is present, namely `SearchRequest(command["query"])`. The answer is `{"error": "Unsupported MCP action"}` iff the action is something else. A missing action or query raises KeyError with no call. A search's result is the normaliser's outcome on the backend's reply, the normaliser's exception included, and a backend fault is raised unwrapped |
| `Dispatcher.SearchRequestFixedPolicy` | Web-Agent/web_agent.py:15-31 | every request a new server sends goes to https://google.serper.dev/search, carries the API key, and asks for num 5 whatever the command |
| `Dispatcher.CallsIndependentOfBackend` | Web-Agent/web_agent.py:21-33 | the requests sent depend only on the server and the command, never on the backend's reply |
| `Dispatcher.SearchRequestsDifferOnlyInQuery` | Web-Agent/web_agent.py:28-32 | two search requests share URL, headers and num, and are equal iff their queries are |
| `Session.FakeMcpSession.Execute` | Web-Agent/web_agent.py:54-55 | the session returns exactly its server's `execute` result and backend calls |
| `Session.SessionRejectsUnsupported` | Web-Agent/web_agent.py:22-24 | through the session, a non-search action gets the fixed error dict and sends nothing |
| `Scenarios.SearchOneHit` | Web-Agent/web_agent.py:21-47 | a search for "rust ownership" sends `{"q": "rust ownership", "num": 5}` to /search. With one organic hit `{T, U, S}` it returns `{"mcp_version": "1.0", "results": [{"title": "T", "url": "U", "content": "S", "source": "Serper/Google"}]}` |
| `Scenarios.UnknownAction` | Web-Agent/web_agent.py:22-24 | the action "weather" gets `{"error": "Unsupported MCP action"}` and no request |
| `Scenarios.DegenerateReplies` | Web-Agent/web_agent.py:45 | an empty reply, or an empty string under organic, gives no results. A null organic raises TypeError |
| `Scenarios.TimeoutIsNotWrapped` | Web-Agent/web_agent.py:26-33 | a transport failure is raised from `execute` as it is |
| `Scenarios.MissingKeys` | Web-Agent/web_agent.py:22-23 | a command without action, or a search without query, raises KeyError and sends nothing |

## Left out

- The HTTP transport itself is not modelled (web_agent.py:27-33). That covers the `httpx.AsyncClient` POST, its status, and `response.json()`. All of it is network I/O, so it is the `Backend` parameter. An unset API key reaches the backend as a None header; whether the HTTP client then raises is the backend's business.
- Environment and credential loading is not modelled (web_agent.py:10-11, 17): `load_dotenv`, `os.getenv`, `os.environ`. The key is a parameter of `NewServer`.
- `run_agent` is not modelled (web_agent.py:58-78). It wires the agent framework, the tool adapter and the language-model client, all foreign libraries.
- The interactive `input` loop and its exit check are not modelled (web_agent.py:81-87); they are terminal I/O.
- `Web_Search_Agent/app.py` is not part of this model. It is a chat loop over foreign client and agent libraries, with no logic of its own beyond command checks.
- async/await is not modelled. Every call is awaited in sequence, so each one is a plain function.
- Logging is not modelled; the code has none.
- JSON numbers are integers or reals. NaN and infinities, which Python's decoder also accepts, are not represented.
- Object key order is not represented. The adapter only looks keys up, and the only dict it iterates (an `organic` dict) fails or yields nothing whatever the order.
- Exception messages are abstracted to the exception type and the offending type's name.
