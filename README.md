# Hotel booking agent — a verified model of its deterministic core

The hotel booking agent is a command-line assistant. A language model (Gemini) decides when to
search for hotels or to build a booking link. The two tools run in a separate MCP server process
that the agent starts over stdio. This project models in Dafny the logic that sits between the
agent and those external collaborators, and proves what that logic promises:

- **The MCP bridge** (`McpBridge`, `Mcp`).
  - `MCPClientManager.connect` computes the child environment (`PYTHONPATH` with the project root
    in front) and the launch parameters, then opens and initialises a session.
  - `get_langchain_tools` turns each server tool's JSON Schema `inputSchema` into a field table.
    It uses the `type` keyword (section 6.1.1 of JSON Schema Validation 2020-12) and the
    `required` keyword (section 6.5.3).
  - Each translated tool carries an executor bound to its tool's name. The executor joins the
    text segments of the answer with newlines.
- **The Gemini turn loop** (`Agent`): the quit check, the preference context, the prompt, and
  the `while response.function_calls` / `for fc` tool loop with its `result_text +=`
  accumulation.
- **The LangGraph agent** (`AgentGraph`):
  - the `chatbot`/`tools` graph built with `add_node`/`add_edge`;
  - the `should_continue` router, with a run semantics for the graph;
  - the lazily created module-global manager.
- **The booking link** (`Booking`, `FormUrlEncoding`, `Utf8`): the base URL, `?`, and
  `urlencode({"q": hotel_name, "dpr": 1})`. Python's `quote_plus` is modelled with UTF-8
  (RFC 3629), the unreserved set of section 2.3 of RFC 3986, and the percent-encoding of
  section 2.1. Reading the query back uses `parse_qsl(query, keep_blank_values=True)`; with the
  default `keep_blank_values=False` a pair with an empty value, such as `q=` for an empty hotel
  name, would be dropped.
- **The hotel search** (`HotelSearch`): the SerpApi parameters, and the projection of raw
  properties into seven-key records cut to ten.

The model treats these as parameters or as functions of everything sent so far:

- the model's replies;
- the MCP server's answers;
- SerpApi;
- the preference store;
- `os.environ`, `os.path.abspath`, `sys.executable` and the process launch.

Shared pieces:

- Python dictionaries are insertion-ordered association lists (`Json.Dict`).
- JSON values are `Json.Json`.
- Python exceptions are `Wrappers.Exception` values carried in `Result`.

The two unbounded loops of `HotelAgent.run` are stepped from outside, because the code gives
them no bound:

- `Agent.Conversation.OnInput` is one pass of `while True`.
- `Agent.Conversation.ToolRound` is one pass of `while response.function_calls`.
- `Agent.Rounds` iterates passes as a function, so properties of several passes can be stated.

Three behaviours of the code are worth stating plainly:

- the tool loop puts no bound on model↔tool round trips, and `Agent.NoRoundBound` proves that
  none exists;
- a function call whose name the server does not know goes to the server like any other; the
  agent makes up no result for it;
- the bridge's executor joins text segments with `"\n"`, while `agent.py` concatenates them
  with no separator.

## Model

| member | source | states |
|---|---|---|
| McpBridge.ProjectRootOfLayout | src/mcp_bridge.py:26-28 | for a script at `<root>/<dir>/<script>`, the project root (two `dirname` steps) is `<root>` |
| PosixPath.DirnameJoin | src/mcp_bridge.py:26-28 | `dirname(join(d, name)) == d` for a directory `d` in `dirname`'s normal form and a single path component `name` |
| McpBridge.ChildEnvironment | src/mcp_bridge.py:30-35 | the child environment has exactly the keys of `os.environ` plus `PYTHONPATH`. An existing `PYTHONPATH` becomes `root + ":" + old`; a missing one becomes `root`. Every other entry is kept |
| McpBridge.LaunchEnvOfLayout | src/mcp_bridge.py:24-35 | for a script at `<root>/<src>/<script>`, the launch environment's `PYTHONPATH` is `<root>` when `os.environ` has none, and `<root> + ":" + old` otherwise. The keys are those of `os.environ` plus `PYTHONPATH`, and every other variable is inherited unchanged |
| McpBridge.ChildEnv | src/mcp_bridge.py:30-35 | the environment built step by step is `ChildEnvironment`, the one `LaunchParams` launches with. The child environment has exactly the keys of `os.environ` plus `PYTHONPATH`. An existing `PYTHONPATH` becomes `root + ":" + old`; a missing one becomes `root`. Every other entry is copied unchanged |
| McpBridge.MCPClientManager.constructor | src/mcp_bridge.py:17-20 | a new manager keeps its script path, has no session and has an empty exit stack |
| McpBridge.MCPClientManager.Connect | src/mcp_bridge.py:22-52 | the launch parameters are `LaunchParams`: `sys.executable`, `[script]` and the child environment. If the launch fails, the session is unchanged. Otherwise a fresh, open session is stored, both contexts are pushed in order, and the result is the handshake's error, if any. The session stays stored even when `initialize` fails |
| McpBridge.MCPClientManager.Disconnect | src/mcp_bridge.py:55-62 | the exit stack is unwound and emptied, and every session entered on it is closed, its request log kept. `self.session` still refers to the closed session, so later `call_tool`/`list_tools` through it raise |
| McpBridge.TypeOf | src/mcp_bridge.py:82-88 | a type other than `str` is chosen only when `type` is exactly that type's JSON Schema keyword |
| McpBridge.TypeOfKeyword | src/mcp_bridge.py:82-88 | `integer`, `number`, `boolean`, `array` and `object` map to int, float, bool, list and dict, and `string` maps to str |
| McpBridge.FieldFor | src/mcp_bridge.py:81-95 | a property yields a field exactly when its schema is a dict and `name in required` can be evaluated. The field's type is the mapped `type`. The field is required exactly when the name is in `required`; otherwise it is optional with default None |
| McpBridge.FieldTableShape | src/mcp_bridge.py:78-95 | with distinct property names, there is one field per property, in property order, each the field of its own property. A name listed only in `required` yields no field |
| McpBridge.TableOk | src/mcp_bridge.py:81-95 | the per-property loop completes exactly when the rule yields a field for every property, in either direction |
| McpBridge.FieldTableOk | src/mcp_bridge.py:81-95 | the field table is built exactly when every property yields a field: its schema is a dict, and whether its name is in `required` can be evaluated |
| McpBridge.BuildFields | src/mcp_bridge.py:76-95 | the `for name, prop in properties.items()` loop builds exactly the field table of `SchemaFields`. `properties` defaults to `{}` and `required` to `[]`, and the loop's failures come first-come |
| McpBridge.TranslateTools | src/mcp_bridge.py:74-117 | succeeds exactly when every tool translates. Then it yields one LangChain tool per MCP tool, in listing order, with the same name and description and an executor bound to that same name. A failure is the failure of some listed tool |
| McpBridge.MCPClientManager.GetLangchainTools | src/mcp_bridge.py:64-74 | with no session, it connects as `connect` does with `LaunchParams`. A failed launch is returned and leaves the manager as it was. Otherwise a fresh, open, unused session on the launched server is stored and both contexts are pushed; a handshake error is returned. An existing session is reused, with no reconnect, even a closed one, and then the call raises ClosedResourceError. On a reused open session the stored handshake outcome plays no part: a good listing whose tools all translate succeeds. A listing error is returned. On success the session is open and the result has one translated tool per listed tool, in order. With an open session, a good handshake and listing and every tool translating, it succeeds |
| McpBridge.MCPClientManager.Execute | src/mcp_bridge.py:101-107 | with no session it raises `RuntimeError("MCP Session disconnected")`; on a closed session the call raises and nothing is sent. Otherwise it sends exactly one request, under the tool's own bound name with the given arguments. It returns the `"\n"`-join of the text segments, or propagates the raised error |
| McpBridge.ResultTextSplits | src/mcp_bridge.py:106-107 | splitting the executor's answer at newlines gives back the text segments in order, when none contains a newline |
| McpBridge.ToolNameArgumentRedirects | src/mcp_bridge.py:101-105 | as written, an argument named `tool_name` replaces the bound name: a `search_hotels` call is sent to `book_hotel` |
| Mcp.ClientSession.CallTool | src/mcp_bridge.py:105 | on an open session, each `call_tool` appends exactly its request to the session's log and the outcome is the server's answer to the log; on a closed one it raises and the log is unchanged |
| Agent.NewHotelAgent | src/agent.py:19-22 | construction succeeds exactly when `GOOGLE_API_KEY` is set and non-empty, keeping that key; otherwise it raises ValueError |
| Agent.QuitSpellings | src/agent.py:115-116 | the session ends exactly for `quit` or `exit` in any mix of upper and lower case, and for no other input |
| Agent.PreferencesRecoverable | src/agent.py:119-121 | a non-empty retrieval is joined with newlines, so that preferences without newlines split back out of the context |
| Agent.PreferencesFallbacks | src/agent.py:119-123 | a raising retrieval gives "Memory unavailable."; an empty one gives "No specific preferences found."; the two differ |
| Agent.PromptLines | src/agent.py:126-130 | for any context, the prompt's lines are: an empty line, the input line, the preferences line carrying the context's first line, the context's other lines, the task line, and the trailing indentation. For a one-line context these are exactly five lines carrying the input and the context verbatim |
| Agent.PromptCarriesPreferences | src/agent.py:119-130 | with retrieved preferences free of newlines, the first one is on the `User Preferences:` line and each other one is a prompt line of its own, in order |
| Agent.CollectText | src/agent.py:149-153 | the `result_text +=` loop yields the concatenation, without separator, of the text segments in order |
| Agent.ResultTextAppend | src/agent.py:149-153 | the result text of `a + b` is the result text of `a` followed by that of `b` |
| Agent.ResultTextSkipsOthers | src/agent.py:150-153 | content with no text segment, the empty list included, gives `""` |
| Agent.Chat.SendMessage | src/agent.py:134 | each send appends exactly its message to the chat; the reply is the model's reply to everything sent |
| Agent.RoundResponds | src/agent.py:137-167 | in one pass, the calls of the response that began the pass are executed in order. Each call gets exactly one function response, with its own name and the text of its own result, an exception's `Error: ` text included. Only a failed send ends the pass early. A finished pass has answered every call and holds the model's reply to the last function response |
| Agent.ToolErrorsDoNotAbort | src/agent.py:144-159 | when every send is answered, a pass finishes and sends one function response per call, whatever the tools do |
| Agent.NoRoundBound | src/agent.py:137 | for every `n`, a model that keeps requesting calls keeps the loop going after `n` passes: only the model ends it |
| Agent.Shown | src/agent.py:169-170 | the answer is shown exactly when the final response has non-empty text, and it is that text |
| Agent.Conversation.OnInput | src/agent.py:111-134 | a quit input stops the session and sends nothing. Any other input sends exactly one prompt built from the input and the preference context. A failed send aborts only the turn. A response with calls enters the tool loop; one without calls shows its text |
| Agent.Conversation.ToolRound | src/agent.py:137-175 | on the open session `run` holds, the chat log, the session log and the outcome are those of `Round` on the calls of the response that began the pass. The tool loop continues exactly when the latest response has calls. A failed send aborts only the turn |
| AgentGraph.ShouldContinue | src/agent_graph.py:62-67 | routes to `tools` exactly when the last message is an AI message with tool calls, and to END exactly when it is one without. An empty list and a non-AI last message raise |
| AgentGraph.StateGraph.AddNode | src/agent_graph.py:56-57 | a new name is appended to the nodes; a repeated name is refused and nothing changes |
| AgentGraph.StateGraph.AddEdge | src/agent_graph.py:59-70 | the edge is appended; nodes and branches are unchanged |
| AgentGraph.StateGraph.AddConditionalEdges | src/agent_graph.py:69 | the node is appended to the branching nodes; nodes and edges are unchanged |
| AgentGraph.BuildWorkflow | src/agent_graph.py:55-72 | the builder calls yield the compiled graph: nodes `chatbot` and `tools`, edges START→chatbot and tools→chatbot, and `chatbot` branching. Every edge of it leaves START or a node and enters END or a node |
| AgentGraph.Routing | src/agent_graph.py:59-70 | the graph starts at `chatbot`; `tools` always returns to `chatbot`; after `chatbot` adds its message, the graph goes to `tools` exactly when that message has tool calls, otherwise to END |
| AgentGraph.ChatbotAddsOneMessage | src/agent_graph.py:48-52 | the `chatbot` step never fails and adds exactly one message, the model's response |
| AgentGraph.StepOnGraph | src/agent_graph.py:48-70 | every step from a reachable point succeeds and leads to a reachable point |
| AgentGraph.RunOnGraph | src/agent_graph.py:62-70 | a run from START never fails to route, and it reaches END only right after a chatbot message without tool calls |
| AgentGraph.ServerPathBesideModule | src/agent_graph.py:28-29 | the server script is in the module's own directory, and the manager's project root is that directory's parent |
| AgentGraph.Registry.GetMcpManager | src/agent_graph.py:22-33 | as written: the first call creates and caches a manager for `server.py` and then raises AttributeError on `start`. Later calls return the same cached, never-connected instance |
| AgentGraph.Registry.GetMcpManagerConnected | src/agent_graph.py:22-33 | while none is cached, a manager for `server.py` is created, cached and connected with the launch parameters `connect` computes: its session is the launched server's, open and unused, and the call succeeds exactly when the handshake does; a failed launch or handshake is returned with the new manager still cached. Later calls return the same instance untouched, without connecting again |
| AgentGraph.CreateGraphAsWritten | src/agent_graph.py:35-38 | as written, every call raises AttributeError. The first call caches a fresh, unconnected manager for `server.py` and fails on `start`; later calls keep that same manager and fail on `get_tools` |
| AgentGraph.CreateGraph | src/agent_graph.py:35-72 | on a first call, with no cached manager, the launch of `server.py` decides the result. A failed launch, a handshake error or a listing error is returned. When all three succeed and every listed tool translates, the call succeeds, and its tools are those translations, one per listed tool, in order. In every case, on success the graph is the one `BuildWorkflow` builds, and its tools are the translations of the connected server's listed tools, one per tool, in order. When the manager it ends with has an open session with a good handshake and listing, and every listed tool translates, it succeeds |
| Booking.GenerateBookingLink | src/tools/booking.py:4-19 | the link is the base URL, `?`, `q=`, the `quote_plus` form of the name and `&dpr=1`, whatever the dates |
| Booking.LinkQueryParses | src/tools/booking.py:11-19 | the link's query parses back, under `parse_qsl(query, keep_blank_values=True)`, to exactly `[("q", hotel_name), ("dpr", "1")]`, an empty name included |
| Booking.EncodedNameCannotInject | src/tools/booking.py:18 | the encoded name contains only unreserved characters, `+` and `%HH` triples, and never `&`, `=`, `?`, `#` or a space |
| Booking.LinkDeterminesHotel | src/tools/booking.py:4-19 | equal links come from equal hotel names |
| FormUrlEncoding.QuotePlusUnreserved | src/tools/booking.py:18 | a string of unreserved characters is left as it is |
| FormUrlEncoding.QuoteBytesWellQuoted | src/tools/booking.py:18 | every byte encodes to an unreserved character, `+`, or `%` and two upper-case hex digits |
| FormUrlEncoding.UnquotePlusQuotePlus | src/tools/booking.py:18 | form-decoding the encoded text gives back the text |
| FormUrlEncoding.QuotePlusInjective | src/tools/booking.py:18 | distinct texts encode differently |
| FormUrlEncoding.ParseQslUrlEncode | src/tools/booking.py:18 | `parse_qsl(urlencode(pairs), keep_blank_values=True) == pairs` for every list of text pairs, in order, empty values included |
| Utf8.DecodeEncode | src/tools/booking.py:18 | decoding the UTF-8 encoding of a string gives the string back |
| Utf8.EncodeInjective | src/tools/booking.py:18 | distinct strings have distinct UTF-8 encodings |
| HotelSearch.NewHotelSearchTool | src/tools/search.py:8-10 | construction succeeds exactly when `SERPAPI_KEY` is set and non-empty, keeping that key; otherwise it raises ValueError |
| HotelSearch.BuildParams | src/tools/search.py:21-33 | the parameters are `engine`, `q`, `api_key`, `hl`, `gl` and `currency` with their fixed or given values. `check_in_date`/`check_out_date` are present exactly when the date is truthy, and then equal it, in that key order |
| HotelSearch.Project | src/tools/search.py:42-50 | a property projects exactly when it is a dict whose `rate_per_night` is absent or a dict, and the record has exactly the seven keys in order |
| HotelSearch.ProjectDefaults | src/tools/search.py:42-50 | `name` and `rating` come from the property. `description` defaults to `""` and `amenities` to `[]`. `price` is "N/A" when `rate_per_night` or its `lowest` is absent |
| HotelSearch.ProjectAll | src/tools/search.py:39-51 | the loop yields the records of all properties in order, or the first failure |
| HotelSearch.ProjectEachOk | src/tools/search.py:41-51 | success gives one record per property, each the projection of its property |
| HotelSearch.ShapeResultsTruncates | src/tools/search.py:39-53 | with no `properties` key the answer is empty. Otherwise it has `min(10, n)` records, the projections of the first properties in order, each with the seven keys |
| HotelSearch.SearchHotels | src/tools/search.py:21-53 | the request sent has the fixed parameters and the conditional dates. A SerpApi failure propagates. Otherwise the answer is the shaped results |

## Left out

- The MCP stdio transport, JSON-RPC framing and id correlation, and the handshake protocol are
  not modelled; they live in the `mcp` library. A server is data: its handshake outcome, its
  tool listing, and its answer as a function of every request it has received.
- Process spawning: the launch of `stdio_client` is a parameter from the launch parameters to a
  server or an exception.
- `os.environ`, `os.path.abspath` and `sys.executable` are parameters. `abspath`'s normalisation
  of `.`/`..` is not modelled. `os.pathsep` is the POSIX `:`.
- AgentGraph.Registry.GetMcpManagerConnected and AgentGraph.CreateGraph take `abspath(__file__)`
  as an already normalised absolute path. The server path is built from it, so `connect`'s
  `abspath` of that path is taken to be the path itself.
- Pydantic `create_model` and `StructuredTool` validation are not modelled. The field table and
  the `<name>_args` model name are kept as data, and `Field` descriptions are copied as JSON
  values. LangChain's choice of which validated arguments reach the executor is taken to be
  "the ones the caller gave".
- The Gemini chat and the LangGraph model call are functions of the message list. Exceptions
  from the LangGraph model call and from the `ToolNode` are not modelled. The `ToolNode` is
  a function from the message list to the messages it appends.
- LangGraph's `add_messages` replacement of messages with an existing id is not modelled: it
  appends. The runtime's recursion limit is not modelled: a run takes a step count instead.
- The start of `HotelAgent.run` (src/agent.py:29-109) is not modelled: the server parameters
  for `-m src.server`, `initialize`, the ignored `list_tools`, the hard-coded Gemini function
  declarations and `chats.create`. The model starts from an open session and a chat.
- `src/memory.py` is not part of this model: `get_preferences` is a parameter that returns the
  preferences or raises. `src/server.py` is not part of this model.
- `disconnect`'s swallowed `RuntimeError` (asyncio cancel-scope teardown) is not modelled:
  closing always succeeds. A request on a closed session raises `ClosedResourceError` with no
  message in the model; the exact exception the `mcp` library and its streams raise there is
  not modelled.
- AgentGraph.StateGraph: LangGraph's validation is reduced to the edge-endpoint check of
  `Compile`. The reserved START/END node names in `add_node`, END as an edge source and START as
  an edge target in `add_edge`, a graph without an edge from START, and a branch from an unknown
  node are not refused. The graph `create_graph` builds passes all of these checks.
- Agent.NewHotelAgent: `genai.Client(api_key=...)` and `PreferenceMemory()` at src/agent.py:23-24
  are taken to succeed, so construction is shown to succeed whenever the key is set and
  non-empty. A failure in either client is not modelled.
- AgentGraph.CreateGraph: `ChatGoogleGenerativeAI(...)` and `bind_tools(tools)` at
  src/agent_graph.py:42-45 are taken to succeed, so success is shown to follow from a good launch,
  handshake and listing. A failure there, such as a missing `GOOGLE_API_KEY`, is not modelled.
- Agent.Conversation.OnInput: the user's line is a parameter. `input()` at src/agent.py:114 sits
  outside every `try`, so an EOFError or KeyboardInterrupt there ends `run`; the model does not
  capture that exit.
- Printing, logging, `dotenv` and `asyncio` scheduling are left out. Shown text is returned
  instead of printed.
- `str.lower` is modelled on ASCII letters only. For the quit check this is exact: the only
  non-ASCII characters that lower-case to ASCII are U+212A (to `k`, absent from both words) and
  U+0130 (to two characters, which cannot match).
- Python strings holding lone surrogates cannot be represented, so `quote_plus`'s
  `UnicodeEncodeError` on them is not modelled.
- FormUrlEncoding.UnquotePlus: decodes strictly and fails on invalid UTF-8 where Python
  substitutes U+FFFD. It serves only to read links back, and every link decodes.
- JSON numbers keep their lexeme: the code copies them and never computes with them.
- The scripts and checks around the core are not modelled: `scripts/run_agent.py`,
  `scripts/test_llm.py`, `scripts/test_tool_call.py`, `verify_graph.py`, `debug_mcp.py` and
  `check_models.py`.

## Findings

| source | as written | input that shows it | evidently intended | confidence | as-written member | corrected member |
|---|---|---|---|---|---|---|
| src/mcp_bridge.py:101-105 | the executor takes its tool name as a keyword parameter `tool_name` with a default, and the validated arguments arrive as keywords | a server tool `search_hotels` whose schema has a property `tool_name`, called with `tool_name="book_hotel"`: the call goes to `book_hotel` without that argument | each executor always calls its own tool with all its arguments | medium, not executed | McpBridge.ToolNameArgumentRedirects | McpBridge.MCPClientManager.Execute |
| src/agent_graph.py:32 | `get_mcp_manager` awaits `_mcp_manager.start()`, which `MCPClientManager` does not define, after caching the manager | the first call: AttributeError, and every later call returns an unconnected manager | connect the new manager (`connect`) | high, not executed | AgentGraph.Registry.GetMcpManager | AgentGraph.Registry.GetMcpManagerConnected |
| src/agent_graph.py:38 | `create_graph` awaits `manager.get_tools()`, which `MCPClientManager` does not define | any call of `create_graph` raises AttributeError | `get_langchain_tools()` | high, not executed | AgentGraph.CreateGraphAsWritten | AgentGraph.CreateGraph |
