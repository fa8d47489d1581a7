/**
 * The LangGraph agent (src/agent_graph.py): a two-node state graph —
 * `chatbot` asks the model, `tools` runs the requested tools — routed by
 * `should_continue`, and the module-global `MCPClientManager` it obtains its
 * tools from. The model and the `ToolNode` are functions of the message list.
 */
module AgentGraph {
  import opened Wrappers
  import opened Json
  import PosixPath
  import McpBridge
  import Mcp

  /** LangGraph's names for the entry and exit of a graph. */
  const Start: string := "__start__"
  const End: string := "__end__"
  const ChatbotNode: string := "chatbot"
  const ToolsNode: string := "tools"

  datatype ToolCall = ToolCall(name: string, args: Dict<Json>, id: string)

  /** The messages of `AgentState`. Only an AI message has `tool_calls`. */
  datatype Message =
    | Human(content: string)
    | Ai(content: string, toolCalls: seq<ToolCall>)
    | ToolResult(content: string, toolCallId: string)

  function ClassName(m: Message): string
  {
    match m
    case Human(_) => "HumanMessage"
    case Ai(_, _) => "AIMessage"
    case ToolResult(_, _) => "ToolMessage"
  }

  /** The two outcomes `should_continue` may return. */
  datatype Route = ToTools | ToEnd

  /**
   * `should_continue`: to `tools` when the last message carries tool calls,
   * to END otherwise. `messages[-1]` fails on an empty list, and
   * `.tool_calls` on anything but an AI message.
   */
  function ShouldContinue(messages: seq<Message>): (r: Result<Route>)
    ensures r == Ok(ToTools) <==> |messages| > 0 && messages[|messages| - 1].Ai? && |messages[|messages| - 1].toolCalls| > 0
    ensures r == Ok(ToEnd) <==> |messages| > 0 && messages[|messages| - 1].Ai? && |messages[|messages| - 1].toolCalls| == 0
  {
    if |messages| == 0 then Err(Exception("IndexError", "list index out of range"))
    else
      var last := messages[|messages| - 1];
      if !last.Ai? then Err(Exception("AttributeError", "'" + ClassName(last) + "' object has no attribute 'tool_calls'"))
      else if |last.toolCalls| > 0 then Ok(ToTools)
      else Ok(ToEnd)
  }

  /** A compiled graph: its nodes, its fixed edges, and the nodes whose exit `should_continue` decides. */
  datatype Workflow = Workflow(nodes: seq<string>, edges: seq<(string, string)>, branches: seq<string>)

  /** Every fixed edge leaves START or a node of the graph and enters END or a node of the graph. */
  predicate Wired(w: Workflow)
  {
    forall k :: 0 <= k < |w.edges| ==>
      (w.edges[k].0 == Start || w.edges[k].0 in w.nodes) && (w.edges[k].1 == End || w.edges[k].1 in w.nodes)
  }

  /** The `StateGraph` builder, filled in by `add_node`, `add_edge` and `add_conditional_edges`. */
  class StateGraph {
    var nodes: seq<string>
    var edges: seq<(string, string)>
    var branches: seq<string>

    constructor ()
      ensures nodes == [] && edges == [] && branches == []
    {
      nodes, edges, branches := [], [], [];
    }

    /** A node name may be added once only. */
    method AddNode(name: string) returns (r: Option<Exception>)
      modifies this
      ensures name in old(nodes) ==> r.Some? && nodes == old(nodes)
      ensures name !in old(nodes) ==> r == None && nodes == old(nodes) + [name]
      ensures edges == old(edges) && branches == old(branches)
    {
      if name in nodes {
        return Some(Exception("ValueError", "Node `" + name + "` already present."));
      }
      nodes := nodes + [name];
      r := None;
    }

    method AddEdge(source: string, target: string)
      modifies this
      ensures edges == old(edges) + [(source, target)]
      ensures nodes == old(nodes) && branches == old(branches)
    {
      edges := edges + [(source, target)];
    }

    method AddConditionalEdges(source: string)
      modifies this
      ensures branches == old(branches) + [source]
      ensures nodes == old(nodes) && edges == old(edges)
    {
      branches := branches + [source];
    }

    /** `compile`: every edge must leave START or a node and enter END or a node. */
    function Compile(): (r: Result<Workflow>)
      reads this
      ensures r.Ok? ==> r.value.nodes == nodes && r.value.edges == edges && r.value.branches == branches
      ensures r.Ok? ==> Wired(r.value)
      ensures r.Err? ==> r.error.kind == "ValueError" && !Wired(Workflow(nodes, edges, branches))
    {
      if forall e :: e in edges ==> (e.0 == Start || e.0 in nodes) && (e.1 == End || e.1 in nodes)
      then Ok(Workflow(nodes, edges, branches))
      else Err(Exception("ValueError", "Found edge to or from an unknown node"))
    }
  }

  /** The graph `create_graph` builds. */
  const Graph: Workflow := Workflow([ChatbotNode, ToolsNode], [(Start, ChatbotNode), (ToolsNode, ChatbotNode)], [ChatbotNode])

  /** The `workflow.add_node` / `add_edge` / `add_conditional_edges` / `compile` sequence of `create_graph`. */
  method BuildWorkflow() returns (r: Result<Workflow>)
    ensures r == Ok(Graph)
    ensures Wired(r.value)
  {
    var workflow := new StateGraph();
    assert ChatbotNode != ToolsNode;
    var _ := workflow.AddNode(ChatbotNode);
    var _ := workflow.AddNode(ToolsNode);
    workflow.AddEdge(Start, ChatbotNode);
    workflow.AddConditionalEdges(ChatbotNode);
    workflow.AddEdge(ToolsNode, ChatbotNode);
    assert workflow.nodes == Graph.nodes && workflow.edges == Graph.edges && workflow.branches == Graph.branches;
    r := workflow.Compile();
  }

  /** The target of the first fixed edge leaving `node`. */
  function EdgeTarget(edges: seq<(string, string)>, node: string): Option<string>
  {
    if |edges| == 0 then None
    else if edges[0].0 == node then Some(edges[0].1)
    else EdgeTarget(edges[1..], node)
  }

  /** Where the graph goes after `node` has run and left `messages`. */
  function Next(w: Workflow, node: string, messages: seq<Message>): Result<string>
  {
    if node in w.branches then
      match ShouldContinue(messages)
      case Err(e) => Err(e)
      case Ok(ToTools) => Ok(ToolsNode)
      case Ok(ToEnd) => Ok(End)
    else
      match EdgeTarget(w.edges, node)
      case None => Err(Exception("ValueError", "no edge leaves " + node))
      case Some(target) => Ok(target)
  }

  /**
   * The graph starts at `chatbot`, `tools` always returns to `chatbot`, and
   * `chatbot` leaves for `tools` exactly when its message has tool calls,
   * for END otherwise.
   */
  lemma Routing(messages: seq<Message>, content: string, calls: seq<ToolCall>)
    ensures Next(Graph, Start, messages) == Ok(ChatbotNode)
    ensures Next(Graph, ToolsNode, messages) == Ok(ChatbotNode)
    ensures Next(Graph, ChatbotNode, messages + [Ai(content, calls)]) == Ok(if |calls| > 0 then ToolsNode else End)
  {
    assert ToolsNode != ChatbotNode && ToolsNode != Start && Start != ChatbotNode;
    assert ToolsNode !in Graph.branches;
    assert Graph.edges[1..] == [(ToolsNode, ChatbotNode)];
    assert EdgeTarget(Graph.edges[1..], ToolsNode) == Some(ChatbotNode);
    assert EdgeTarget(Graph.edges, ToolsNode) == Some(ChatbotNode);
  }

  /** A point of a run: the node about to run and the messages so far. */
  datatype Config = Config(node: string, messages: seq<Message>)

  /** The model's answer to the message list. */
  datatype AiReply = AiReply(content: string, toolCalls: seq<ToolCall>)

  /**
   * Running one node: `chatbot` returns `{"messages": [response]}`, which
   * `add_messages` appends; `tools` appends what the `ToolNode` returns;
   * START runs nothing. Then the graph routes.
   */
  function Step(w: Workflow, llm: seq<Message> -> AiReply, toolNode: seq<Message> -> seq<Message>, c: Config): Result<Config>
  {
    var messages :=
      if c.node == ChatbotNode then c.messages + [Ai(llm(c.messages).content, llm(c.messages).toolCalls)]
      else if c.node == ToolsNode then c.messages + toolNode(c.messages)
      else c.messages;
    match Next(w, c.node, messages)
    case Err(e) => Err(e)
    case Ok(next) => Ok(Config(next, messages))
  }

  /** The `chatbot` node adds exactly one message, the model's response. */
  lemma ChatbotAddsOneMessage(llm: seq<Message> -> AiReply, toolNode: seq<Message> -> seq<Message>, messages: seq<Message>)
    ensures Step(Graph, llm, toolNode, Config(ChatbotNode, messages)).Ok?
    ensures Step(Graph, llm, toolNode, Config(ChatbotNode, messages)).value.messages
              == messages + [Ai(llm(messages).content, llm(messages).toolCalls)]
  {
    Routing(messages, llm(messages).content, llm(messages).toolCalls);
  }

  /** At most `steps` node executions from `c`, stopping at END. */
  function Run(w: Workflow, llm: seq<Message> -> AiReply, toolNode: seq<Message> -> seq<Message>, c: Config, steps: nat): Result<Config>
    decreases steps
  {
    if steps == 0 || c.node == End then Ok(c)
    else
      match Step(w, llm, toolNode, c)
      case Err(e) => Err(e)
      case Ok(c') => Run(w, llm, toolNode, c', steps - 1)
  }

  /** The last message is the model's, with tool calls (`calls`) or without. */
  predicate LastIsAi(messages: seq<Message>, calls: bool)
  {
    |messages| > 0 && messages[|messages| - 1].Ai? && (|messages[|messages| - 1].toolCalls| > 0 <==> calls)
  }

  /** The points a run of `Graph` can reach from START. */
  predicate OnGraph(c: Config)
  {
    || c.node == Start
    || c.node == ChatbotNode
    || (c.node == ToolsNode && LastIsAi(c.messages, true))
    || (c.node == End && LastIsAi(c.messages, false))
  }

  lemma StepOnGraph(llm: seq<Message> -> AiReply, toolNode: seq<Message> -> seq<Message>, c: Config)
    requires OnGraph(c) && c.node != End
    ensures Step(Graph, llm, toolNode, c).Ok?
    ensures OnGraph(Step(Graph, llm, toolNode, c).value)
  {
    Routing(c.messages, llm(c.messages).content, llm(c.messages).toolCalls);
    Routing(c.messages + toolNode(c.messages), "", []);
  }

  /**
   * A run from START never fails to route (`should_continue` always sees
   * the model's message), and it reaches END only right after a `chatbot`
   * message without tool calls.
   */
  lemma {:induction false} RunOnGraph(llm: seq<Message> -> AiReply, toolNode: seq<Message> -> seq<Message>, c: Config, steps: nat)
    requires OnGraph(c)
    ensures Run(Graph, llm, toolNode, c, steps).Ok?
    ensures OnGraph(Run(Graph, llm, toolNode, c, steps).value)
    ensures Run(Graph, llm, toolNode, c, steps).value.node == End ==> LastIsAi(Run(Graph, llm, toolNode, c, steps).value.messages, false)
    decreases steps
  {
    if steps > 0 && c.node != End {
      StepOnGraph(llm, toolNode, c);
      RunOnGraph(llm, toolNode, Step(Graph, llm, toolNode, c).value, steps - 1);
    }
  }

  /** `server_path`: `server.py` next to the module file. */
  function ServerPath(moduleAbsPath: string): string
  {
    PosixPath.Join(PosixPath.Dirname(moduleAbsPath), "server.py")
  }

  /** The server script sits in the module's own directory. */
  lemma ServerPathBesideModule(moduleAbsPath: string)
    ensures PosixPath.Dirname(ServerPath(moduleAbsPath)) == PosixPath.Dirname(moduleAbsPath)
    ensures McpBridge.ProjectRoot(ServerPath(moduleAbsPath)) == PosixPath.Dirname(PosixPath.Dirname(moduleAbsPath))
  {
    PosixPath.DirnameJoin(PosixPath.Dirname(moduleAbsPath), "server.py");
  }

  /** The module-global `_mcp_manager`. */
  class Registry {
    var manager: McpBridge.MCPClientManager?

    constructor ()
      ensures manager == null
    {
      manager := null;
    }

    /**
     * `get_mcp_manager` as written: the first call creates and caches the
     * manager, then calls `start`, which `MCPClientManager` does not define,
     * so it raises; later calls return the cached, never-connected manager.
     */
    method GetMcpManager(moduleAbsPath: string) returns (r: Result<McpBridge.MCPClientManager>)
      modifies this
      ensures old(manager) == null ==>
                && manager != null && fresh(manager)
                && manager.serverScriptPath == ServerPath(moduleAbsPath)
                && manager.session == null && manager.exitStack == []
                && r == Err(Exception("AttributeError", "'MCPClientManager' object has no attribute 'start'"))
      ensures old(manager) != null ==> manager == old(manager) && r == Ok(manager)
    {
      if manager == null {
        manager := new McpBridge.MCPClientManager(ServerPath(moduleAbsPath));
        return Err(Exception("AttributeError", "'MCPClientManager' object has no attribute 'start'"));
      }
      r := Ok(manager);
    }

    /**
     * `get_mcp_manager` with the manager's own `connect`: a manager is
     * created and connected only while none is cached; afterwards the same
     * instance comes back untouched. The server path is built from the
     * normalised absolute `moduleAbsPath`, so `connect`'s `abspath` of it is
     * the path itself.
     */
    method GetMcpManagerConnected(moduleAbsPath: string, environ: map<string, string>,
                                  executable: string, launch: McpBridge.ServerParams -> Result<Mcp.Server>)
      returns (r: Result<McpBridge.MCPClientManager>)
      modifies this
      ensures old(manager) != null ==> manager == old(manager) && r == Ok(manager)
      ensures old(manager) == null ==>
                && manager != null && fresh(manager)
                && manager.serverScriptPath == ServerPath(moduleAbsPath)
                && var launched := launch(McpBridge.LaunchParams(ServerPath(moduleAbsPath), environ, ServerPath(moduleAbsPath), executable));
                   && (launched.Err? ==> r == Err(launched.error) && manager.session == null && manager.exitStack == [])
                   && (launched.Ok? ==>
                         && manager.session != null && fresh(manager.session)
                         && manager.session.server == launched.value
                         && manager.session.requests == [] && !manager.session.closed
                         && |manager.exitStack| == 2
                         && (r.Ok? <==> launched.value.handshake.None?)
                         && (r.Err? ==> r == Err(launched.value.handshake.value)))
      ensures r.Ok? ==> r.value == manager
    {
      if manager != null {
        return Ok(manager);
      }
      var m := new McpBridge.MCPClientManager(ServerPath(moduleAbsPath));
      manager := m;
      var failure, _ := m.Connect(environ, ServerPath(moduleAbsPath), executable, launch);
      if failure.Some? {
        return Err(failure.value);
      }
      r := Ok(m);
    }
  }

  /** What `create_graph` hands back: the compiled workflow and the tools its `ToolNode` and model are bound to. */
  datatype CompiledGraph = CompiledGraph(workflow: Workflow, tools: seq<McpBridge.LangchainTool>)

  /**
   * `create_graph` as written: after `get_mcp_manager` it calls
   * `manager.get_tools()`, which `MCPClientManager` does not define either,
   * so no call ever returns a graph.
   */
  method CreateGraphAsWritten(registry: Registry, moduleAbsPath: string) returns (r: Result<CompiledGraph>)
    modifies registry
    ensures r.Err? && r.error.kind == "AttributeError"
    ensures old(registry.manager) == null ==>
              && registry.manager != null && fresh(registry.manager)
              && registry.manager.serverScriptPath == ServerPath(moduleAbsPath)
              && registry.manager.session == null && registry.manager.exitStack == []
              && r.error.message == "'MCPClientManager' object has no attribute 'start'"
    ensures old(registry.manager) != null ==>
              && registry.manager == old(registry.manager)
              && r.error.message == "'MCPClientManager' object has no attribute 'get_tools'"
  {
    var manager := registry.GetMcpManager(moduleAbsPath);
    if manager.Err? {
      return Err(manager.error);
    }
    r := Err(Exception("AttributeError", "'MCPClientManager' object has no attribute 'get_tools'"));
  }

  /** `create_graph` with `get_langchain_tools`: the manager's tools, bound into `Graph`. */
  method CreateGraph(registry: Registry, moduleAbsPath: string, environ: map<string, string>,
                     executable: string, launch: McpBridge.ServerParams -> Result<Mcp.Server>)
    returns (r: Result<CompiledGraph>)
    modifies registry, registry.manager
    ensures r.Ok? ==> r.value.workflow == Graph
    ensures r.Ok? ==> registry.manager != null && registry.manager.session != null
                      && registry.manager.session.server.listing.Ok?
                      && |r.value.tools| == |registry.manager.session.server.listing.value|
                      && forall i :: 0 <= i < |r.value.tools| ==>
                           McpBridge.Translate(registry.manager.session.server.listing.value[i]) == Ok(r.value.tools[i])
    ensures (&& registry.manager != null && registry.manager.session != null
             && !registry.manager.session.closed
             && registry.manager.session.server.handshake.None?
             && registry.manager.session.server.listing.Ok?
             && forall t :: t in registry.manager.session.server.listing.value ==> McpBridge.Translate(t).Ok?)
            ==> r.Ok?
    ensures old(registry.manager) == null ==>
              var l := launch(McpBridge.LaunchParams(ServerPath(moduleAbsPath), environ, ServerPath(moduleAbsPath), executable));
              && (l.Err? ==> r == Err(l.error))
              && (l.Ok? && l.value.handshake.Some? ==> r == Err(l.value.handshake.value))
              && (l.Ok? && l.value.handshake.None? && l.value.listing.Err? ==> r == Err(l.value.listing.error))
              && (l.Ok? && l.value.handshake.None? && l.value.listing.Ok?
                  && (forall t :: t in l.value.listing.value ==> McpBridge.Translate(t).Ok?) ==>
                    && r.Ok? && |r.value.tools| == |l.value.listing.value|
                    && forall i :: 0 <= i < |r.value.tools| ==> McpBridge.Translate(l.value.listing.value[i]) == Ok(r.value.tools[i]))
  {
    var manager := registry.GetMcpManagerConnected(moduleAbsPath, environ, executable, launch);
    if manager.Err? {
      return Err(manager.error);
    }
    var tools := manager.value.GetLangchainTools(environ, manager.value.serverScriptPath, executable, launch);
    if tools.Err? {
      return Err(tools.error);
    }
    var workflow := BuildWorkflow();
    r := Ok(CompiledGraph(workflow.value, tools.value));
  }
}
