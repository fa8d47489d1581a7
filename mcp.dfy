/**
 * The MCP client session the bridge and the agent talk through. The stdio
 * transport, JSON-RPC and the handshake live in the `mcp` library and are
 * not modelled: a session is an object that records every `call_tool`
 * request it sent, and the server's behaviour is given as data — how it
 * answers the handshake, what `list_tools` returns, and how it answers a
 * call given every request it has received so far.
 */
module Mcp {
  import opened Wrappers
  import opened Json

  /** A content segment of a tool result: `TextContent` or another kind (image, resource). */
  datatype Content = TextContent(text: string) | OtherContent(kind: string)

  /** What `session.call_tool` gives back: a result's content list, or a raised exception. */
  datatype ToolOutcome = Returned(content: seq<Content>) | Raised(error: Exception)

  /** One `call_tool(name, arguments=...)` request. */
  datatype Request = Request(name: string, arguments: Dict<Json>)

  /** A tool as `list_tools` describes it. */
  datatype McpTool = McpTool(name: string, description: string, inputSchema: Dict<Json>)

  /** The behaviour of the server process behind a session. */
  datatype Server = Server(
    handshake: Option<Exception>,
    listing: Result<seq<McpTool>>,
    answer: seq<Request> -> ToolOutcome)

  /** The texts of the `type == 'text'` segments, in order; other segments are skipped. */
  function Texts(content: seq<Content>): (ts: seq<string>)
    ensures |ts| <= |content|
  {
    if |content| == 0 then []
    else if content[0].TextContent? then [content[0].text] + Texts(content[1..])
    else Texts(content[1..])
  }

  lemma {:induction false} TextsAppend(a: seq<Content>, b: seq<Content>)
    ensures Texts(a + b) == Texts(a) + Texts(b)
  {
    if |a| == 0 {
      assert a + b == b;
    } else {
      assert (a + b)[1..] == a[1..] + b;
      TextsAppend(a[1..], b);
    }
  }

  /** What a call on a session whose streams were closed raises. */
  const ClosedResource: Exception := Exception("ClosedResourceError", "")

  class ClientSession {
    const server: Server
    /** Every `call_tool` request sent on this session, oldest first. */
    var requests: seq<Request>
    /** Set when the session's context is exited: its streams are closed and every later request raises. */
    var closed: bool

    constructor (server: Server)
      ensures this.server == server && requests == [] && !closed
    {
      this.server := server;
      requests := [];
      closed := false;
    }

    /** `session.call_tool(name, arguments=arguments)`. */
    method CallTool(name: string, arguments: Dict<Json>) returns (outcome: ToolOutcome)
      modifies this
      ensures closed == old(closed)
      ensures closed ==> requests == old(requests) && outcome == Raised(ClosedResource)
      ensures !closed ==> requests == old(requests) + [Request(name, arguments)] && outcome == server.answer(requests)
    {
      if closed {
        return Raised(ClosedResource);
      }
      requests := requests + [Request(name, arguments)];
      outcome := server.answer(requests);
    }

    /** `session.list_tools()`. */
    method ListTools() returns (r: Result<seq<McpTool>>)
      ensures closed ==> r == Err(ClosedResource)
      ensures !closed ==> r == server.listing
    {
      if closed {
        return Err(ClosedResource);
      }
      r := server.listing;
    }

    /** `session.initialize()`: fails with the server's handshake error, if any. */
    method Initialize() returns (r: Option<Exception>)
      ensures closed ==> r == Some(ClosedResource)
      ensures !closed ==> r == server.handshake
    {
      if closed {
        return Some(ClosedResource);
      }
      r := server.handshake;
    }

    /** Leaving the session's context: its streams close; what was sent stays sent. */
    method Close()
      modifies this
      ensures closed && requests == old(requests)
    {
      closed := true;
    }
  }
}
