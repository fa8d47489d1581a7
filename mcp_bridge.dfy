/**
 * `MCPClientManager` (src/mcp_bridge.py): the child environment and launch
 * parameters `connect` computes, and the translation of the server's tools
 * into LangChain tools — a field table per JSON Schema `inputSchema` and an
 * executor bound to each tool's name.
 */
module McpBridge {
  import opened Wrappers
  import opened Json
  import opened Mcp
  import PosixPath
  import Text

  /** `os.pathsep` on POSIX systems. */
  const PathSep: string := ":"

  const PythonPath: string := "PYTHONPATH"

  /** What `connect` hands to `stdio_client`: `sys.executable`, the script path, and the environment. */
  datatype ServerParams = ServerParams(command: string, args: seq<string>, env: map<string, string>)

  /** The contexts `connect` enters on its `AsyncExitStack`, in order. */
  datatype ExitContext = StdioContext(params: ServerParams) | SessionContext(session: ClientSession)

  /** `project_root`: the parent of the directory holding the (absolute) server script. */
  function ProjectRoot(absScriptPath: string): string
  {
    PosixPath.Dirname(PosixPath.Dirname(absScriptPath))
  }

  /** With the usual layout `<root>/<src>/<script>`, the project root is `<root>`. */
  lemma ProjectRootOfLayout(root: string, srcDir: string, script: string)
    requires PosixPath.IsDirname(root) && PosixPath.IsComponent(srcDir) && PosixPath.IsComponent(script)
    ensures ProjectRoot(PosixPath.Join(PosixPath.Join(root, srcDir), script)) == root
  {
    var dir := PosixPath.Join(root, srcDir);
    assert dir[|dir| - 1] == srcDir[|srcDir| - 1];
    PosixPath.DirnameJoin(dir, script);
    PosixPath.DirnameJoin(root, srcDir);
  }

  /**
   * The environment of the child: a copy of `os.environ` whose `PYTHONPATH`
   * has the project root in front, the previous value kept after `os.pathsep`.
   */
  function ChildEnvironment(environ: map<string, string>, projectRoot: string): (env: map<string, string>)
    ensures env.Keys == environ.Keys + {PythonPath}
    ensures PythonPath in environ ==> env[PythonPath] == projectRoot + PathSep + environ[PythonPath]
    ensures PythonPath !in environ ==> env[PythonPath] == projectRoot
    ensures forall k :: k in environ && k != PythonPath ==> env[k] == environ[k]
  {
    environ[PythonPath := if PythonPath in environ then projectRoot + PathSep + environ[PythonPath] else projectRoot]
  }

  /** `env = os.environ.copy()` followed by the assignment to `env["PYTHONPATH"]`. */
  method ChildEnv(environ: map<string, string>, projectRoot: string) returns (env: map<string, string>)
    ensures env == ChildEnvironment(environ, projectRoot)
    ensures env.Keys == environ.Keys + {PythonPath}
    ensures PythonPath in environ ==> env[PythonPath] == projectRoot + PathSep + environ[PythonPath]
    ensures PythonPath !in environ ==> env[PythonPath] == projectRoot
    ensures forall k :: k in environ && k != PythonPath ==> env[k] == environ[k]
  {
    env := environ;
    if PythonPath in env {
      env := env[PythonPath := projectRoot + PathSep + env[PythonPath]];
    } else {
      env := env[PythonPath := projectRoot];
    }
  }

  /**
   * The parameters `connect` launches the server with: `sys.executable`
   * running the script, in the child environment of the script's project root.
   */
  function LaunchParams(scriptPath: string, environ: map<string, string>, absScriptPath: string, executable: string)
    : (p: ServerParams)
    ensures p.command == executable && p.args == [scriptPath]
    ensures p.env == ChildEnvironment(environ, ProjectRoot(absScriptPath))
  {
    ServerParams(executable, [scriptPath], ChildEnvironment(environ, ProjectRoot(absScriptPath)))
  }

  /**
   * For a script at `<root>/<src>/<script>`, the server's `PYTHONPATH` puts
   * `<root>` in front of the inherited value, or is `<root>` alone, and every
   * other variable is inherited unchanged.
   */
  lemma LaunchEnvOfLayout(root: string, srcDir: string, script: string, scriptPath: string,
                          environ: map<string, string>, executable: string)
    requires PosixPath.IsDirname(root) && PosixPath.IsComponent(srcDir) && PosixPath.IsComponent(script)
    ensures var env := LaunchParams(scriptPath, environ, PosixPath.Join(PosixPath.Join(root, srcDir), script), executable).env;
            && env.Keys == environ.Keys + {PythonPath}
            && (PythonPath in environ ==> env[PythonPath] == root + PathSep + environ[PythonPath])
            && (PythonPath !in environ ==> env[PythonPath] == root)
            && forall k :: k in environ && k != PythonPath ==> env[k] == environ[k]
  {
    ProjectRootOfLayout(root, srcDir, script);
  }

  /** The sessions entered on an exit stack. */
  function Sessions(stack: seq<ExitContext>): set<ClientSession>
  {
    set k | 0 <= k < |stack| && stack[k].SessionContext? :: stack[k].session
  }

  /** The Python type `get_langchain_tools` gives a property. */
  datatype PyType = Str | Int | Float | Bool | List | Dict

  /** The JSON Schema `type` keyword (JSON Schema Validation 2020-12, section 6.1.1) each Python type stands for. */
  function TypeKeyword(ty: PyType): string
  {
    match ty
    case Str => "string"
    case Int => "integer"
    case Float => "number"
    case Bool => "boolean"
    case List => "array"
    case Dict => "object"
  }

  /** `prop.get("type")` compared against five names; anything else, absent included, is `str`. */
  function TypeOf(t: Json): (ty: PyType)
    ensures ty != Str ==> t == JString(TypeKeyword(ty))
  {
    if t == JString("integer") then Int
    else if t == JString("number") then Float
    else if t == JString("boolean") then Bool
    else if t == JString("array") then List
    else if t == JString("object") then Dict
    else Str
  }

  /** The keyword of every Python type maps back to that type. */
  lemma TypeOfKeyword(ty: PyType)
    ensures TypeOf(JString(TypeKeyword(ty))) == ty
  {
  }

  /**
   * One entry of the table handed to `create_model`: a required property
   * becomes `(T, Field(description=...))`, every other one
   * `(Optional[T], Field(default=None, description=...))`.
   */
  datatype FieldDecl = Required(ty: PyType, description: Json) | OptionalNone(ty: PyType, description: Json)

  /** `s` occurs in `t` as a substring (`s in t` for two strings). */
  predicate IsSubstring(s: string, t: string)
  {
    s <= t || (|t| > 0 && IsSubstring(s, t[1..]))
  }

  /** `name in required`: membership for a list, key membership for a dict, substring for a string, else TypeError. */
  function InRequired(name: string, required: Json): Result<bool>
  {
    match required
    case JArray(items) => Ok(JString(name) in items)
    case JObject(members) => Ok(name in Keys(members))
    case JString(s) => Ok(IsSubstring(name, s))
    case _ => Err(Exception("TypeError", "argument of type '" + TypeName(required) + "' is not iterable"))
  }

  /** The field one property schema gives; `prop.get` fails unless the schema is a dict. */
  function FieldFor(name: string, prop: Json, required: Json): (r: Result<FieldDecl>)
    ensures r.Ok? <==> prop.JObject? && InRequired(name, required).Ok?
    ensures r.Ok? ==> r.value.ty == TypeOf(Get(prop.members, "type", JNull))
    ensures r.Ok? ==> (r.value.Required? <==> InRequired(name, required).value)
  {
    match prop
    case JObject(m) =>
      var ty := TypeOf(Get(m, "type", JNull));
      var desc := Get(m, "description", JString(""));
      (match InRequired(name, required)
       case Err(e) => Err(e)
       case Ok(isRequired) => Ok(if isRequired then Required(ty, desc) else OptionalNone(ty, desc)))
    case _ => Err(NoGet(prop))
  }

  /** `fields[name] = value` on an insertion-ordered dict. */
  function Put<V>(d: Dict<V>, key: string, value: V): (r: Dict<V>)
    ensures (forall j :: 0 <= j < |d| ==> d[j].0 != key) ==> r == d + [(key, value)]
  {
    if |d| == 0 then [(key, value)]
    else if d[0].0 == key then [(key, value)] + d[1..]
    else [d[0]] + Put(d[1..], key, value)
  }

  /** The computation of one entry from a property's name and schema. */
  type FieldRule = (string, Json) -> Result<FieldDecl>

  /** The table `rule` builds over the properties in order, putting each entry in, or the first failure. */
  function Table(props: Dict<Json>, rule: FieldRule): Result<Dict<FieldDecl>>
  {
    if |props| == 0 then Ok([])
    else
      match Table(props[..|props| - 1], rule)
      case Err(e) => Err(e)
      case Ok(fields) =>
        match rule(props[|props| - 1].0, props[|props| - 1].1)
        case Err(e) => Err(e)
        case Ok(f) => Ok(Put(fields, props[|props| - 1].0, f))
  }

  /** The field table of the properties, given the schema's `required` value. */
  function FieldTable(props: Dict<Json>, required: Json): Result<Dict<FieldDecl>>
  {
    Table(props, (name, prop) => FieldFor(name, prop, required))
  }

  /** The field table of a tool's `inputSchema`: `properties` defaults to `{}`, `required` to `[]`. */
  function SchemaFields(inputSchema: Dict<Json>): Result<Dict<FieldDecl>>
  {
    var properties := Get(inputSchema, "properties", JObject([]));
    var required := Get(inputSchema, "required", JArray([]));
    if !properties.JObject? then Err(Exception("AttributeError", "'" + TypeName(properties) + "' object has no attribute 'items'"))
    else FieldTable(properties.members, required)
  }

  /**
   * With distinct property names (as in any JSON object), the table has one
   * field per property, in the same order, each the field of that property:
   * a name listed only in `required` adds nothing.
   */
  lemma FieldTableShape(props: Dict<Json>, required: Json, fields: Dict<FieldDecl>)
    requires DistinctKeys(props)
    requires FieldTable(props, required) == Ok(fields)
    ensures Keys(fields) == Keys(props)
    ensures forall i :: 0 <= i < |props| ==> FieldFor(props[i].0, props[i].1, required) == Ok(fields[i].1)
  {
    var rule: FieldRule := (name, prop) => FieldFor(name, prop, required);
    DistinctNewNames(props);
    TableEntries(props, rule, fields);
    SameKeys(fields, props);
    forall i | 0 <= i < |props|
      ensures FieldFor(props[i].0, props[i].1, required) == Ok(fields[i].1)
    {
      assert rule(props[i].0, props[i].1) == FieldFor(props[i].0, props[i].1, required);
    }
  }

  lemma SameKeys<U, V>(a: Dict<U>, b: Dict<V>)
    requires |a| == |b|
    requires forall i :: 0 <= i < |a| ==> a[i].0 == b[i].0
    ensures Keys(a) == Keys(b)
  {
    assert forall i :: 0 <= i < |a| ==> Keys(a)[i] == Keys(b)[i];
  }

  /** Distinct names, stated the way the loop meets them: each name differs from every earlier one. */
  predicate NewNames(props: Dict<Json>)
  {
    |props| == 0 ||
    ((forall j :: 0 <= j < |props| - 1 ==> props[j].0 != props[|props| - 1].0) && NewNames(props[..|props| - 1]))
  }

  lemma {:induction false} DistinctNewNames(props: Dict<Json>)
    requires DistinctKeys(props)
    ensures NewNames(props)
  {
    if |props| > 0 {
      var n := |props| - 1;
      var ks := Keys(props);
      assert forall j :: 0 <= j < n ==> ks[j] != ks[n];
      assert DistinctKeys(props[..n]) by {
        assert forall j :: 0 <= j < n ==> Keys(props[..n])[j] == ks[j];
      }
      DistinctNewNames(props[..n]);
    }
  }

  /** With new names throughout, every property gets its own entry, in place, under its own name. */
  lemma {:induction false} TableEntries(props: Dict<Json>, rule: FieldRule, fields: Dict<FieldDecl>)
    requires NewNames(props)
    requires Table(props, rule) == Ok(fields)
    ensures |fields| == |props|
    ensures forall i :: 0 <= i < |props| ==> fields[i].0 == props[i].0 && rule(props[i].0, props[i].1) == Ok(fields[i].1)
  {
    if |props| > 0 {
      var n := |props| - 1;
      var init := props[..n];
      var prev, f := TableLast(props, rule);
      TableEntries(init, rule, prev);
      assert forall j :: 0 <= j < |prev| ==> prev[j].0 != props[n].0 by {
        assert forall j :: 0 <= j < n ==> init[j] == props[j];
      }
      assert fields == prev + [(props[n].0, f)];
      forall i | 0 <= i < |props|
        ensures fields[i].0 == props[i].0 && rule(props[i].0, props[i].1) == Ok(fields[i].1)
      {
        if i < n {
          assert fields[i] == prev[i] && props[i] == init[i];
        }
      }
    }
  }

  /** A table is built exactly when the rule yields a field for every property. */
  lemma {:induction false} TableOk(props: Dict<Json>, rule: FieldRule)
    ensures Table(props, rule).Ok? <==> forall i :: 0 <= i < |props| ==> rule(props[i].0, props[i].1).Ok?
    decreases |props|
  {
    if |props| > 0 {
      var init := props[..|props| - 1];
      TableOk(init, rule);
      assert forall i :: 0 <= i < |init| ==> init[i] == props[i];
    }
  }

  /**
   * `get_langchain_tools` gets past the field loop exactly when every
   * property's schema is a dict whose membership in `required` can be tested.
   */
  lemma FieldTableOk(props: Dict<Json>, required: Json)
    ensures FieldTable(props, required).Ok? <==>
              forall i :: 0 <= i < |props| ==> FieldFor(props[i].0, props[i].1, required).Ok?
  {
    var rule: FieldRule := (name, prop) => FieldFor(name, prop, required);
    TableOk(props, rule);
    assert forall i :: 0 <= i < |props| ==> rule(props[i].0, props[i].1) == FieldFor(props[i].0, props[i].1, required);
  }

  /** A non-empty table is the table of all but the last property, with that property's entry put in. */
  lemma TableLast(props: Dict<Json>, rule: FieldRule) returns (prev: Dict<FieldDecl>, f: FieldDecl)
    requires |props| > 0 && Table(props, rule).Ok?
    ensures Table(props[..|props| - 1], rule) == Ok(prev)
    ensures rule(props[|props| - 1].0, props[|props| - 1].1) == Ok(f)
    ensures Table(props, rule).value == Put(prev, props[|props| - 1].0, f)
  {
    prev := Table(props[..|props| - 1], rule).value;
    f := rule(props[|props| - 1].0, props[|props| - 1].1).value;
  }

  /** The loop that builds `fields`, one `fields[name] = ...` per property. */
  method BuildFields(inputSchema: Dict<Json>) returns (r: Result<Dict<FieldDecl>>)
    ensures r == SchemaFields(inputSchema)
  {
    var properties := Get(inputSchema, "properties", JObject([]));
    var required := Get(inputSchema, "required", JArray([]));
    if !properties.JObject? {
      return Err(Exception("AttributeError", "'" + TypeName(properties) + "' object has no attribute 'items'"));
    }
    var props := properties.members;
    var fields: Dict<FieldDecl> := [];
    var i := 0;
    while i < |props|
      invariant 0 <= i <= |props|
      invariant FieldTable(props[..i], required) == Ok(fields)
    {
      var (name, prop) := props[i];
      assert props[..i + 1][..i] == props[..i];
      var field := FieldFor(name, prop, required);
      if field.Err? {
        FieldTableErrorPrefix(props, required, i + 1);
        return Err(field.error);
      }
      fields := Put(fields, name, field.value);
      i := i + 1;
    }
    assert props[..i] == props;
    r := Ok(fields);
  }

  lemma {:induction false} FieldTableErrorPrefix(props: Dict<Json>, required: Json, n: nat)
    requires n <= |props| && FieldTable(props[..n], required).Err?
    ensures FieldTable(props, required) == FieldTable(props[..n], required)
    decreases |props| - n
  {
    if n < |props| {
      assert props[..n + 1][..n] == props[..n];
      FieldTableErrorPrefix(props, required, n + 1);
    } else {
      assert props[..n] == props;
    }
  }

  /** A translated tool. `boundName` is the `tool_name` default fixed when `_executor` was defined. */
  datatype LangchainTool = LangchainTool(
    name: string,
    description: string,
    argsModel: string,
    fields: Dict<FieldDecl>,
    boundName: string)

  /** One MCP tool as a LangChain tool: its name and description, its `<name>_args` model and executor. */
  function Translate(tool: McpTool): Result<LangchainTool>
  {
    match SchemaFields(tool.inputSchema)
    case Err(e) => Err(e)
    case Ok(fields) => Ok(LangchainTool(tool.name, tool.description, tool.name + "_args", fields, tool.name))
  }

  /** The `for mcp_tool in mcp_list.tools` loop that appends one LangChain tool per MCP tool. */
  method TranslateTools(tools: seq<McpTool>) returns (r: Result<seq<LangchainTool>>)
    ensures r.Ok? <==> forall i :: 0 <= i < |tools| ==> Translate(tools[i]).Ok?
    ensures r.Ok? ==> |r.value| == |tools|
    ensures r.Ok? ==> forall i :: 0 <= i < |tools| ==>
              && r.value[i] == Translate(tools[i]).value
              && r.value[i].name == tools[i].name == r.value[i].boundName
              && r.value[i].description == tools[i].description
    ensures r.Err? ==> exists i :: 0 <= i < |tools| && Translate(tools[i]) == Err(r.error)
  {
    var out: seq<LangchainTool> := [];
    var i := 0;
    while i < |tools|
      invariant 0 <= i <= |tools|
      invariant |out| == i
      invariant forall j :: 0 <= j < i ==> Translate(tools[j]) == Ok(out[j])
    {
      var fields := BuildFields(tools[i].inputSchema);
      if fields.Err? {
        return Err(fields.error);
      }
      var tool := LangchainTool(tools[i].name, tools[i].description, tools[i].name + "_args", fields.value, tools[i].name);
      out := out + [tool];
      i := i + 1;
    }
    r := Ok(out);
  }

  /** The request `_executor` sends: the bound name and the arguments it was called with. */
  function Dispatch(tool: LangchainTool, kwargs: Dict<Json>): Request
  {
    Request(tool.boundName, kwargs)
  }

  /**
   * The request as written: `_executor(tool_name=<bound>, **kwargs)` is
   * called with the validated arguments as keywords, so an argument named
   * `tool_name` replaces the bound default and is not forwarded.
   */
  function DispatchAsWritten(boundName: string, kwargs: Dict<Json>): (Json, Dict<Json>)
  {
    match Lookup(kwargs, "tool_name")
    case Some(v) => (v, RemoveKey(kwargs, "tool_name"))
    case None => (JString(boundName), kwargs)
  }

  function RemoveKey<V>(d: Dict<V>, key: string): Dict<V>
  {
    if |d| == 0 then [] else if d[0].0 == key then RemoveKey(d[1..], key) else [d[0]] + RemoveKey(d[1..], key)
  }

  /**
   * A tool whose schema declares a `tool_name` property sends its calls to
   * whatever tool that argument names, not to itself.
   */
  lemma ToolNameArgumentRedirects()
    ensures DispatchAsWritten("search_hotels", [("tool_name", JString("book_hotel"))]) == (JString("book_hotel"), [])
    ensures Dispatch(LangchainTool("search_hotels", "", "search_hotels_args", [], "search_hotels"),
                     [("tool_name", JString("book_hotel"))]).name == "search_hotels"
  {
  }

  /** The executor's answer: the texts of the `text` segments joined with newlines. */
  function ResultText(content: seq<Content>): string
  {
    Text.Join(Texts(content), "\n")
  }

  /** Splitting the executor's answer at newlines gives back the text segments, when they hold none themselves. */
  lemma ResultTextSplits(content: seq<Content>)
    requires |Texts(content)| >= 1
    requires forall k :: 0 <= k < |Texts(content)| ==> '\n' !in Texts(content)[k]
    ensures Text.Split(ResultText(content), '\n') == Texts(content)
  {
    Text.SplitJoin(Texts(content), '\n');
  }

  class MCPClientManager {
    const serverScriptPath: string
    var session: ClientSession?
    var exitStack: seq<ExitContext>

    constructor (serverScriptPath: string)
      ensures this.serverScriptPath == serverScriptPath
      ensures session == null && exitStack == []
    {
      this.serverScriptPath := serverScriptPath;
      session := null;
      exitStack := [];
    }

    /**
     * `connect`: launch `executable serverScriptPath` with the child
     * environment, open a session on it and initialise it. `absScriptPath`
     * is `os.path.abspath(serverScriptPath)`; `launch` is what starting the
     * child process yields (its server, or the exception raised).
     */
    method Connect(environ: map<string, string>, absScriptPath: string, executable: string,
                   launch: ServerParams -> Result<Server>)
      returns (r: Option<Exception>, params: ServerParams)
      modifies this
      ensures params == LaunchParams(serverScriptPath, environ, absScriptPath, executable)
      ensures launch(params).Err? ==> r == Some(launch(params).error) && session == old(session)
      ensures launch(params).Err? ==> exitStack == old(exitStack)
      ensures launch(params).Ok? ==>
                && session != null && fresh(session) && session.server == launch(params).value
                && session.requests == [] && !session.closed
                && exitStack == old(exitStack) + [StdioContext(params), SessionContext(session)]
                && r == session.server.handshake
    {
      var serverDir := PosixPath.Dirname(absScriptPath);
      var projectRoot := PosixPath.Dirname(serverDir);
      var env := ChildEnv(environ, projectRoot);
      params := ServerParams(executable, [serverScriptPath], env);
      var launched := launch(params);
      if launched.Err? {
        return Some(launched.error), params;
      }
      exitStack := exitStack + [StdioContext(params)];
      var s := new ClientSession(launched.value);
      session := s;
      exitStack := exitStack + [SessionContext(s)];
      r := s.Initialize();
    }

    /**
     * `disconnect`: `aclose` unwinds the exit stack, last entered first,
     * closing every session on it; `self.session` keeps its now closed
     * session, so later requests through it raise.
     */
    method Disconnect()
      modifies this, Sessions(exitStack)
      ensures exitStack == [] && session == old(session)
      ensures forall s :: s in Sessions(old(exitStack)) ==> s.closed && s.requests == old(s.requests)
    {
      var i := |exitStack|;
      while i > 0
        invariant 0 <= i <= |exitStack|
        invariant exitStack == old(exitStack) && session == old(session)
        invariant forall s :: s in Sessions(exitStack) ==> s.requests == old(s.requests)
        invariant forall k :: i <= k < |exitStack| && exitStack[k].SessionContext? ==> exitStack[k].session.closed
      {
        i := i - 1;
        match exitStack[i] {
          case SessionContext(s) =>
            assert s in Sessions(exitStack);
            s.Close();
          case StdioContext(_) =>
        }
      }
      exitStack := [];
    }

    /**
     * `get_langchain_tools`: connect first when there is no session, then
     * list the server's tools and translate each.
     */
    method GetLangchainTools(environ: map<string, string>, absScriptPath: string, executable: string,
                             launch: ServerParams -> Result<Server>)
      returns (r: Result<seq<LangchainTool>>)
      modifies this
      ensures old(session) != null ==> session == old(session) && exitStack == old(exitStack)
      ensures old(session) == null ==>
                var params := LaunchParams(serverScriptPath, environ, absScriptPath, executable);
                && (launch(params).Err? ==> r == Err(launch(params).error) && session == null && exitStack == old(exitStack))
                && (launch(params).Ok? ==>
                      && session != null && fresh(session) && session.server == launch(params).value
                      && session.requests == [] && !session.closed
                      && exitStack == old(exitStack) + [StdioContext(params), SessionContext(session)]
                      && (session.server.handshake.Some? ==> r == Err(session.server.handshake.value)))
      ensures old(session) != null && session.closed ==> r == Err(ClosedResource)
      ensures (&& session != null && !session.closed && session.server.listing.Err?
               && (old(session) != null || session.server.handshake.None?))
              ==> r == Err(session.server.listing.error)
      ensures r.Ok? ==> session != null && !session.closed && session.server.listing.Ok?
      ensures r.Ok? ==> |r.value| == |session.server.listing.value|
      ensures r.Ok? ==> forall i :: 0 <= i < |r.value| ==>
                Translate(session.server.listing.value[i]) == Ok(r.value[i])
      ensures (session != null && !session.closed && session.server.handshake.None? && session.server.listing.Ok?
               && forall t :: t in session.server.listing.value ==> Translate(t).Ok?) ==> r.Ok?
      ensures (&& old(session) != null && !session.closed && session.server.listing.Ok?
               && forall t :: t in session.server.listing.value ==> Translate(t).Ok?) ==> r.Ok?
    {
      if session == null {
        var failure, _ := Connect(environ, absScriptPath, executable, launch);
        if failure.Some? {
          return Err(failure.value);
        }
      }
      var listing := session.ListTools();
      if listing.Err? {
        return Err(listing.error);
      }
      r := TranslateTools(listing.value);
    }

    /**
     * The executor of `tool`: it reads `self.session` when it runs, raises
     * when there is none or when it has been closed, and otherwise calls the tool under its own bound
     * name and joins the text segments of the answer with newlines.
     */
    method Execute(tool: LangchainTool, kwargs: Dict<Json>) returns (r: Result<string>)
      modifies session
      ensures session == null ==> r == Err(Exception("RuntimeError", "MCP Session disconnected"))
      ensures session != null ==> session.closed == old(session.closed)
      ensures session != null && session.closed ==>
                session.requests == old(session.requests) && r == Err(ClosedResource)
      ensures session != null && !session.closed ==> session.requests == old(session.requests) + [Dispatch(tool, kwargs)]
      ensures session != null && !session.closed ==> match session.server.answer(session.requests)
                                  case Raised(e) => r == Err(e)
                                  case Returned(content) => r == Ok(ResultText(content))
    {
      if session == null {
        return Err(Exception("RuntimeError", "MCP Session disconnected"));
      }
      var request := Dispatch(tool, kwargs);
      var outcome := session.CallTool(request.name, request.arguments);
      match outcome
      case Raised(e) => r := Err(e);
      case Returned(content) =>
        r := Ok(ResultText(content));
    }
  }
}
