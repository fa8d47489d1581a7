/**
 * `HotelAgent.run` (src/agent.py): the command-line turn loop of the Gemini
 * agent. Each line the user types either ends the session (`quit`/`exit`)
 * or becomes a prompt carrying the retrieved preferences; the model's
 * function calls are then executed through the MCP session, one function
 * response per call, until a response asks for no more calls.
 *
 * The chat and the session are objects that log what is sent to them; the
 * model and the server are given as functions of everything sent so far.
 * The two unbounded loops of `run` are stepped from outside: `OnInput` is
 * one pass of `while True`, `ToolRound` one pass of
 * `while response.function_calls`, and `phase` says which loop is running.
 */
module Agent {
  import opened Wrappers
  import opened Json
  import opened Mcp
  import Text

  /** `HotelAgent()`: the constructor refuses a missing or empty `GOOGLE_API_KEY`. */
  datatype HotelAgent = HotelAgent(apiKey: string)

  function NewHotelAgent(googleApiKey: Option<string>): (r: Result<HotelAgent>)
    ensures r.Ok? <==> googleApiKey.Some? && googleApiKey.value != ""
    ensures r.Ok? ==> r.value.apiKey == googleApiKey.value
    ensures r.Err? ==> r.error.kind == "ValueError"
  {
    if googleApiKey.Some? && googleApiKey.value != "" then Ok(HotelAgent(googleApiKey.value))
    else Err(Exception("ValueError", "GOOGLE_API_KEY environment variable not set"))
  }

  /** `user_input.lower() in ['quit', 'exit']`. */
  predicate IsQuit(userInput: string)
  {
    Text.Lower(userInput) in ["quit", "exit"]
  }

  /** `s` is `word` with any of its (lower-case ASCII) letters written in upper case. */
  predicate SpelledAs(s: string, word: string)
  {
    |s| == |word| && forall i :: 0 <= i < |s| ==> s[i] == word[i] || s[i] as int + 32 == word[i] as int
  }

  lemma LowerEquals(s: string, word: string)
    requires forall i :: 0 <= i < |word| ==> 'a' <= word[i] <= 'z'
    ensures Text.Lower(s) == word <==> SpelledAs(s, word)
  {
    if SpelledAs(s, word) {
      assert forall i :: 0 <= i < |s| ==> Text.Lower(s)[i] == word[i];
    }
    if Text.Lower(s) == word {
      assert forall i :: 0 <= i < |s| ==> Text.LowerChar(s[i]) == word[i];
    }
  }

  /** Exactly the case variants of `quit` and `exit` end the session; nothing else does. */
  lemma QuitSpellings(userInput: string)
    ensures IsQuit(userInput) <==> SpelledAs(userInput, "quit") || SpelledAs(userInput, "exit")
  {
    LowerEquals(userInput, "quit");
    LowerEquals(userInput, "exit");
  }

  /**
   * `preferences_context`: what `memory.get_preferences` returned, joined
   * with newlines, or a fixed sentence when it returned nothing or raised.
   */
  function PreferencesContext(retrieval: Result<seq<string>>): string
  {
    match retrieval
    case Err(_) => "Memory unavailable."
    case Ok(prefs) => if |prefs| == 0 then "No specific preferences found." else Text.Join(prefs, "\n")
  }

  /** Preferences without newlines can be read back out of the context. */
  lemma PreferencesRecoverable(prefs: seq<string>)
    requires |prefs| >= 1
    requires forall k :: 0 <= k < |prefs| ==> '\n' !in prefs[k]
    ensures Text.Split(PreferencesContext(Ok(prefs)), '\n') == prefs
  {
    Text.SplitJoin(prefs, '\n');
  }

  /** The fallback sentences are distinct, and neither is the join of an empty retrieval. */
  lemma PreferencesFallbacks(e: Exception)
    ensures PreferencesContext(Err(e)) == "Memory unavailable."
    ensures PreferencesContext(Ok([])) == "No specific preferences found."
    ensures PreferencesContext(Err(e)) != PreferencesContext(Ok([]))
  {
  }

  /** The twenty spaces of source indentation that the triple-quoted prompt keeps. */
  const Indent: string := "                    "
  /**
   * The task line of the prompt, "Task: Help the user book a hotel. Verify availability first.",
   * written in three pieces: the verifier reasons about short literals far more cheaply.
   */
  const TaskLine: string := "Task: Help the user " + "book a hotel. " + "Verify availability first."

  /** The prompt sent for one user line. */
  function Prompt(userInput: string, context: string): string
  {
    "\n" + (Indent + "User Input: " + userInput) + "\n" + (Indent + "User Preferences: " + context) + "\n"
    + (Indent + TaskLine) + "\n" + Indent
  }

  /**
   * The prompt's lines: an empty first line, the input, the preferences,
   * the task, and the closing indentation. A context of several lines
   * starts on the `User Preferences:` line and goes on, line by line,
   * before the task. `input()` returns one line, so the user input holds
   * no newline.
   */
  lemma PromptLines(userInput: string, context: string)
    requires '\n' !in userInput
    ensures var ctx := Text.Split(context, '\n');
            Text.Split(Prompt(userInput, context), '\n')
              == ["", Indent + "User Input: " + userInput, Indent + "User Preferences: " + ctx[0]] + ctx[1..]
                 + [Indent + TaskLine, Indent]
    ensures '\n' !in context ==> Text.Split(Prompt(userInput, context), '\n') == Lines(userInput, context)
  {
    ConstantsHaveNoNewline();
    PromptShape(Indent + "User Input: " + userInput, Indent + "User Preferences: ", context, Indent + TaskLine, Indent);
  }

  /**
   * With retrieved preferences free of newlines, the prompt gives the first
   * one on the `User Preferences:` line and each other one on a line of its
   * own, in order.
   */
  lemma PromptCarriesPreferences(userInput: string, prefs: seq<string>)
    requires '\n' !in userInput
    requires |prefs| >= 1
    requires forall k :: 0 <= k < |prefs| ==> '\n' !in prefs[k]
    ensures Text.Split(Prompt(userInput, PreferencesContext(Ok(prefs))), '\n')
              == ["", Indent + "User Input: " + userInput, Indent + "User Preferences: " + prefs[0]] + prefs[1..]
                 + [Indent + TaskLine, Indent]
  {
    PreferencesRecoverable(prefs);
    PromptLines(userInput, PreferencesContext(Ok(prefs)));
  }

  /** The split of any text laid out as the prompt is, with only the context free to hold newlines. */
  lemma PromptShape(input: string, prefs: string, context: string, task: string, last: string)
    requires '\n' !in input && '\n' !in prefs && '\n' !in task && '\n' !in last
    ensures var ctx := Text.Split(context, '\n');
            Text.Split("\n" + input + "\n" + (prefs + context) + "\n" + task + "\n" + last, '\n')
              == ["", input, prefs + ctx[0]] + ctx[1..] + [task, last]
    ensures '\n' !in context ==>
              Text.Split("\n" + input + "\n" + (prefs + context) + "\n" + task + "\n" + last, '\n')
                == ["", input, prefs + context, task, last]
  {
    var x2 := "\n" + input + "\n" + (prefs + context);
    var head := PromptHead(input, prefs, context);
    SplitLastLine(x2, task);
    SplitLastLine(x2 + "\n" + task, last);
    assert head + [task] + [last] == head + [task, last];
  }

  /** The lines up to the preferences: an empty line, the input, then the context's lines after the prefix. */
  lemma PromptHead(input: string, prefs: string, context: string) returns (head: seq<string>)
    requires '\n' !in input && '\n' !in prefs
    ensures var ctx := Text.Split(context, '\n');
            head == ["", input, prefs + ctx[0]] + ctx[1..]
    ensures Text.Split("\n" + input + "\n" + (prefs + context), '\n') == head
  {
    var ctx := Text.Split(context, '\n');
    head := ["", input, prefs + ctx[0]] + ctx[1..];
    var x1 := "\n" + input;
    assert Text.Split(x1, '\n') == ["", input] by {
      assert "" + "\n" + input == x1;
      Text.SplitConcat("", input, '\n');
    }
    assert Text.Split(prefs + context, '\n') == [prefs + ctx[0]] + ctx[1..] by {
      Text.SplitSeparatorFree(prefs, context, '\n');
    }
    assert ["", input] + ([prefs + ctx[0]] + ctx[1..]) == head;
    Text.SplitConcat(x1, prefs + context, '\n');
  }

  /** A last line free of newlines adds exactly one line to the split. */
  lemma SplitLastLine(x: string, line: string)
    requires '\n' !in line
    ensures Text.Split(x + "\n" + line, '\n') == Text.Split(x, '\n') + [line]
  {
    Text.SplitConcat(x, line, '\n');
  }

  function Lines(userInput: string, context: string): seq<string>
  {
    ["", Indent + "User Input: " + userInput, Indent + "User Preferences: " + context, Indent + TaskLine, Indent]
  }

  lemma ConstantsHaveNoNewline()
    ensures '\n' !in Indent && '\n' !in TaskLine && '\n' !in "User Input: " && '\n' !in "User Preferences: "
  {
    assert forall k :: 0 <= k < |Indent| ==> Indent[k] == ' ';
  }

  /** The `result_text +=` loop over the content of a tool result. */
  method CollectText(content: seq<Content>) returns (text: string)
    ensures text == Text.Concat(Texts(content))
  {
    text := "";
    for i := 0 to |content|
      invariant text == Text.Concat(Texts(content[..i]))
    {
      assert content[..i + 1] == content[..i] + [content[i]];
      TextsAppend(content[..i], [content[i]]);
      Text.ConcatAppend(Texts(content[..i]), Texts([content[i]]));
      if content[i].TextContent? {
        text := text + content[i].text;
      }
    }
    assert content[..|content|] == content;
  }

  /** The text sent back for one call: the text segments run together, or `Error: ` and the exception's message. */
  function ResultText(outcome: ToolOutcome): string
  {
    match outcome
    case Raised(e) => "Error: " + e.message
    case Returned(content) => Text.Concat(Texts(content))
  }

  /** The result text of a longer content list extends that of its prefix by the later segments' text. */
  lemma ResultTextAppend(a: seq<Content>, b: seq<Content>)
    ensures ResultText(Returned(a + b)) == ResultText(Returned(a)) + ResultText(Returned(b))
  {
    TextsAppend(a, b);
    Text.ConcatAppend(Texts(a), Texts(b));
  }

  /** Segments that are not text contribute nothing; an empty content list gives "". */
  lemma {:induction false} ResultTextSkipsOthers(content: seq<Content>)
    requires forall k :: 0 <= k < |content| ==> !content[k].TextContent?
    ensures ResultText(Returned(content)) == ""
  {
    if |content| > 0 {
      ResultTextSkipsOthers(content[1..]);
    }
  }

  /** A call the model asks for. */
  datatype FunctionCall = FunctionCall(name: string, args: Dict<Json>)

  /** What `chat.send_message` returns: the calls requested (none when absent) and the text. */
  datatype Response = Response(calls: seq<FunctionCall>, text: Option<string>)

  /** A message sent into the chat: a prompt, or `Part.from_function_response(name, {"result": ...})`. */
  datatype Message = UserPrompt(prompt: string) | FunctionResponse(name: string, result: string)

  /** `chat.send_message` either answers or raises. */
  datatype Reply = Answered(response: Response) | Failed(error: Exception)

  /** The Gemini chat: the model's reply is a function of every message sent so far. */
  class Chat {
    const respond: seq<Message> -> Reply
    var sent: seq<Message>

    constructor (respond: seq<Message> -> Reply)
      ensures this.respond == respond && sent == []
    {
      this.respond := respond;
      sent := [];
    }

    method SendMessage(m: Message) returns (reply: Reply)
      modifies this
      ensures sent == old(sent) + [m]
      ensures reply == respond(sent)
    {
      sent := sent + [m];
      reply := respond(sent);
    }
  }

  /** How one pass of the tool loop ends: with the latest response, or aborted by a failed send. */
  datatype RoundEnd = Finished(last: Response) | Aborted(error: Exception)

  /** The chat log, the session's request log and the outcome after a pass of the tool loop. */
  datatype RoundState = RoundState(sent: seq<Message>, requests: seq<Request>, end: RoundEnd)

  /**
   * One pass of `for fc in response.function_calls`: the list is the one of
   * the response that began the pass, even though `response` is reassigned
   * after every send. `latest` is the response most recently received.
   */
  function Round(respond: seq<Message> -> Reply, answer: seq<Request> -> ToolOutcome,
                 sent: seq<Message>, requests: seq<Request>, calls: seq<FunctionCall>, latest: Response): RoundState
    decreases |calls|
  {
    if |calls| == 0 then RoundState(sent, requests, Finished(latest))
    else
      var requests' := requests + [Request(calls[0].name, calls[0].args)];
      var sent' := sent + [FunctionResponse(calls[0].name, ResultText(answer(requests')))];
      match respond(sent')
      case Failed(e) => RoundState(sent', requests', Aborted(e))
      case Answered(next) => Round(respond, answer, sent', requests', calls[1..], next)
  }

  /**
   * The calls are executed in order and each gets exactly one function
   * response, carrying its name and the text of its own result (an
   * exception included); only a failed send ends the pass early, and a
   * finished pass has answered every call and holds the model's answer to
   * the last function response.
   */
  lemma RoundResponds(respond: seq<Message> -> Reply, answer: seq<Request> -> ToolOutcome,
                      sent: seq<Message>, requests: seq<Request>, calls: seq<FunctionCall>, latest: Response)
    ensures var out := Round(respond, answer, sent, requests, calls, latest);
            var n := |out.sent| - |sent|;
            && sent <= out.sent && requests <= out.requests
            && 0 <= n <= |calls| && |out.requests| == |requests| + n
            && (forall k :: 0 <= k < n ==>
                  && out.requests[|requests| + k] == Request(calls[k].name, calls[k].args)
                  && out.sent[|sent| + k] ==
                       FunctionResponse(calls[k].name, ResultText(answer(out.requests[..|requests| + k + 1]))))
            && (out.end.Finished? ==> n == |calls|)
            && (out.end.Finished? && n > 0 ==> respond(out.sent) == Answered(out.end.last))
            && (out.end.Aborted? ==> n > 0 && respond(out.sent) == Failed(out.end.error))
  {
    RoundEnds(respond, answer, sent, requests, calls, latest);
    RoundLogs(respond, answer, sent, requests, calls, latest);
  }

  /** How far a pass gets: the logs only grow, by one entry each per executed call, and why it stopped. */
  lemma {:induction false} RoundEnds(respond: seq<Message> -> Reply, answer: seq<Request> -> ToolOutcome,
                                     sent: seq<Message>, requests: seq<Request>, calls: seq<FunctionCall>, latest: Response)
    ensures var out := Round(respond, answer, sent, requests, calls, latest);
            var n := |out.sent| - |sent|;
            && sent <= out.sent && requests <= out.requests
            && 0 <= n <= |calls| && |out.requests| == |requests| + n
            && (out.end.Finished? ==> n == |calls|)
            && (out.end.Finished? && n > 0 ==> respond(out.sent) == Answered(out.end.last))
            && (out.end.Aborted? ==> n > 0 && respond(out.sent) == Failed(out.end.error))
    decreases |calls|
  {
    if |calls| > 0 {
      var requests' := requests + [Request(calls[0].name, calls[0].args)];
      var sent' := sent + [FunctionResponse(calls[0].name, ResultText(answer(requests')))];
      if respond(sent').Answered? {
        RoundEnds(respond, answer, sent', requests', calls[1..], respond(sent').response);
      }
    }
  }

  /** What the executed calls left in the logs: their requests, and one function response each, in order. */
  lemma {:induction false} RoundLogs(respond: seq<Message> -> Reply, answer: seq<Request> -> ToolOutcome,
                                     sent: seq<Message>, requests: seq<Request>, calls: seq<FunctionCall>, latest: Response)
    ensures var out := Round(respond, answer, sent, requests, calls, latest);
            forall k :: 0 <= k < |out.sent| - |sent| ==>
              && |requests| + k < |out.requests| && |sent| + k < |out.sent| && k < |calls|
              && out.requests[|requests| + k] == Request(calls[k].name, calls[k].args)
              && out.sent[|sent| + k] ==
                   FunctionResponse(calls[k].name, ResultText(answer(out.requests[..|requests| + k + 1])))
    decreases |calls|
  {
    if |calls| > 0 {
      var requests' := requests + [Request(calls[0].name, calls[0].args)];
      var sent' := sent + [FunctionResponse(calls[0].name, ResultText(answer(requests')))];
      match respond(sent')
      case Failed(e) =>
        LogsShift(answer, sent, requests, calls, sent', requests', sent', requests');
      case Answered(next) =>
        var out := Round(respond, answer, sent', requests', calls[1..], next);
        RoundEnds(respond, answer, sent', requests', calls[1..], next);
        RoundLogs(respond, answer, sent', requests', calls[1..], next);
        LogsShift(answer, sent, requests, calls, sent', requests', out.sent, out.requests);
    }
  }

  /** The logs of the first executed call, followed by those of the rest, are the logs of all of them. */
  lemma LogsShift(answer: seq<Request> -> ToolOutcome, sent: seq<Message>, requests: seq<Request>, calls: seq<FunctionCall>,
                  sent': seq<Message>, requests': seq<Request>, outSent: seq<Message>, outRequests: seq<Request>)
    requires |calls| > 0
    requires requests' == requests + [Request(calls[0].name, calls[0].args)]
    requires sent' == sent + [FunctionResponse(calls[0].name, ResultText(answer(requests')))]
    requires sent' <= outSent && requests' <= outRequests
    requires |outSent| - |sent'| <= |calls| - 1 && |outRequests| - |requests'| == |outSent| - |sent'|
    requires forall k :: 0 <= k < |outSent| - |sent'| ==>
               && outRequests[|requests'| + k] == Request(calls[1..][k].name, calls[1..][k].args)
               && outSent[|sent'| + k] ==
                    FunctionResponse(calls[1..][k].name, ResultText(answer(outRequests[..|requests'| + k + 1])))
    ensures forall k :: 0 <= k < |outSent| - |sent| ==>
              && |requests| + k < |outRequests| && |sent| + k < |outSent| && k < |calls|
              && outRequests[|requests| + k] == Request(calls[k].name, calls[k].args)
              && outSent[|sent| + k] ==
                   FunctionResponse(calls[k].name, ResultText(answer(outRequests[..|requests| + k + 1])))
  {
    forall k | 0 <= k < |outSent| - |sent|
      ensures outRequests[|requests| + k] == Request(calls[k].name, calls[k].args)
      ensures outSent[|sent| + k] == FunctionResponse(calls[k].name, ResultText(answer(outRequests[..|requests| + k + 1])))
    {
      if k == 0 {
        assert outRequests[..|requests| + 1] == requests';
        assert outSent[|sent|] == sent'[|sent|];
        assert outRequests[|requests|] == requests'[|requests|];
      } else {
        assert calls[1..][k - 1] == calls[k];
      }
    }
  }

  /** A failing tool never ends a pass: when every send is answered, every call gets its response. */
  lemma ToolErrorsDoNotAbort(respond: seq<Message> -> Reply, answer: seq<Request> -> ToolOutcome,
                             sent: seq<Message>, requests: seq<Request>, calls: seq<FunctionCall>, latest: Response)
    requires forall s :: respond(s).Answered?
    ensures Round(respond, answer, sent, requests, calls, latest).end.Finished?
    ensures |Round(respond, answer, sent, requests, calls, latest).sent| == |sent| + |calls|
  {
    RoundResponds(respond, answer, sent, requests, calls, latest);
  }

  /**
   * `n` passes of `while response.function_calls`, stopping early when the
   * latest response asks for nothing or a pass is aborted.
   */
  function Rounds(respond: seq<Message> -> Reply, answer: seq<Request> -> ToolOutcome,
                  sent: seq<Message>, requests: seq<Request>, latest: Response, n: nat): RoundState
    decreases n
  {
    if n == 0 || |latest.calls| == 0 then RoundState(sent, requests, Finished(latest))
    else
      var out := Round(respond, answer, sent, requests, latest.calls, latest);
      match out.end
      case Aborted(_) => out
      case Finished(last) => Rounds(respond, answer, out.sent, out.requests, last, n - 1)
  }

  /** A model that always asks for one more search. */
  function AlwaysSearching(sent: seq<Message>): Reply
  {
    Answered(Response([FunctionCall("search_hotels", [])], None))
  }

  /**
   * No number of passes is enough: for every `n`, a model that keeps asking
   * for calls still has the loop running after `n` passes. Only the model
   * ends the loop.
   */
  lemma {:induction false} NoRoundBound(answer: seq<Request> -> ToolOutcome, sent: seq<Message>, requests: seq<Request>, n: nat)
    ensures var first := Response([FunctionCall("search_hotels", [])], None);
            var out := Rounds(AlwaysSearching, answer, sent, requests, first, n);
            out.end.Finished? && |out.end.last.calls| > 0
    decreases n
  {
    var first := Response([FunctionCall("search_hotels", [])], None);
    if n > 0 {
      var out := Round(AlwaysSearching, answer, sent, requests, first.calls, first);
      assert first.calls[1..] == [];
      assert out.end == Finished(first);
      NoRoundBound(answer, out.sent, out.requests, n - 1);
    }
  }

  /** Where `run` is: waiting for a line, inside the tool loop with the latest response, or stopped. */
  datatype Phase = ReadingInput | ToolLoop(response: Response) | Stopped

  /** What is shown to the user when the tool loop ends: `response.text`, if non-empty. */
  function Shown(r: Response): (shown: Option<string>)
    ensures shown.Some? <==> r.text.Some? && r.text.value != ""
    ensures shown.Some? ==> shown == r.text
  {
    if r.text.Some? && r.text.value != "" then r.text else None
  }

  /** The state of `run` once the session is initialised and the chat created. */
  class Conversation {
    const chat: Chat
    const session: ClientSession
    var phase: Phase

    constructor (chat: Chat, session: ClientSession)
      ensures this.chat == chat && this.session == session && phase == ReadingInput
    {
      this.chat := chat;
      this.session := session;
      phase := ReadingInput;
    }

    /**
     * One pass of `while True` up to the tool loop: the quit check, the
     * preference context (`retrieval` is what `get_preferences` returned
     * or raised), the prompt, and the model's first response. Returns the
     * text shown and the error that aborted the turn, if any.
     */
    method OnInput(userInput: string, retrieval: Result<seq<string>>) returns (shown: Option<string>, failure: Option<Exception>)
      requires phase == ReadingInput
      modifies this, chat
      ensures IsQuit(userInput) ==> phase == Stopped && chat.sent == old(chat.sent) && shown == None && failure == None
      ensures !IsQuit(userInput) ==>
                chat.sent == old(chat.sent) + [UserPrompt(Prompt(userInput, PreferencesContext(retrieval)))]
      ensures !IsQuit(userInput) ==>
                match chat.respond(chat.sent)
                case Failed(e) => phase == ReadingInput && failure == Some(e) && shown == None
                case Answered(r) =>
                  && failure == None
                  && (|r.calls| > 0 ==> phase == ToolLoop(r) && shown == None)
                  && (|r.calls| == 0 ==> phase == ReadingInput && shown == Shown(r))
    {
      shown, failure := None, None;
      if IsQuit(userInput) {
        phase := Stopped;
        return;
      }
      var context := PreferencesContext(retrieval);
      var reply := chat.SendMessage(UserPrompt(Prompt(userInput, context)));
      match reply
      case Failed(e) =>
        failure := Some(e);
      case Answered(r) =>
        if |r.calls| > 0 {
          phase := ToolLoop(r);
        } else {
          shown := Shown(r);
        }
    }

    /**
     * One pass of `while response.function_calls`: the `for fc` loop over
     * the calls of the response that began the pass. Afterwards the loop
     * goes on exactly when the latest response asks for calls. The session
     * is the one `run` holds open with `async with`, so it is never closed here.
     */
    method ToolRound() returns (shown: Option<string>, failure: Option<Exception>)
      requires phase.ToolLoop?
      requires !session.closed
      modifies this, chat, session
      ensures !session.closed
      ensures var out := Round(chat.respond, session.server.answer, old(chat.sent), old(session.requests),
                               old(phase.response.calls), old(phase.response));
              && chat.sent == out.sent && session.requests == out.requests
              && match out.end
                 case Aborted(e) => phase == ReadingInput && failure == Some(e) && shown == None
                 case Finished(last) =>
                   && failure == None
                   && (|last.calls| > 0 ==> phase == ToolLoop(last) && shown == None)
                   && (|last.calls| == 0 ==> phase == ReadingInput && shown == Shown(last))
    {
      var response := phase.response;
      var calls := response.calls;
      ghost var spec := Round(chat.respond, session.server.answer, chat.sent, session.requests, calls, response);
      var i := 0;
      while i < |calls|
        invariant 0 <= i <= |calls|
        decreases |calls| - i
        invariant !session.closed
        invariant Round(chat.respond, session.server.answer, chat.sent, session.requests, calls[i..], response) == spec
      {
        var fc := calls[i];
        var outcome := session.CallTool(fc.name, fc.args);
        var text;
        match outcome {
          case Raised(e) =>
            text := "Error: " + e.message;
          case Returned(content) =>
            text := CollectText(content);
        }
        var reply := chat.SendMessage(FunctionResponse(fc.name, text));
        assert calls[i..][1..] == calls[i + 1..];
        if reply.Failed? {
          phase := ReadingInput;
          return None, Some(reply.error);
        }
        response := reply.response;
        i := i + 1;
      }
      shown, failure := None, None;
      if |response.calls| > 0 {
        phase := ToolLoop(response);
      } else {
        phase := ReadingInput;
        shown := Shown(response);
      }
    }
  }
}
