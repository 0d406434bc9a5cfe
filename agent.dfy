/**
 * rag-template/api/utils/agent.py: the research sub-agent. Each round sends
 * the current input list and the previous response id to the responses
 * endpoint; a response without function calls ends the loop with its text,
 * otherwise every function call is run (any failure becoming an error
 * string) and its output is the next round's whole input.
 *
 * The responses endpoint is a script: the i-th element is the response the
 * i-th request receives. The endpoint is never told apart from the script,
 * so the requests the loop sends are part of the result.
 */
module Agent {
  import opened Wrappers
  import opened Tools
  import Prompt

  /** A `function_call` output item: its call id, tool name and JSON-encoded arguments. */
  datatype ResponseCall = ResponseCall(callId: string, name: string, arguments: string)

  datatype OutputItem = FunctionCallItem(call: ResponseCall) | OtherItem(kind: string)

  datatype Response = Response(id: string, output: seq<OutputItem>, outputText: string)

  datatype InputItem = UserMessage(content: string) | FunctionCallOutput(callId: string, output: string)

  /** What one round sends: the input list and the continuation id. */
  datatype Request = Request(input: seq<InputItem>, previousResponseId: Option<string>)

  /** The requests the loop sent, in order, and the text it returned (None when the script ran out first). */
  datatype AgentRun = AgentRun(requests: seq<Request>, text: Option<string>)

  /** The first round's input: the query, as the only user message. */
  function SeedInput(query: string): seq<InputItem> {
    [UserMessage("The research query is: " + query)]
  }

  /** The function calls of a response's output, in order; other items are skipped. */
  function FunctionCalls(output: seq<OutputItem>): seq<ResponseCall> {
    if output == [] then []
    else (if output[0].FunctionCallItem? then [output[0].call] else []) + FunctionCalls(output[1..])
  }

  /**
   * The filter keeps only function calls of the output: there are none
   * exactly when no item is a function call, and each one kept is an item.
   */
  lemma {:induction false} FunctionCallsFilter(output: seq<OutputItem>)
    decreases |output|
    ensures |FunctionCalls(output)| <= |output|
    ensures FunctionCalls(output) == [] <==> forall k :: 0 <= k < |output| ==> !output[k].FunctionCallItem?
    ensures forall c :: c in FunctionCalls(output) ==> FunctionCallItem(c) in output
  {
    if output != [] {
      FunctionCallsFilter(output[1..]);
      assert forall k :: 1 <= k < |output| ==> output[k] == output[1..][k - 1];
      assert forall x :: x in output[1..] ==> x in output;
    }
  }

  /** The filter distributes over concatenation, so the calls keep their output order. */
  lemma {:induction false} FunctionCallsAppend(a: seq<OutputItem>, b: seq<OutputItem>)
    decreases |a|
    ensures FunctionCalls(a + b) == FunctionCalls(a) + FunctionCalls(b)
  {
    if a == [] {
      assert a + b == b;
    } else {
      assert (a + b)[0] == a[0] && (a + b)[1..] == a[1..] + b;
      FunctionCallsAppend(a[1..], b);
    }
  }

  /**
   * The text one call contributes: `str` of the tool's result, or, when the
   * lookup, the argument decoding, the keyword-argument call or the tool
   * itself fails, the error line naming the tool and the exception's text.
   */
  function ToolOutputText(call: ResponseCall, tools: Registry, rt: Runtime): string {
    match Invoke(tools, rt, call.name, call.arguments)
    case Ok(v) => rt.str(v)
    case Err(e) => "Error calling tool " + call.name + ": " + rt.describe(e)
  }

  /** One `function_call_output` per call, in call order. */
  function CallOutputs(calls: seq<ResponseCall>, tools: Registry, rt: Runtime): seq<InputItem> {
    if calls == [] then []
    else CallOutputs(calls[..|calls| - 1], tools, rt)
         + [FunctionCallOutput(calls[|calls| - 1].callId, ToolOutputText(calls[|calls| - 1], tools, rt))]
  }

  /**
   * The next input holds exactly one output per call, in call order, tagged
   * with that call's id; a call whose tool is unknown, whose arguments do not
   * decode or whose tool raises still gets its output, the error line.
   */
  lemma {:induction false} CallOutputsExact(calls: seq<ResponseCall>, tools: Registry, rt: Runtime)
    decreases |calls|
    ensures |CallOutputs(calls, tools, rt)| == |calls|
    ensures forall k :: 0 <= k < |calls| ==>
              && CallOutputs(calls, tools, rt)[k].FunctionCallOutput?
              && CallOutputs(calls, tools, rt)[k].callId == calls[k].callId
              && CallOutputs(calls, tools, rt)[k].output ==
                   match Invoke(tools, rt, calls[k].name, calls[k].arguments)
                   case Ok(v) => rt.str(v)
                   case Err(e) => "Error calling tool " + calls[k].name + ": " + rt.describe(e)
    ensures forall k :: 0 <= k < |calls| && calls[k].name !in tools ==>
              CallOutputs(calls, tools, rt)[k].output ==
                "Error calling tool " + calls[k].name + ": " + rt.describe(UnknownTool(calls[k].name))
  {
    if calls != [] {
      CallOutputsExact(calls[..|calls| - 1], tools, rt);
    }
  }

  /** The rounds from a given input and continuation id, answered by `script` in order. */
  function Rounds(input: seq<InputItem>, previous: Option<string>, script: seq<Response>, tools: Registry, rt: Runtime): AgentRun
    decreases |script|
  {
    var request := Request(input, previous);
    if script == [] then AgentRun([request], None)
    else
      var response := script[0];
      var calls := FunctionCalls(response.output);
      if calls == [] then AgentRun([request], Some(response.outputText))
      else
        var rest := Rounds(CallOutputs(calls, tools, rt), Some(response.id), script[1..], tools, rt);
        AgentRun([request] + rest.requests, rest.text)
  }

  /** `research_agent`, as a function of the query, the responses and the tools. */
  function Research(query: string, script: seq<Response>, tools: Registry, rt: Runtime): AgentRun {
    Rounds(SeedInput(query), None, script, tools, rt)
  }

  /**
   * The rounds, characterized: the first request is the given one; request
   * i + 1 follows a response i that had function calls and consists of their
   * outputs, continuing from response i's id; the loop stops at the first
   * response without function calls and returns that response's text, and
   * returns no text only when the script ran out, after one request more
   * than it has responses.
   */
  lemma {:induction false} RoundsCharacterized(input: seq<InputItem>, previous: Option<string>, script: seq<Response>, tools: Registry, rt: Runtime)
    decreases |script|
    ensures var run := Rounds(input, previous, script, tools, rt);
      && 1 <= |run.requests| <= |script| + 1
      && run.requests[0] == Request(input, previous)
      && (forall i :: 0 <= i < |run.requests| - 1 ==>
            && FunctionCalls(script[i].output) != []
            && run.requests[i + 1] == Request(CallOutputs(FunctionCalls(script[i].output), tools, rt), Some(script[i].id)))
      && (|run.requests| <= |script| ==>
            && FunctionCalls(script[|run.requests| - 1].output) == []
            && run.text == Some(script[|run.requests| - 1].outputText))
      && (|run.requests| == |script| + 1 ==> run.text.None?)
  {
    if script != [] {
      var response := script[0];
      var calls := FunctionCalls(response.output);
      if calls != [] {
        var next := CallOutputs(calls, tools, rt);
        var rest := Rounds(next, Some(response.id), script[1..], tools, rt);
        RoundsCharacterized(next, Some(response.id), script[1..], tools, rt);
        var run := Rounds(input, previous, script, tools, rt);
        assert run.requests == [Request(input, previous)] + rest.requests;
        forall i | 1 <= i < |run.requests| - 1
          ensures && FunctionCalls(script[i].output) != []
                  && run.requests[i + 1] == Request(CallOutputs(FunctionCalls(script[i].output), tools, rt), Some(script[i].id))
        {
          assert script[i] == script[1..][i - 1];
          assert run.requests[i + 1] == rest.requests[i];
        }
        assert |rest.requests| <= |script[1..]| ==> script[|run.requests| - 1] == script[1..][|rest.requests| - 1];
      }
    }
  }

  /**
   * There is no round cap: whenever the first n responses all call tools and
   * response n calls none, the loop sends exactly n + 1 requests and returns
   * response n's text.
   */
  lemma NoRoundCap(query: string, script: seq<Response>, n: nat, tools: Registry, rt: Runtime)
    requires n < |script|
    requires forall i :: 0 <= i < n ==> FunctionCalls(script[i].output) != []
    requires FunctionCalls(script[n].output) == []
    ensures |Research(query, script, tools, rt).requests| == n + 1
    ensures Research(query, script, tools, rt).text == Some(script[n].outputText)
  {
    RoundsCharacterized(SeedInput(query), None, script, tools, rt);
  }

  /** The first request carries the query alone and no continuation id. */
  lemma ResearchStart(query: string, script: seq<Response>, tools: Registry, rt: Runtime)
    ensures |Research(query, script, tools, rt).requests| >= 1
    ensures Research(query, script, tools, rt).requests[0] == Request([UserMessage("The research query is: " + query)], None)
  {
  }

  /** A run with some requests already sent before it. */
  function AfterRequests(sent: seq<Request>, run: AgentRun): AgentRun {
    AgentRun(sent + run.requests, run.text)
  }

  /** The `for tool_call in tool_calls` loop: each call's output, or its error line, in call order. */
  method RunCalls(toolCalls: seq<ResponseCall>, tools: Registry, rt: Runtime) returns (messages: seq<InputItem>)
    ensures messages == CallOutputs(toolCalls, tools, rt)
  {
    messages := [];
    for j := 0 to |toolCalls|
      invariant messages == CallOutputs(toolCalls[..j], tools, rt)
    {
      var call := toolCalls[j];
      var output: string;
      match Invoke(tools, rt, call.name, call.arguments) {
        case Ok(v) =>
          output := rt.str(v);
        case Err(e) =>
          output := "Error calling tool " + call.name + ": " + rt.describe(e);
      }
      assert toolCalls[..j + 1][..j] == toolCalls[..j];
      messages := messages + [FunctionCallOutput(call.callId, output)];
    }
    assert toolCalls[..|toolCalls|] == toolCalls;
  }

  /** The `while not stop` loop of `research_agent`. */
  method ResearchAgent(query: string, script: seq<Response>, tools: Registry, rt: Runtime)
    returns (text: Option<string>, requests: seq<Request>)
    ensures AgentRun(requests, text) == Research(query, script, tools, rt)
  {
    var stop := false;
    var messages := SeedInput(query);
    var previousResponseId: Option<string> := None;
    text := None;
    requests := [];
    var round := 0;
    while !stop
      invariant 0 <= round <= |script|
      invariant !stop ==> Research(query, script, tools, rt) ==
                          AfterRequests(requests, Rounds(messages, previousResponseId, script[round..], tools, rt))
      invariant stop ==> AgentRun(requests, text) == Research(query, script, tools, rt)
      decreases |script| - round
    {
      if round == |script| {
        // The endpoint has no further response: the loop is cut off here.
        assert script[round..] == [];
        requests := requests + [Request(messages, previousResponseId)];
        text := None;
        break;
      }
      assert script[round..][0] == script[round] && script[round..][1..] == script[round + 1..];
      requests := requests + [Request(messages, previousResponseId)];
      var response := script[round];
      round := round + 1;
      var toolCalls := FunctionCalls(response.output);
      previousResponseId := Some(response.id);
      messages := [];
      if |toolCalls| == 0 {
        stop := true;
        text := Some(response.outputText);
      } else {
        messages := RunCalls(toolCalls, tools, rt);
      }
    }
  }

  /** The chat history a request handler holds; `do_research_agent` appends to it in place. */
  class ChatHistory {
    var messages: seq<Prompt.OpenAIMessage>

    constructor (messages: seq<Prompt.OpenAIMessage>)
      ensures this.messages == messages
    {
      this.messages := messages;
    }
  }

  const ReportPrefix: string := "Result from research agent => \n"

  /** The user message that reports the agent's text to the main conversation: the fixed prefix, then the text. */
  function AgentReport(text: string): (r: Prompt.OpenAIMessage)
    ensures r.role == "user" && r.toolCalls.None? && r.toolCallId.None?
    ensures r.content.Text? && ReportPrefix <= r.content.text && r.content.text[|ReportPrefix|..] == text
  {
    Prompt.OpenAIMessage("user", Prompt.Text(ReportPrefix + text), None, None)
  }

  /**
   * `do_research_agent`: runs the agent and appends exactly one report to the
   * given history, which it returns; earlier entries are untouched. When the
   * script runs out before the agent finishes, nothing is appended.
   */
  method DoResearchAgent(query: string, history: ChatHistory, script: seq<Response>, tools: Registry, rt: Runtime)
    returns (r: ChatHistory)
    modifies history
    ensures r == history
    ensures Research(query, script, tools, rt).text.Some? ==>
              history.messages == old(history.messages) + [AgentReport(Research(query, script, tools, rt).text.value)]
    ensures Research(query, script, tools, rt).text.None? ==> history.messages == old(history.messages)
  {
    var agentMsg, _ := ResearchAgent(query, script, tools, rt);
    if agentMsg.Some? {
      history.messages := history.messages + [AgentReport(agentMsg.value)];
    }
    r := history;
  }
}
