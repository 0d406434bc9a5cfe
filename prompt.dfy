/**
 * rag-template/api/utils/prompt.py: the conversion of the client's chat
 * history into the upstream chat-completion message list. Each client
 * message becomes one main message (its text, then its kept attachments,
 * and the tool calls it recorded), followed by one `tool` message per tool
 * invocation carrying that invocation's result.
 *
 * `json.dumps` is the parameter `dumps`. A TypedDict key that the source
 * leaves out is `None` here.
 */
module Prompt {
  import opened Wrappers
  import opened Tools

  datatype ToolInvocationState = Call | PartialCall | ResultState

  datatype ToolInvocation = ToolInvocation(
    state: ToolInvocationState, toolCallId: string, toolName: string, args: Json, result: Json)

  datatype ClientAttachment = ClientAttachment(contentType: string, url: string)

  /** A client message; an absent attachment or invocation list is the empty list (both are falsy). */
  datatype ClientMessage = ClientMessage(
    role: string, content: string, attachments: seq<ClientAttachment>, toolInvocations: seq<ToolInvocation>)

  datatype Part = TextPart(text: string) | ImagePart(url: string)

  datatype FunctionCall = FunctionCall(name: string, arguments: string)

  datatype ToolCall = ToolCall(id: string, kind: string, call: FunctionCall)

  datatype Content = Parts(parts: seq<Part>) | Text(text: string)

  datatype OpenAIMessage = OpenAIMessage(
    role: string, content: Content, toolCalls: Option<seq<ToolCall>>, toolCallId: Option<string>)

  /** An attachment is kept when its content type starts with `image` or with `text`. */
  predicate Kept(a: ClientAttachment) {
    "image" <= a.contentType || "text" <= a.contentType
  }

  /** The part an attachment contributes: an image URL part, a text part holding the URL, or nothing. */
  function AttachmentPart(a: ClientAttachment): seq<Part> {
    if "image" <= a.contentType then [ImagePart(a.url)]
    else if "text" <= a.contentType then [TextPart(a.url)]
    else []
  }

  /** The parts of a list of attachments, in order. */
  function AttachmentParts(atts: seq<ClientAttachment>): seq<Part> {
    if atts == [] then [] else AttachmentParts(atts[..|atts| - 1]) + AttachmentPart(atts[|atts| - 1])
  }

  /** The parts of consecutive attachment lists are the parts of each, one after the other. */
  lemma {:induction false} AttachmentPartsAppend(a: seq<ClientAttachment>, b: seq<ClientAttachment>)
    decreases |b|
    ensures AttachmentParts(a + b) == AttachmentParts(a) + AttachmentParts(b)
  {
    if b == [] {
      assert a + b == a;
    } else {
      var b' := b[..|b| - 1];
      assert (a + b)[..|a + b| - 1] == a + b';
      assert (a + b)[|a + b| - 1] == b[|b| - 1];
      AttachmentPartsAppend(a, b');
    }
  }

  /**
   * Attachment parts, exactly: one part per kept attachment, none for the
   * others; when every attachment is kept the parts line up with them one
   * to one, images as image parts and text as text parts holding the URL.
   */
  lemma {:induction false} AttachmentPartsExact(atts: seq<ClientAttachment>)
    decreases |atts|
    ensures |AttachmentParts(atts)| <= |atts|
    ensures (forall k :: 0 <= k < |atts| ==> !Kept(atts[k])) ==> AttachmentParts(atts) == []
    ensures (forall k :: 0 <= k < |atts| ==> Kept(atts[k])) ==>
              && |AttachmentParts(atts)| == |atts|
              && forall k :: 0 <= k < |atts| ==>
                   AttachmentParts(atts)[k] ==
                     if "image" <= atts[k].contentType then ImagePart(atts[k].url) else TextPart(atts[k].url)
  {
    if atts != [] {
      var init := atts[..|atts| - 1];
      AttachmentPartsExact(init);
      assert forall k :: 0 <= k < |init| ==> init[k] == atts[k];
    }
  }

  /** The tool call a recorded invocation becomes: its id, type `function`, its name and its encoded arguments. */
  function ToolCallOf(inv: ToolInvocation, dumps: Json -> string): ToolCall {
    ToolCall(inv.toolCallId, "function", FunctionCall(inv.toolName, dumps(inv.args)))
  }

  function ToolCalls(invs: seq<ToolInvocation>, dumps: Json -> string): seq<ToolCall> {
    if invs == [] then [] else ToolCalls(invs[..|invs| - 1], dumps) + [ToolCallOf(invs[|invs| - 1], dumps)]
  }

  /** One tool call per invocation, in invocation order. */
  lemma {:induction false} ToolCallsExact(invs: seq<ToolInvocation>, dumps: Json -> string)
    decreases |invs|
    ensures |ToolCalls(invs, dumps)| == |invs|
    ensures forall k :: 0 <= k < |invs| ==>
              ToolCalls(invs, dumps)[k] == ToolCall(invs[k].toolCallId, "function", FunctionCall(invs[k].toolName, dumps(invs[k].args)))
  {
    if invs != [] {
      ToolCallsExact(invs[..|invs| - 1], dumps);
    }
  }

  /** The `tool` message that follows a main message for one of its invocations. */
  function ToolMessage(inv: ToolInvocation, dumps: Json -> string): OpenAIMessage {
    OpenAIMessage("tool", Text(dumps(inv.result)), None, Some(inv.toolCallId))
  }

  function ToolMessages(invs: seq<ToolInvocation>, dumps: Json -> string): seq<OpenAIMessage> {
    if invs == [] then [] else ToolMessages(invs[..|invs| - 1], dumps) + [ToolMessage(invs[|invs| - 1], dumps)]
  }

  /** One `tool` message per invocation, in invocation order, each carrying its id and encoded result. */
  lemma {:induction false} ToolMessagesExact(invs: seq<ToolInvocation>, dumps: Json -> string)
    decreases |invs|
    ensures |ToolMessages(invs, dumps)| == |invs|
    ensures forall k :: 0 <= k < |invs| ==>
              ToolMessages(invs, dumps)[k] == OpenAIMessage("tool", Text(dumps(invs[k].result)), None, Some(invs[k].toolCallId))
  {
    if invs != [] {
      ToolMessagesExact(invs[..|invs| - 1], dumps);
    }
  }

  /** The message built from a client message itself, before its `tool` messages. */
  function MainMessage(m: ClientMessage, dumps: Json -> string): OpenAIMessage {
    var calls := ToolCalls(m.toolInvocations, dumps);
    OpenAIMessage(m.role, Parts([TextPart(m.content)] + AttachmentParts(m.attachments)),
                  if calls != [] then Some(calls) else None, None)
  }

  /**
   * The main message of a client message: the same role; the message text as
   * the first part, then the attachment parts; `tool_calls` absent (None)
   * exactly when there are no invocations, otherwise one entry per
   * invocation in order.
   */
  lemma MainMessageShape(m: ClientMessage, dumps: Json -> string)
    ensures var r := MainMessage(m, dumps);
      && r.role == m.role && r.toolCallId.None?
      && r.content.Parts? && |r.content.parts| >= 1 && r.content.parts[0] == TextPart(m.content)
      && r.content.parts[1..] == AttachmentParts(m.attachments)
      && (r.toolCalls.None? <==> m.toolInvocations == [])
      && (r.toolCalls.Some? ==>
            && |r.toolCalls.value| == |m.toolInvocations|
            && forall k :: 0 <= k < |m.toolInvocations| ==>
                 r.toolCalls.value[k] == ToolCall(m.toolInvocations[k].toolCallId, "function",
                                                  FunctionCall(m.toolInvocations[k].toolName, dumps(m.toolInvocations[k].args))))
  {
    ToolCallsExact(m.toolInvocations, dumps);
    var parts := [TextPart(m.content)] + AttachmentParts(m.attachments);
    assert parts[1..] == AttachmentParts(m.attachments);
  }

  /** The messages one client message becomes: its main message, then its tool messages. */
  function MessagesOf(m: ClientMessage, dumps: Json -> string): seq<OpenAIMessage> {
    [MainMessage(m, dumps)] + ToolMessages(m.toolInvocations, dumps)
  }

  /** `convert_to_openai_messages`, as a function of the client history. */
  function Converted(ms: seq<ClientMessage>, dumps: Json -> string): seq<OpenAIMessage> {
    if ms == [] then [] else Converted(ms[..|ms| - 1], dumps) + MessagesOf(ms[|ms| - 1], dumps)
  }

  /** The number of upstream messages a history becomes: one plus one per tool invocation, for each message. */
  function Size(ms: seq<ClientMessage>): nat {
    if ms == [] then 0 else Size(ms[..|ms| - 1]) + 1 + |ms[|ms| - 1].toolInvocations|
  }

  /** Converting consecutive histories converts each, one after the other. */
  lemma {:induction false} ConvertedAppend(a: seq<ClientMessage>, b: seq<ClientMessage>, dumps: Json -> string)
    decreases |b|
    ensures Converted(a + b, dumps) == Converted(a, dumps) + Converted(b, dumps)
  {
    if b == [] {
      assert a + b == a;
    } else {
      var b', last := b[..|b| - 1], b[|b| - 1];
      assert (a + b)[..|a + b| - 1] == a + b';
      assert (a + b)[|a + b| - 1] == last;
      ConvertedAppend(a, b', dumps);
      var ca, cb', tail := Converted(a, dumps), Converted(b', dumps), MessagesOf(last, dumps);
      calc {
        Converted(a + b, dumps);
        Converted(a + b', dumps) + tail;
        (ca + cb') + tail;
        ca + (cb' + tail);
      }
    }
  }

  /** The output has one main message per input message plus one tool message per invocation. */
  lemma {:induction false} ConvertedLength(ms: seq<ClientMessage>, dumps: Json -> string)
    decreases |ms|
    ensures |Converted(ms, dumps)| == Size(ms)
  {
    if ms != [] {
      ConvertedLength(ms[..|ms| - 1], dumps);
      ToolMessagesExact(ms[|ms| - 1].toolInvocations, dumps);
    }
  }

  /**
   * Input order is kept: the main message of input message i stands at
   * position Size(ms[..i]), the number of messages its predecessors became,
   * and its tool messages follow it immediately, in invocation order.
   */
  lemma ConvertedLayout(ms: seq<ClientMessage>, i: nat, dumps: Json -> string)
    requires i < |ms|
    ensures var at := Size(ms[..i]); var invs := ms[i].toolInvocations;
      && at + 1 + |invs| <= |Converted(ms, dumps)|
      && Converted(ms, dumps)[at] == MainMessage(ms[i], dumps)
      && forall j :: 0 <= j < |invs| ==>
           Converted(ms, dumps)[at + 1 + j] == OpenAIMessage("tool", Text(dumps(invs[j].result)), None, Some(invs[j].toolCallId))
  {
    var before, rest := ms[..i], ms[i + 1..];
    assert ms == (before + [ms[i]]) + rest;
    ConvertedAppend(before + [ms[i]], rest, dumps);
    ConvertedAppend(before, [ms[i]], dumps);
    assert [ms[i]][..0] == [] && Converted([ms[i]], dumps) == MessagesOf(ms[i], dumps);
    var pre, mine, post := Converted(before, dumps), MessagesOf(ms[i], dumps), Converted(rest, dumps);
    assert Converted(ms, dumps) == pre + mine + post;
    ConvertedLength(before, dumps);
    var invs := ms[i].toolInvocations;
    ToolMessagesExact(invs, dumps);
    assert |mine| == 1 + |invs|;
    forall k | 0 <= k < |mine|
      ensures Converted(ms, dumps)[|pre| + k] == mine[k]
    {
      assert (pre + mine + post)[|pre| + k] == mine[k];
    }
    assert mine[0] == MainMessage(ms[i], dumps);
    forall j | 0 <= j < |invs|
      ensures mine[1 + j] == ToolMessages(invs, dumps)[j]
    {
    }
  }

  /** The first loop of the conversion: the text part, then one part per kept attachment. */
  method CollectParts(m: ClientMessage) returns (parts: seq<Part>)
    ensures parts == [TextPart(m.content)] + AttachmentParts(m.attachments)
  {
    parts := [TextPart(m.content)];
    for j := 0 to |m.attachments|
      invariant parts == [TextPart(m.content)] + AttachmentParts(m.attachments[..j])
    {
      var a := m.attachments[j];
      assert m.attachments[..j + 1][..j] == m.attachments[..j];
      if "image" <= a.contentType {
        parts := parts + [ImagePart(a.url)];
      } else if "text" <= a.contentType {
        parts := parts + [TextPart(a.url)];
      }
    }
    assert m.attachments[..|m.attachments|] == m.attachments;
  }

  /** The second loop of the conversion: one tool call per recorded invocation. */
  method CollectToolCalls(invs: seq<ToolInvocation>, dumps: Json -> string) returns (toolCalls: seq<ToolCall>)
    ensures toolCalls == ToolCalls(invs, dumps)
  {
    toolCalls := [];
    for j := 0 to |invs|
      invariant toolCalls == ToolCalls(invs[..j], dumps)
    {
      assert invs[..j + 1][..j] == invs[..j];
      var inv := invs[j];
      toolCalls := toolCalls + [ToolCall(inv.toolCallId, "function", FunctionCall(inv.toolName, dumps(inv.args)))];
    }
    assert invs[..|invs|] == invs;
  }

  /** The third loop of the conversion: one `tool` message per recorded invocation. */
  method CollectToolMessages(invs: seq<ToolInvocation>, dumps: Json -> string) returns (msgs: seq<OpenAIMessage>)
    ensures msgs == ToolMessages(invs, dumps)
  {
    msgs := [];
    for j := 0 to |invs|
      invariant msgs == ToolMessages(invs[..j], dumps)
    {
      assert invs[..j + 1][..j] == invs[..j];
      var inv := invs[j];
      msgs := msgs + [OpenAIMessage("tool", Text(dumps(inv.result)), None, Some(inv.toolCallId))];
    }
    assert invs[..|invs|] == invs;
  }

  /** `convert_to_openai_messages`: for each client message, its main message and then its tool messages. */
  method ConvertToOpenAIMessages(messages: seq<ClientMessage>, dumps: Json -> string) returns (out: seq<OpenAIMessage>)
    ensures out == Converted(messages, dumps)
  {
    out := [];
    for i := 0 to |messages|
      invariant out == Converted(messages[..i], dumps)
    {
      var m := messages[i];
      var parts := CollectParts(m);
      var toolCalls := CollectToolCalls(m.toolInvocations, dumps);
      out := out + [OpenAIMessage(m.role, Parts(parts), if toolCalls != [] then Some(toolCalls) else None, None)];
      var toolMessages := CollectToolMessages(m.toolInvocations, dumps);
      out := out + toolMessages;
      assert messages[..i + 1][..i] == messages[..i];
    }
    assert messages[..|messages|] == messages;
  }
}
