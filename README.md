# rag-template chat backend: a Dafny model of its core

rag-template's backend turns a chat completion that the upstream model streams
into the line-oriented data-stream protocol that the browser client reads. A
line is one of four kinds:

- `0:` text delta;
- `9:` tool-call announcement;
- `a:` tool-call result;
- `e:` finish summary.

While translating, the backend reassembles tool calls whose arguments arrive
in fragments and runs each finished call against a table of tools. The backend
also has two other parts:

- a converter that rewrites the client's chat history into upstream messages;
- a research sub-agent that talks to the upstream model in rounds, running the
  tools the model asks for, until a response asks for none.

This project models those three parts and proves what they do. The modules are:

- `Wrappers` (wrappers.dfy): `Option` and `Result`.
- `Tools` (tools.dfy): JSON values, the Python exceptions the core can raise,
  and tool dispatch `tools[name](**json.loads(arguments))` (`Invoke`). The
  stream translator and the agent both use `Invoke`.
- `Stream` (stream.dfy): the translator of `rag-template/api/utils/stream.py`.
  - Pure functions give the specification: `ApplyFragment`, `ChoiceStep`,
    `ChunkStep`, `Translate` and `Translation`.
  - `class Translator` holds the generator's draft list and cursor. Its methods
    update them in place and are proved to follow the functions.
  - `StreamText` is the generator.
  - `Render` gives the exact text of each protocol line.
- `ChatApi` (chat_api.dfy): the chat endpoint's own copy of the translator in
  `rag-template/api/index.py`. It runs with the one-entry tool table
  `available_tools`, and includes a worked weather exchange.
- `Prompt` (prompt.py → prompt.dfy): `convert_to_openai_messages`, as a
  specification function and as the source's loops.
- `Agent` (agent.dfy): `research_agent` as a round function and as the source's
  `while not stop` loop, and `do_research_agent`, which appends the agent's
  report to a chat history object in place.

Some parts of the system are parameters or abstract:

- The upstream completion stream is the input sequence of chunks.
- The responses endpoint the agent calls is a script of responses: the i-th
  request receives the i-th response.
- `json.loads`, `json.dumps`, `str()` and the text of an exception are the
  fields of a `Runtime` value. Every statement holds whatever those functions
  are.
- A tool is a function from keyword arguments to a value or a raised message.

Python exceptions that the source does not catch are part of the output. The
translator returns the lines it yielded before the exception, together with the
exception itself.

## Behaviour of the code worth knowing

- **Tool failures end the stream.** The tool call at
  rag-template/api/utils/stream.py:36-38 (and its copy at
  rag-template/api/index.py:121-123) sits in no `try`. An unknown tool name,
  argument text that is not JSON, arguments that are not an object, or a tool
  that raises all stop the generator with that exception. The lines already
  yielded stay, and no `a:` line is written for that call.
  `Stream.ToolCallsTurn` and `ChatApi.UnknownToolEndsStream` state this. The
  research agent, by contrast, catches every such failure and turns it into an
  error string (rag-template/api/utils/agent.py:115-121,
  `Agent.CallOutputsExact`).
- **Drafts are never cleared.** Nothing in stream.py:15-77 empties
  `draft_tool_calls`. A second `tool_calls` finish in the same stream therefore
  announces and runs every earlier draft again. `Stream.ToolCallsTurn` proves
  that a `tool_calls` finish leaves the drafts unchanged.
- **An id-less fragment before any draft raises IndexError.** The cursor is -1
  only while the draft list is empty (`Stream.State.Valid`). In that situation
  `drafts[-1]` at stream.py:61 raises IndexError, which the model calls
  `NoOpenDraft`. Once a draft exists, the cursor is the non-negative index of
  the last draft.

## Model

| member | source | states |
|---|---|---|
| Tools.Invoke | rag-template/api/utils/stream.py:36-38 | Dispatch succeeds exactly when the name is in the table, the arguments parse, the parsed value is a JSON object and the tool returns; the first of those four steps that fails decides the exception (KeyError, decode error, TypeError, or the tool's own error) |
| Stream.FragmentName | rag-template/api/utils/stream.py:51 | The name of a fragment is the function's name when the fragment has a function and a name, and "" otherwise |
| Stream.FragmentArguments | rag-template/api/utils/stream.py:52 | A fragment's argument text is the function's arguments when present, and "" otherwise |
| Stream.Resolve | rag-template/api/utils/stream.py:61 | Python's indexing with a possibly negative index: an index in range gives a position in the list, a non-negative index is itself, a negative index i counts from the back (position i + n), so -1 is the last position |
| Stream.ApplyFragment | rag-template/api/utils/stream.py:48-63 | A fragment with an id appends a draft with that id, the fragment's name and empty arguments, and advances the cursor. Under the cursor invariant, a fragment without an id fails exactly when no draft is open; otherwise it extends only the last draft's arguments. The cursor invariant and the prefix order on drafts are preserved |
| Stream.ApplyFragments | rag-template/api/utils/stream.py:48-63 | The fragment loop yields no line, and its only possible failure is the IndexError; its partner FragmentsKeepInvariant gives the resulting state |
| Stream.FragmentsKeepInvariant | rag-template/api/utils/stream.py:48-63 | A fragment list keeps the cursor on the last draft, only extends the drafts, and opens one draft per fragment with an id. It fails exactly when no draft exists and the first fragment has no id |
| Stream.ExtendsTransitive | rag-template/api/utils/stream.py:54-63 | The "drafts only grow" order (new drafts appended, ids and names kept, arguments extended) is transitive |
| Stream.Announcements | rag-template/api/utils/stream.py:28-33 | One announcement per draft, in draft order, carrying that draft's id, name and raw argument text |
| Stream.ToolResults | rag-template/api/utils/stream.py:35-45 | The call loop of a `tool_calls` finish; its partner ToolResultsUntilFailure states what it yields and where it stops |
| Stream.ToolResultsUntilFailure | rag-template/api/utils/stream.py:35-45 | Drafts run in order, each result line holding the value its call returned. The run stops at the first draft whose dispatch fails, with that draft's exception; there is no failure exactly when every draft produced its line |
| Stream.ChoiceStep | rag-template/api/utils/stream.py:23-66 | A `stop` choice changes nothing and yields nothing. A choice with neither a finish reason nor fragments yields exactly one text delta with its content. Fragment handling yields no line and can only fail with the IndexError |
| Stream.ToolCallsTurn | rag-template/api/utils/stream.py:27-45 | A `tool_calls` finish keeps the drafts. It yields every announcement first, then one result per successful call matching the announcement at the same position, and ends with the first failing call's exception |
| Stream.TurnLines | rag-template/api/utils/stream.py:27-45 | Announcements followed by the run's results have the turn shape described above |
| Stream.ChoicesStep | rag-template/api/utils/stream.py:23-66 | The choices of a chunk in order, stopping at the first exception; its partners ChoicesKeepInvariant and PlainChoices state the state it leaves and the lines it yields without tool traffic |
| Stream.ChoiceKeepsInvariant | rag-template/api/utils/stream.py:23-66 | One choice keeps the cursor invariant, only extends the drafts and opens one draft per fragment with an id |
| Stream.ChoicesKeepInvariant | rag-template/api/utils/stream.py:23-66 | The same for the choices of a chunk, in order |
| Stream.FinishLine | rag-template/api/utils/stream.py:68-77 | The summary's reason is `tool-calls` exactly when some draft exists, and `stop` otherwise. Its token counts are the chunk's usage, or 0 when the chunk has none |
| Stream.ChunkStep | rag-template/api/utils/stream.py:22-77 | A chunk without choices yields exactly its summary line and changes nothing |
| Stream.Translate | rag-template/api/utils/stream.py:22-77 | The chunks in order, stopping at the first exception; its partners TranslateKeepsInvariant, TranslateAppend and PlainStream state the state it leaves, how it composes, and its exact lines without tool traffic |
| Stream.Translation | rag-template/api/utils/stream.py:15-77 | The generator from a fresh state; its partner FinishReasonReflectsOpens states what a usage chunk appends |
| Stream.TranslateKeepsInvariant | rag-template/api/utils/stream.py:22-77 | Over a whole chunk stream the cursor stays on the last draft, drafts only grow, and the number of drafts rises by the number of fragments with an id |
| Stream.TranslateAppend | rag-template/api/utils/stream.py:22-77 | Translating two streams one after the other is translating the first, then the second from the state the first left; an exception in the first ends everything |
| Stream.FinishReasonReflectsOpens | rag-template/api/utils/stream.py:54-58 | After a stream that raised nothing, a usage chunk appends exactly one summary line. Its reason is `tool-calls` exactly when some fragment anywhere in the stream carried an id, and its token counts default to 0 |
| Stream.PlainChoices | rag-template/api/utils/stream.py:24-25 | Choices without tool traffic leave the state alone, raise nothing, and yield exactly one text delta with its content per choice that is not a `stop` finish, in choice order |
| Stream.PlainStream | rag-template/api/utils/stream.py:64-77 | A stream without any tool traffic raises nothing and keeps no draft. It yields exactly, chunk by chunk, the text deltas of its non-`stop` choices in order, and for a chunk without choices one `stop` summary with its token counts (0 when absent) |
| Stream.Translator.constructor | rag-template/api/utils/stream.py:19-20 | A new generator has no drafts and its cursor at -1 |
| Stream.Translator.OpenDraft | rag-template/api/utils/stream.py:54-58 | Appends the new draft with empty arguments and advances the cursor by one |
| Stream.Translator.ExtendDraft | rag-template/api/utils/stream.py:60-63 | Appends the argument text to the draft the cursor names, and changes nothing else. It reports the IndexError, changing nothing, exactly when the cursor is out of range |
| Stream.Translator.HandleFragment | rag-template/api/utils/stream.py:49-63 | Updates the drafts and cursor exactly as ApplyFragment specifies, and leaves them unchanged when it fails |
| Stream.Translator.HandleFragments | rag-template/api/utils/stream.py:48-63 | The fragment loop ends in ApplyFragments' state with its failure |
| Stream.Translator.AnnounceDrafts | rag-template/api/utils/stream.py:28-33 | The announcement loop yields exactly Announcements of the drafts |
| Stream.Translator.RunDrafts | rag-template/api/utils/stream.py:35-45 | The call loop yields exactly ToolResults of the drafts, and stops with the same exception |
| Stream.Translator.EmitToolCalls | rag-template/api/utils/stream.py:27-45 | The announcements, then the results, then the run's exception |
| Stream.Translator.HandleChoice | rag-template/api/utils/stream.py:23-66 | The in-place choice handler follows ChoiceStep in state, lines and failure |
| Stream.Translator.HandleChunk | rag-template/api/utils/stream.py:22-77 | The in-place chunk handler follows ChunkStep: each choice in order, stopping at an exception, then the summary when the chunk has no choices |
| Stream.StreamText | rag-template/api/utils/stream.py:15-77 | The generator's lines and exception are exactly Translation of the chunk stream |
| Stream.Decimal | rag-template/api/utils/stream.py:75-76 | `str()` of a token count is a non-empty string of digits, and has no leading zero unless the number is 0 |
| Stream.DecimalRoundTrip | rag-template/api/utils/stream.py:73-77 | The token counts written into a summary line read back as the same numbers |
| Stream.Render | rag-template/api/utils/stream.py:29-73 | Every rendered line has a one-character tag, a colon and a closing newline. The tag is `0`, `9`, `a` or `e` exactly when the line is a text delta, an announcement, a result or a summary |
| ChatApi.AvailableTools | rag-template/api/index.py:29-31 | The endpoint's tool table has exactly one entry, `get_current_weather`, bound to the weather lookup |
| ChatApi.StreamText | rag-template/api/index.py:73-162 | The endpoint's copy of the generator produces exactly the translation of the chunk stream against that one-entry table |
| ChatApi.UnknownToolEndsStream | rag-template/api/index.py:111-123 | When the first draft names any tool other than the weather lookup, a `tool_calls` finish yields all announcements and then ends with KeyError, producing no result line |
| ChatApi.WeatherExchange | rag-template/api/index.py:106-162 | The stream "Hello", then a weather call opened by id `abc`, then its arguments, then a `tool_calls` finish, then usage 10/5. It produces exactly: text "Hello", the announcement, the result carrying the forecast, and `e:` with reason `tool-calls` and tokens 10 and 5 |
| Prompt.AttachmentParts | rag-template/api/utils/prompt.py:66-74 | The attachment loop; its partners AttachmentPartsAppend and AttachmentPartsExact state which parts come out and in what order |
| Prompt.AttachmentPartsAppend | rag-template/api/utils/prompt.py:66-74 | The parts of consecutive attachment lists are the parts of each, in order |
| Prompt.AttachmentPartsExact | rag-template/api/utils/prompt.py:66-74 | At most one part per attachment. Attachments that are neither image nor text contribute nothing. When all are kept, image attachments become image parts and text attachments become text parts holding the URL, one to one |
| Prompt.ToolCalls | rag-template/api/utils/prompt.py:76-87 | The tool-call loop; its partner ToolCallsExact states the entries one by one |
| Prompt.ToolCallsExact | rag-template/api/utils/prompt.py:76-87 | One tool call per invocation, in order, with its id, type `function`, its name and its JSON-encoded arguments |
| Prompt.ToolMessages | rag-template/api/utils/prompt.py:101-111 | The `tool` message loop; its partner ToolMessagesExact states the messages one by one |
| Prompt.ToolMessagesExact | rag-template/api/utils/prompt.py:101-111 | One `tool` message per invocation, in order, with its call id and its JSON-encoded result |
| Prompt.MainMessage | rag-template/api/utils/prompt.py:61-99 | The main message of one client message; its partner MainMessageShape states role, parts and `tool_calls` |
| Prompt.MainMessageShape | rag-template/api/utils/prompt.py:61-99 | The main message keeps the role. Its parts are the text, then the attachment parts. Its `tool_calls` is None exactly when there are no invocations, and otherwise lists them all |
| Prompt.Converted | rag-template/api/utils/prompt.py:60-113 | The conversion of a whole history; its partners ConvertedAppend, ConvertedLength and ConvertedLayout state how it composes, its length, and where each message lands |
| Prompt.ConvertedAppend | rag-template/api/utils/prompt.py:60-113 | Converting consecutive histories converts each, one after the other |
| Prompt.ConvertedLength | rag-template/api/utils/prompt.py:60-113 | The output has one main message per input message plus one tool message per invocation |
| Prompt.ConvertedLayout | rag-template/api/utils/prompt.py:60-113 | The main message for input i stands right after the messages of its predecessors, and is followed immediately by its tool messages in invocation order |
| Prompt.CollectParts | rag-template/api/utils/prompt.py:61-74 | The parts loop builds the text part, then the attachment parts |
| Prompt.CollectToolCalls | rag-template/api/utils/prompt.py:76-87 | The invocation loop builds exactly ToolCalls |
| Prompt.CollectToolMessages | rag-template/api/utils/prompt.py:101-111 | The second invocation loop builds exactly ToolMessages |
| Prompt.ConvertToOpenAIMessages | rag-template/api/utils/prompt.py:55-113 | The conversion loop returns exactly Converted of the history |
| Agent.FunctionCalls | rag-template/api/utils/agent.py:105 | The `function_call` filter; its partners FunctionCallsFilter and FunctionCallsAppend state what it keeps and in what order |
| Agent.FunctionCallsFilter | rag-template/api/utils/agent.py:105 | The filter keeps only items of the output. It finds no call exactly when no output item is a function call |
| Agent.FunctionCallsAppend | rag-template/api/utils/agent.py:105 | The filter distributes over concatenation, so the calls keep their output order |
| Agent.ToolOutputText | rag-template/api/utils/agent.py:115-127 | The text one call contributes, with the caught error line; its partner CallOutputsExact states it per call |
| Agent.CallOutputs | rag-template/api/utils/agent.py:113-129 | One output per call; its partner CallOutputsExact states them one by one |
| Agent.CallOutputsExact | rag-template/api/utils/agent.py:113-129 | The next input has exactly one output per call, in call order, tagged with the call's id. It holds `str()` of the tool's value, or "Error calling tool NAME: " followed by the exception's text when any dispatch step fails, unknown names included |
| Agent.Rounds | rag-template/api/utils/agent.py:36-131 | The rounds from a given input and continuation id; its partner RoundsCharacterized states every request and the returned text |
| Agent.Research | rag-template/api/utils/agent.py:20-131 | The agent from its seed input; its partners ResearchStart and NoRoundCap state its first request and how long it runs |
| Agent.RoundsCharacterized | rag-template/api/utils/agent.py:30-131 | Each request after the first follows a response that had function calls, consists of their outputs, and continues from that response's id. The loop returns the text of the first response without calls; it returns nothing only when the script runs out |
| Agent.NoRoundCap | rag-template/api/utils/agent.py:36-110 | If the first n responses all call tools and response n calls none, exactly n + 1 requests are sent and response n's text is returned, for every n |
| Agent.ResearchStart | rag-template/api/utils/agent.py:31-34 | The first request is the single user message "The research query is: " + query, with no continuation id |
| Agent.RunCalls | rag-template/api/utils/agent.py:113-129 | The tool loop, with its try/except, builds exactly CallOutputs |
| Agent.ResearchAgent | rag-template/api/utils/agent.py:20-131 | The `while not stop` loop sends exactly the requests of Research and returns its text |
| Agent.AgentReport | rag-template/api/utils/agent.py:143-147 | The report is a user message, without tool fields, whose text is the fixed prefix followed by the agent's text |
| Agent.DoResearchAgent | rag-template/api/utils/agent.py:134-148 | Appends exactly one report to the given history and returns that same history object; earlier entries are untouched |

## Left out

- The FastAPI route `handle_chat_data`, its response header and the streaming
  response object (rag-template/api/index.py:165-172) are not modelled; they
  only wire the converter to the generator. `do_stream` in index.py is not
  part of the core.
- Creating the upstream clients and requests (model names, instructions,
  reasoning options, the tool-spec dictionaries) is left out: it is static
  data handed to a remote service. The tool name `get_current_weather` is the
  only part the core depends on.
- The tools themselves (rag-template/api/utils/tools.py, pdf.py, rag.py,
  search.py) are not part of this model. A tool is an arbitrary function from
  keyword arguments to a JSON value or a raised message. Its network access
  and its `print` are left out.
- `print` calls in agent.py are left out: they are console output only.
- `json.loads`, `json.dumps`, `str()` and exception text are abstract
  functions. JSON numbers are integers only, and `json.dumps` cannot fail,
  because a tool returns a JSON value.
- Generator laziness is left out: the translator's output is the whole list of
  lines, plus the exception that stopped it. Upstream transport errors while
  reading chunks are not represented.
- Agent.ResearchAgent: the real loop has no round cap and calls the endpoint
  until a response has no function calls. Here the endpoint is a finite
  script, and a script that runs out ends the run with no text.
  Agent.DoResearchAgent then appends nothing; the real function would not
  have returned.
- Optional TypedDict keys and falsy lists: an absent `tool_calls` delta,
  attachment list or invocation list is the empty list, since the code treats
  `None` and `[]` alike. An absent content or finish reason is `None`.
- The client attachment type (attachment.py) is not part of this model beyond
  its two fields `contentType` and `url`. An invocation's `state` is carried
  but never read, as in the source.
- Two generators running at once are not modelled.
