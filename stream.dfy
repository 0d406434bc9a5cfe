/**
 * The stream translator of rag-template/api/utils/stream.py: it reads the
 * chunks of a streamed chat completion and writes the lines of the client's
 * data-stream protocol (text deltas, tool-call announcements, tool-call
 * results and one summary line per usage chunk), reassembling tool calls
 * whose arguments arrive in fragments and running each finished tool call.
 *
 * The pure functions (ApplyFragment ... Translation) are the specification;
 * the class Translator holds the generator's local state (the draft list
 * and its cursor) and its methods are proved to follow the functions.
 */
module Stream {
  import opened Wrappers
  import opened Tools

  /** A tool call whose arguments are still being assembled. */
  datatype Draft = Draft(id: string, name: string, arguments: string)

  /** The `function` part of a tool-call fragment; either field may be absent. */
  datatype FunctionDelta = FunctionDelta(name: Option<string>, arguments: Option<string>)

  /** One tool-call fragment of a delta. */
  datatype ToolCallDelta = ToolCallDelta(id: Option<string>, fn: Option<FunctionDelta>)

  /** A choice's delta; an absent `tool_calls` list is the empty list (both are falsy). */
  datatype Delta = Delta(content: Option<string>, toolCalls: seq<ToolCallDelta>)

  datatype Choice = Choice(finishReason: Option<string>, delta: Delta)

  datatype Usage = Usage(promptTokens: nat, completionTokens: nat)

  /** One streamed completion chunk. */
  datatype Chunk = Chunk(choices: seq<Choice>, usage: Option<Usage>)

  /** One line of the outgoing protocol, before it is written out (see Render). */
  datatype Line =
    | TextDelta(content: Option<string>)                                           // 0:
    | ToolCallAnnounced(toolCallId: string, toolName: string, args: string)         // 9:
    | ToolCallResult(toolCallId: string, toolName: string, args: string, result: Json) // a:
    | Finish(reason: string, promptTokens: nat, completionTokens: nat)              // e:

  /** The translator's state: the drafts in the order they were opened and the cursor. */
  datatype State = State(drafts: seq<Draft>, index: int) {
    /** The cursor is the position of the most recently opened draft, -1 while there is none. */
    ghost predicate Valid() {
      index == |drafts| - 1
    }
  }

  const Initial: State := State([], -1)

  /** What a run of the generator produced: the lines it yielded and the exception that ended it, if any. */
  datatype Emitted = Emitted(lines: seq<Line>, failure: Option<Failure>)

  /** The effect of one piece of input: the new state, the lines yielded and the exception raised, if any. */
  datatype Step = Step(state: State, lines: seq<Line>, failure: Option<Failure>)

  /** `s2` grows out of `s1`: no draft is removed, ids and names never change and arguments only grow. */
  ghost predicate Extends(s1: State, s2: State) {
    && |s1.drafts| <= |s2.drafts|
    && forall k :: 0 <= k < |s1.drafts| ==>
         && s2.drafts[k].id == s1.drafts[k].id
         && s2.drafts[k].name == s1.drafts[k].name
         && s1.drafts[k].arguments <= s2.drafts[k].arguments
  }

  lemma ExtendsTransitive(s1: State, s2: State, s3: State)
    requires Extends(s1, s2) && Extends(s2, s3)
    ensures Extends(s1, s3)
  {
  }

  /** The fragment's tool name, the empty string when `function` or its `name` is absent. */
  function FragmentName(f: ToolCallDelta): (r: string)
    ensures f.fn.None? ==> r == ""
    ensures f.fn.Some? ==> r == f.fn.value.name.GetOr("")
  {
    match f.fn
    case None => ""
    case Some(fd) => fd.name.GetOr("")
  }

  /** The fragment's argument text, the empty string when `function` or its `arguments` is absent. */
  function FragmentArguments(f: ToolCallDelta): (r: string)
    ensures f.fn.None? ==> r == ""
    ensures f.fn.Some? ==> r == f.fn.value.arguments.GetOr("")
  {
    match f.fn
    case None => ""
    case Some(fd) => fd.arguments.GetOr("")
  }

  /** Python's `xs[i]` is defined for -len(xs) <= i < len(xs); a negative index counts from the end. */
  predicate IndexOk(i: int, n: nat) {
    -(n as int) <= i < n
  }

  function Resolve(i: int, n: nat): (k: nat)
    requires IndexOk(i, n)
    ensures k < n && (0 <= i ==> k == i) && (i < 0 ==> k == i + n) && (i == -1 ==> k == n - 1)
  {
    if i < 0 then i + n else i
  }

  /**
   * One tool-call fragment. A fragment with an id opens a new draft with
   * that id, the fragment's name and EMPTY arguments (any argument text the
   * opening fragment carries is dropped), and advances the cursor. A fragment
   * without an id appends its argument text to the draft at the cursor, and
   * raises IndexError when there is no such draft.
   */
  function ApplyFragment(s: State, f: ToolCallDelta): (r: Result<State, Failure>)
    ensures f.id.Some? ==> r == Ok(State(s.drafts + [Draft(f.id.value, FragmentName(f), "")], s.index + 1))
    ensures s.Valid() ==> (r.Err? <==> f.id.None? && s.drafts == [])
    ensures r.Err? ==> r.error == NoOpenDraft
    ensures s.Valid() && r.Ok? ==> r.value.Valid() && Extends(s, r.value)
    ensures s.Valid() && f.id.None? && s.drafts != [] ==>
              && |r.value.drafts| == |s.drafts| && r.value.index == s.index
              && r.value.drafts[s.index] == s.drafts[s.index].(arguments := s.drafts[s.index].arguments + FragmentArguments(f))
              && forall k :: 0 <= k < |s.drafts| && k != s.index ==> r.value.drafts[k] == s.drafts[k]
  {
    if f.id.Some? then
      Ok(State(s.drafts + [Draft(f.id.value, FragmentName(f), "")], s.index + 1))
    else if IndexOk(s.index, |s.drafts|) then
      var k := Resolve(s.index, |s.drafts|);
      var d := s.drafts[k];
      Ok(State(s.drafts[k := d.(arguments := d.arguments + FragmentArguments(f))], s.index))
    else
      Err(NoOpenDraft)
  }

  /** The number of fragments that carry an id, i.e. that open a draft. */
  function Opens(fs: seq<ToolCallDelta>): nat {
    if fs == [] then 0 else (if fs[0].id.Some? then 1 else 0) + Opens(fs[1..])
  }

  /** The fragments of one delta, in order; the first IndexError ends the run. */
  function ApplyFragments(s: State, fs: seq<ToolCallDelta>): (r: Step)
    decreases fs
    ensures r.lines == []
    ensures r.failure.Some? ==> r.failure == Some(NoOpenDraft)
  {
    if fs == [] then Step(s, [], None)
    else match ApplyFragment(s, fs[0])
      case Err(e) => Step(s, [], Some(e))
      case Ok(s1) => ApplyFragments(s1, fs[1..])
  }

  /**
   * Over the fragments of a delta the cursor keeps naming the last draft,
   * drafts only grow, and exactly one draft is added per fragment with an id;
   * the only failure is an id-less first fragment while no draft exists.
   */
  lemma {:induction false} FragmentsKeepInvariant(s: State, fs: seq<ToolCallDelta>)
    requires s.Valid()
    decreases fs
    ensures var r := ApplyFragments(s, fs);
      && r.state.Valid() && Extends(s, r.state)
      && (r.failure.Some? <==> s.drafts == [] && fs != [] && fs[0].id.None?)
      && (r.failure.None? ==> |r.state.drafts| == |s.drafts| + Opens(fs))
  {
    if fs != [] {
      match ApplyFragment(s, fs[0])
      case Err(e) =>
      case Ok(s1) =>
        FragmentsKeepInvariant(s1, fs[1..]);
        ExtendsTransitive(s, s1, ApplyFragments(s1, fs[1..]).state);
    }
  }

  /** One `9:` line per draft, in draft order. */
  function Announcements(ds: seq<Draft>): (r: seq<Line>)
    ensures |r| == |ds|
    ensures forall k :: 0 <= k < |ds| ==> r[k] == ToolCallAnnounced(ds[k].id, ds[k].name, ds[k].arguments)
  {
    if ds == [] then [] else [ToolCallAnnounced(ds[0].id, ds[0].name, ds[0].arguments)] + Announcements(ds[1..])
  }

  /**
   * Runs the drafts' tools in draft order, one `a:` line per call. The
   * translator does not catch a tool's exception: the first failing call
   * ends the run, after the lines of the calls before it.
   */
  function ToolResults(tools: Registry, rt: Runtime, ds: seq<Draft>): Emitted
  {
    if ds == [] then Emitted([], None)
    else match Invoke(tools, rt, ds[0].name, ds[0].arguments)
      case Err(e) => Emitted([], Some(e))
      case Ok(v) =>
        var rest := ToolResults(tools, rt, ds[1..]);
        Emitted([ToolCallResult(ds[0].id, ds[0].name, ds[0].arguments, v)] + rest.lines, rest.failure)
  }

  /**
   * The `a:` lines are those of the drafts whose calls succeeded, in draft
   * order, up to the first failing call; that call's exception is the
   * failure, and there is none exactly when every draft got its line.
   */
  lemma {:induction false} ToolResultsUntilFailure(tools: Registry, rt: Runtime, ds: seq<Draft>)
    ensures var r := ToolResults(tools, rt, ds);
      && |r.lines| <= |ds|
      && (r.failure.None? <==> |r.lines| == |ds|)
      && (forall k :: 0 <= k < |r.lines| ==>
            && Invoke(tools, rt, ds[k].name, ds[k].arguments).Ok?
            && r.lines[k] == ToolCallResult(ds[k].id, ds[k].name, ds[k].arguments,
                                            Invoke(tools, rt, ds[k].name, ds[k].arguments).value))
      && (r.failure.Some? ==> Invoke(tools, rt, ds[|r.lines|].name, ds[|r.lines|].arguments) == Err(r.failure.value))
  {
    if ds != [] && Invoke(tools, rt, ds[0].name, ds[0].arguments).Ok? {
      ToolResultsUntilFailure(tools, rt, ds[1..]);
      var rest := ToolResults(tools, rt, ds[1..]);
      var r := ToolResults(tools, rt, ds);
      forall k | 1 <= k < |r.lines|
        ensures r.lines[k] == rest.lines[k - 1] && ds[k] == ds[1..][k - 1]
      {
      }
    }
  }

  /** One choice: `stop` yields nothing, `tool_calls` runs every draft, fragments update the drafts, anything else is text. */
  function ChoiceStep(s: State, c: Choice, tools: Registry, rt: Runtime): (r: Step)
    ensures c.finishReason == Some("stop") ==> r == Step(s, [], None)
    ensures c.finishReason != Some("stop") && c.finishReason != Some("tool_calls") && c.delta.toolCalls == [] ==>
              r == Step(s, [TextDelta(c.delta.content)], None)
    ensures c.finishReason != Some("tool_calls") && r.failure.Some? ==> r.failure == Some(NoOpenDraft)
  {
    if c.finishReason == Some("stop") then
      Step(s, [], None)
    else if c.finishReason == Some("tool_calls") then
      var results := ToolResults(tools, rt, s.drafts);
      Step(s, Announcements(s.drafts) + results.lines, results.failure)
    else if c.delta.toolCalls != [] then
      ApplyFragments(s, c.delta.toolCalls)
    else
      Step(s, [TextDelta(c.delta.content)], None)
  }

  /**
   * A `tool_calls` finish with N drafts: first N `9:` lines in draft order,
   * then one `a:` line per draft in draft order, each repeating its
   * announcement's id, name and arguments and carrying the tool's result;
   * so every announcement precedes every result. The drafts are left as they
   * are (they are never cleared). When every call succeeds there are exactly
   * 2N lines; otherwise the lines stop at the first failing call, whose
   * exception ends the stream.
   */
  lemma ToolCallsTurn(s: State, c: Choice, tools: Registry, rt: Runtime)
    requires c.finishReason == Some("tool_calls")
    ensures var r := ChoiceStep(s, c, tools, rt);
      && r.state == s
      && TurnShape(r.lines, r.failure, s.drafts, tools, rt)
  {
    var results := ToolResults(tools, rt, s.drafts);
    TurnLines(s.drafts, Announcements(s.drafts) + results.lines, results.failure, tools, rt);
  }

  /** The shape of the lines of a `tool_calls` finish over the drafts `ds`. */
  ghost predicate TurnShape(lines: seq<Line>, failure: Option<Failure>, ds: seq<Draft>, tools: Registry, rt: Runtime) {
    var n := |ds|;
    && n <= |lines| <= 2 * n
    && (forall k :: 0 <= k < n ==> lines[k] == ToolCallAnnounced(ds[k].id, ds[k].name, ds[k].arguments))
    && (forall k :: n <= k < |lines| ==>
          && lines[k].ToolCallResult?
          && lines[k].toolCallId == lines[k - n].toolCallId
          && lines[k].toolName == lines[k - n].toolName
          && lines[k].args == lines[k - n].args
          && Invoke(tools, rt, ds[k - n].name, ds[k - n].arguments) == Ok(lines[k].result))
    && (failure.None? <==> |lines| == 2 * n)
    && (failure.Some? ==> Invoke(tools, rt, ds[|lines| - n].name, ds[|lines| - n].arguments) == Err(failure.value))
  }

  lemma TurnLines(ds: seq<Draft>, lines: seq<Line>, failure: Option<Failure>, tools: Registry, rt: Runtime)
    requires lines == Announcements(ds) + ToolResults(tools, rt, ds).lines
    requires failure == ToolResults(tools, rt, ds).failure
    ensures TurnShape(lines, failure, ds, tools, rt)
  {
    var n := |ds|;
    var announced := Announcements(ds);
    var results := ToolResults(tools, rt, ds).lines;
    ToolResultsUntilFailure(tools, rt, ds);
    assert |announced| == n;
    forall k | n <= k < |lines|
      ensures && lines[k].ToolCallResult?
              && lines[k].toolCallId == lines[k - n].toolCallId
              && lines[k].toolName == lines[k - n].toolName
              && lines[k].args == lines[k - n].args
              && Invoke(tools, rt, ds[k - n].name, ds[k - n].arguments) == Ok(lines[k].result)
    {
      assert lines[k] == (announced + results)[k] == results[k - n];
      assert lines[k - n] == announced[k - n] == ToolCallAnnounced(ds[k - n].id, ds[k - n].name, ds[k - n].arguments);
    }
  }

  /** The drafts a choice opens (choices with a `stop` or `tool_calls` finish open none). */
  function ChoiceOpens(c: Choice): nat {
    if c.finishReason == Some("stop") || c.finishReason == Some("tool_calls") then 0
    else Opens(c.delta.toolCalls)
  }

  function ChoicesOpens(cs: seq<Choice>): nat {
    if cs == [] then 0 else ChoiceOpens(cs[0]) + ChoicesOpens(cs[1..])
  }

  /** The drafts opened by a sequence of chunks. */
  function ChunksOpens(chunks: seq<Chunk>): nat {
    if chunks == [] then 0 else ChoicesOpens(chunks[0].choices) + ChunksOpens(chunks[1..])
  }

  lemma ChoiceKeepsInvariant(s: State, c: Choice, tools: Registry, rt: Runtime)
    requires s.Valid()
    ensures var r := ChoiceStep(s, c, tools, rt);
      && r.state.Valid() && Extends(s, r.state)
      && (r.failure.None? ==> |r.state.drafts| == |s.drafts| + ChoiceOpens(c))
  {
    if c.finishReason != Some("stop") && c.finishReason != Some("tool_calls") && c.delta.toolCalls != [] {
      FragmentsKeepInvariant(s, c.delta.toolCalls);
    }
  }

  /** `st` with `lines` yielded before it. */
  function Prepend(lines: seq<Line>, st: Step): Step {
    st.(lines := lines + st.lines)
  }

  /** The choices of one chunk, in order; an exception ends the run. */
  function ChoicesStep(s: State, cs: seq<Choice>, tools: Registry, rt: Runtime): Step
    decreases cs
  {
    if cs == [] then Step(s, [], None)
    else
      var first := ChoiceStep(s, cs[0], tools, rt);
      if first.failure.Some? then first
      else Prepend(first.lines, ChoicesStep(first.state, cs[1..], tools, rt))
  }

  lemma {:induction false} ChoicesKeepInvariant(s: State, cs: seq<Choice>, tools: Registry, rt: Runtime)
    requires s.Valid()
    decreases cs
    ensures var r := ChoicesStep(s, cs, tools, rt);
      && r.state.Valid() && Extends(s, r.state)
      && (r.failure.None? ==> |r.state.drafts| == |s.drafts| + ChoicesOpens(cs))
  {
    if cs != [] {
      var first := ChoiceStep(s, cs[0], tools, rt);
      ChoiceKeepsInvariant(s, cs[0], tools, rt);
      if first.failure.None? {
        ChoicesKeepInvariant(first.state, cs[1..], tools, rt);
        ExtendsTransitive(s, first.state, ChoicesStep(first.state, cs[1..], tools, rt).state);
      }
    }
  }

  /** The `e:` line: `tool-calls` when a draft exists, token counts 0 when the chunk has no usage. */
  function FinishLine(s: State, usage: Option<Usage>): (l: Line)
    ensures l.Finish?
    ensures l.reason == (if |s.drafts| > 0 then "tool-calls" else "stop")
    ensures usage.None? ==> l.promptTokens == 0 && l.completionTokens == 0
    ensures usage.Some? ==> l.promptTokens == usage.value.promptTokens && l.completionTokens == usage.value.completionTokens
  {
    Finish(if |s.drafts| > 0 then "tool-calls" else "stop",
           match usage case Some(u) => u.promptTokens case None => 0,
           match usage case Some(u) => u.completionTokens case None => 0)
  }

  /** One chunk: its choices, then, when it has none, the summary line. */
  function ChunkStep(s: State, ch: Chunk, tools: Registry, rt: Runtime): (r: Step)
    ensures ch.choices == [] ==> r == Step(s, [FinishLine(s, ch.usage)], None)
  {
    if ch.choices == [] then Step(s, [FinishLine(s, ch.usage)], None)
    else ChoicesStep(s, ch.choices, tools, rt)
  }

  /** A sequence of chunks, in order; an exception ends the run. */
  function Translate(s: State, chunks: seq<Chunk>, tools: Registry, rt: Runtime): Step
    decreases chunks
  {
    if chunks == [] then Step(s, [], None)
    else
      var first := ChunkStep(s, chunks[0], tools, rt);
      if first.failure.Some? then first
      else Prepend(first.lines, Translate(first.state, chunks[1..], tools, rt))
  }

  /**
   * Over a whole stream the cursor keeps naming the last draft, drafts are
   * never removed, and the number of drafts is the number of opening
   * fragments the stream carried.
   */
  lemma {:induction false} TranslateKeepsInvariant(s: State, chunks: seq<Chunk>, tools: Registry, rt: Runtime)
    requires s.Valid()
    decreases chunks
    ensures var r := Translate(s, chunks, tools, rt);
      && r.state.Valid() && Extends(s, r.state)
      && (r.failure.None? ==> |r.state.drafts| == |s.drafts| + ChunksOpens(chunks))
  {
    if chunks != [] {
      var first := ChunkStep(s, chunks[0], tools, rt);
      if chunks[0].choices != [] {
        ChoicesKeepInvariant(s, chunks[0].choices, tools, rt);
      }
      if first.failure.None? {
        TranslateKeepsInvariant(first.state, chunks[1..], tools, rt);
        ExtendsTransitive(s, first.state, Translate(first.state, chunks[1..], tools, rt).state);
      }
    }
  }

  /** Everything `stream_text` yields for a chunk stream, and the exception that ended it, if any. */
  function Translation(chunks: seq<Chunk>, tools: Registry, rt: Runtime): Emitted {
    var r := Translate(Initial, chunks, tools, rt);
    Emitted(r.lines, r.failure)
  }
  lemma PrependTwice(x: seq<Line>, y: seq<Line>, st: Step)
    ensures Prepend(x, Prepend(y, st)) == Prepend(x + y, st)
  {
  }

  /** Translating a stream split in two is translating the first part, then the second from the state it left. */
  lemma {:induction false} TranslateAppend(s: State, a: seq<Chunk>, b: seq<Chunk>, tools: Registry, rt: Runtime)
    decreases a
    ensures var ra := Translate(s, a, tools, rt);
      Translate(s, a + b, tools, rt) ==
        if ra.failure.Some? then ra else Prepend(ra.lines, Translate(ra.state, b, tools, rt))
  {
    if a == [] {
      assert a + b == b;
    } else {
      assert (a + b)[0] == a[0] && (a + b)[1..] == a[1..] + b;
      var first := ChunkStep(s, a[0], tools, rt);
      assert Translate(s, a + b, tools, rt) ==
        if first.failure.Some? then first else Prepend(first.lines, Translate(first.state, a[1..] + b, tools, rt));
      assert Translate(s, a, tools, rt) ==
        if first.failure.Some? then first else Prepend(first.lines, Translate(first.state, a[1..], tools, rt));
      if first.failure.None? {
        TranslateAppend(first.state, a[1..], b, tools, rt);
        var r1 := Translate(first.state, a[1..], tools, rt);
        if r1.failure.None? {
          PrependTwice(first.lines, r1.lines, Translate(r1.state, b, tools, rt));
        }
      }
    }
  }

  /**
   * A chunk without choices, after a stream that raised nothing, adds
   * exactly one line: the `e:` line, whose reason is `tool-calls` exactly
   * when some fragment of the stream opened a draft (drafts are never
   * cleared) and whose token counts default to 0.
   */
  lemma FinishReasonReflectsOpens(chunks: seq<Chunk>, usage: Option<Usage>, tools: Registry, rt: Runtime)
    requires Translation(chunks, tools, rt).failure.None?
    ensures var r := Translation(chunks + [Chunk([], usage)], tools, rt);
      && r.failure.None?
      && r.lines == Translation(chunks, tools, rt).lines
                    + [Finish(if ChunksOpens(chunks) > 0 then "tool-calls" else "stop",
                              if usage.Some? then usage.value.promptTokens else 0,
                              if usage.Some? then usage.value.completionTokens else 0)]
  {
    var ra := Translate(Initial, chunks, tools, rt);
    TranslateKeepsInvariant(Initial, chunks, tools, rt);
    TranslateAppend(Initial, chunks, [Chunk([], usage)], tools, rt);
    assert Translate(ra.state, [Chunk([], usage)], tools, rt) == Step(ra.state, [FinishLine(ra.state, usage)], None);
  }

  /** A choice that neither fragments a tool call nor finishes with `tool_calls`. */
  predicate PlainChoice(c: Choice) {
    c.delta.toolCalls == [] && c.finishReason != Some("tool_calls")
  }

  /** A line a stream without tool traffic may yield: text, or a summary saying `stop`. */
  predicate PlainLine(l: Line) {
    l.TextDelta? || (l.Finish? && l.reason == "stop")
  }

  /** The lines plain choices yield: one text delta per choice that is not a `stop` finish, in order. */
  function PlainTexts(cs: seq<Choice>): seq<Line> {
    if cs == [] then []
    else (if cs[0].finishReason == Some("stop") then [] else [TextDelta(cs[0].delta.content)]) + PlainTexts(cs[1..])
  }

  /**
   * The lines a stream without tool traffic yields: per chunk, the text
   * deltas of its choices, or, for a chunk without choices, a `stop` summary
   * with its token counts (0 when absent).
   */
  function PlainLines(chunks: seq<Chunk>): seq<Line> {
    if chunks == [] then []
    else
      var u := chunks[0].usage;
      (if chunks[0].choices == []
       then [Finish("stop", if u.Some? then u.value.promptTokens else 0, if u.Some? then u.value.completionTokens else 0)]
       else PlainTexts(chunks[0].choices))
      + PlainLines(chunks[1..])
  }

  /** Plain choices leave the state alone, never raise, and yield exactly PlainTexts. */
  lemma {:induction false} PlainChoices(s: State, cs: seq<Choice>, tools: Registry, rt: Runtime)
    requires forall k :: 0 <= k < |cs| ==> PlainChoice(cs[k])
    decreases cs
    ensures ChoicesStep(s, cs, tools, rt) == Step(s, PlainTexts(cs), None)
    ensures forall k :: 0 <= k < |ChoicesStep(s, cs, tools, rt).lines| ==> ChoicesStep(s, cs, tools, rt).lines[k].TextDelta?
  {
    if cs != [] {
      PlainChoices(s, cs[1..], tools, rt);
    }
    PlainTextsAreText(cs);
  }

  /** The lines of plain choices are all text deltas. */
  lemma {:induction false} PlainTextsAreText(cs: seq<Choice>)
    decreases cs
    ensures forall k :: 0 <= k < |PlainTexts(cs)| ==> PlainTexts(cs)[k].TextDelta?
  {
    if cs != [] {
      PlainTextsAreText(cs[1..]);
      var head := if cs[0].finishReason == Some("stop") then [] else [TextDelta(cs[0].delta.content)];
      assert forall k :: |head| <= k < |PlainTexts(cs)| ==> PlainTexts(cs)[k] == PlainTexts(cs[1..])[k - |head|];
    }
  }

  predicate AllPlain(ls: seq<Line>) {
    forall k :: 0 <= k < |ls| ==> PlainLine(ls[k])
  }

  lemma AllPlainAppend(a: seq<Line>, b: seq<Line>)
    requires AllPlain(a) && AllPlain(b)
    ensures AllPlain(a + b)
  {
  }

  /** The lines of a plain stream are text deltas and `stop` summaries. */
  lemma {:induction false} PlainLinesArePlain(chunks: seq<Chunk>)
    decreases chunks
    ensures AllPlain(PlainLines(chunks))
  {
    if chunks != [] {
      PlainTextsAreText(chunks[0].choices);
      PlainLinesArePlain(chunks[1..]);
      var u := chunks[0].usage;
      var head := if chunks[0].choices == []
        then [Finish("stop", if u.Some? then u.value.promptTokens else 0, if u.Some? then u.value.completionTokens else 0)]
        else PlainTexts(chunks[0].choices);
      assert PlainLines(chunks) == head + PlainLines(chunks[1..]);
      assert AllPlain(head);
      AllPlainAppend(head, PlainLines(chunks[1..]));
    }
  }

  /**
   * A stream with no tool-call fragments and no `tool_calls` finish never
   * raises and yields exactly PlainLines: one `0:` line per choice that is
   * not a `stop` finish, with its content, in order, and one `e:` line with
   * reason `stop` per chunk without choices.
   */
  lemma {:induction false} PlainStream(s: State, chunks: seq<Chunk>, tools: Registry, rt: Runtime)
    requires s.drafts == []
    requires forall i, k :: 0 <= i < |chunks| && 0 <= k < |chunks[i].choices| ==> PlainChoice(chunks[i].choices[k])
    decreases chunks
    ensures Translate(s, chunks, tools, rt) == Step(s, PlainLines(chunks), None)
    ensures AllPlain(Translate(s, chunks, tools, rt).lines)
  {
    if chunks != [] {
      var c := chunks[0];
      var u := c.usage;
      if c.choices != [] {
        PlainChoices(s, c.choices, tools, rt);
        assert ChunkStep(s, c, tools, rt) == Step(s, PlainTexts(c.choices), None);
      } else {
        assert ChunkStep(s, c, tools, rt) ==
          Step(s, [Finish("stop", if u.Some? then u.value.promptTokens else 0, if u.Some? then u.value.completionTokens else 0)], None);
      }
      PlainStream(s, chunks[1..], tools, rt);
    }
    PlainLinesArePlain(chunks);
  }

  // ---------------------------------------------------------------------------
  // The generator itself: its local state as an object, updated in place.

  /** The state of one `stream_text` generator: the draft list and the cursor into it. */
  class Translator {
    var drafts: seq<Draft>
    var index: int

    function Current(): State
      reads this
    {
      State(drafts, index)
    }

    /** A new generator has no drafts and its cursor at -1. */
    constructor ()
      ensures Current() == Initial
    {
      drafts := [];
      index := -1;
    }

    /** A fragment with an id: advance the cursor and append a draft with empty arguments. */
    method OpenDraft(id: string, name: string)
      modifies this
      ensures drafts == old(drafts) + [Draft(id, name, "")]
      ensures index == old(index) + 1
    {
      index := index + 1;
      drafts := drafts + [Draft(id, name, "")];
    }

    /** A fragment without an id: `drafts[index].arguments += arguments`, or IndexError. */
    method ExtendDraft(arguments: string) returns (failure: Option<Failure>)
      modifies this
      ensures index == old(index)
      ensures failure.None? <==> IndexOk(index, |old(drafts)|)
      ensures failure.Some? ==> failure == Some(NoOpenDraft) && drafts == old(drafts)
      ensures failure.None? ==>
        var k := Resolve(index, |old(drafts)|);
        drafts == old(drafts)[k := old(drafts)[k].(arguments := old(drafts)[k].arguments + arguments)]
    {
      if IndexOk(index, |drafts|) {
        var k := Resolve(index, |drafts|);
        drafts := drafts[k := drafts[k].(arguments := drafts[k].arguments + arguments)];
        failure := None;
      } else {
        failure := Some(NoOpenDraft);
      }
    }

    method HandleFragment(f: ToolCallDelta) returns (failure: Option<Failure>)
      modifies this
      ensures var r := ApplyFragment(old(Current()), f);
        && (r.Ok? ==> failure.None? && Current() == r.value)
        && (r.Err? ==> failure == Some(r.error) && Current() == old(Current()))
    {
      var name := FragmentName(f);
      var arguments := FragmentArguments(f);
      if f.id.Some? {
        OpenDraft(f.id.value, name);
        failure := None;
      } else {
        failure := ExtendDraft(arguments);
      }
    }

    /** The `for tool_call in choice.delta.tool_calls` loop. */
    method HandleFragments(fs: seq<ToolCallDelta>) returns (failure: Option<Failure>)
      modifies this
      ensures var r := ApplyFragments(old(Current()), fs);
        Current() == r.state && failure == r.failure
    {
      var i := 0;
      while i < |fs|
        invariant 0 <= i <= |fs|
        invariant ApplyFragments(old(Current()), fs) == ApplyFragments(Current(), fs[i..])
      {
        failure := HandleFragment(fs[i]);
        if failure.Some? {
          return;
        }
        assert fs[i..][1..] == fs[i + 1..];
        i := i + 1;
      }
      failure := None;
    }

    /** The `9:` lines of a `tool_calls` finish, one per draft in order. */
    method AnnounceDrafts() returns (lines: seq<Line>)
      ensures lines == Announcements(drafts)
    {
      lines := [];
      var k := 0;
      while k < |drafts|
        invariant 0 <= k <= |drafts|
        invariant lines + Announcements(drafts[k..]) == Announcements(drafts)
      {
        assert drafts[k..][1..] == drafts[k + 1..];
        lines := lines + [ToolCallAnnounced(drafts[k].id, drafts[k].name, drafts[k].arguments)];
        k := k + 1;
      }
    }

    /** The tool calls of a `tool_calls` finish, draft by draft, each followed by its `a:` line; exceptions are not caught. */
    method RunDrafts(tools: Registry, rt: Runtime) returns (lines: seq<Line>, failure: Option<Failure>)
      ensures Emitted(lines, failure) == ToolResults(tools, rt, drafts)
    {
      lines := [];
      var k := 0;
      while k < |drafts|
        invariant 0 <= k <= |drafts|
        invariant ToolResults(tools, rt, drafts) == Emitted(lines + ToolResults(tools, rt, drafts[k..]).lines,
                                                            ToolResults(tools, rt, drafts[k..]).failure)
      {
        var d := drafts[k];
        assert drafts[k..][1..] == drafts[k + 1..];
        var outcome := Invoke(tools, rt, d.name, d.arguments);
        if outcome.Err? {
          failure := Some(outcome.error);
          return;
        }
        lines := lines + [ToolCallResult(d.id, d.name, d.arguments, outcome.value)];
        k := k + 1;
      }
      failure := None;
    }

    /** A `tool_calls` finish: every `9:` line, then the tool calls and their `a:` lines. */
    method EmitToolCalls(tools: Registry, rt: Runtime) returns (lines: seq<Line>, failure: Option<Failure>)
      ensures lines == Announcements(drafts) + ToolResults(tools, rt, drafts).lines
      ensures failure == ToolResults(tools, rt, drafts).failure
    {
      var announced := AnnounceDrafts();
      var results;
      results, failure := RunDrafts(tools, rt);
      lines := announced + results;
    }

    /** One choice of a chunk. */
    method HandleChoice(c: Choice, tools: Registry, rt: Runtime) returns (lines: seq<Line>, failure: Option<Failure>)
      modifies this
      ensures var r := ChoiceStep(old(Current()), c, tools, rt);
        Current() == r.state && lines == r.lines && failure == r.failure
    {
      if c.finishReason == Some("stop") {
        lines, failure := [], None;
      } else if c.finishReason == Some("tool_calls") {
        lines, failure := EmitToolCalls(tools, rt);
      } else if c.delta.toolCalls != [] {
        lines := [];
        failure := HandleFragments(c.delta.toolCalls);
      } else {
        lines, failure := [TextDelta(c.delta.content)], None;
      }
    }

    /** One chunk: each of its choices in order, then the summary line if it has none. */
    method HandleChunk(ch: Chunk, tools: Registry, rt: Runtime) returns (lines: seq<Line>, failure: Option<Failure>)
      modifies this
      ensures var r := ChunkStep(old(Current()), ch, tools, rt);
        Current() == r.state && lines == r.lines && failure == r.failure
    {
      lines := [];
      var i := 0;
      while i < |ch.choices|
        invariant 0 <= i <= |ch.choices|
        invariant ChoicesStep(old(Current()), ch.choices, tools, rt)
                  == Prepend(lines, ChoicesStep(Current(), ch.choices[i..], tools, rt))
      {
        assert ch.choices[i..][1..] == ch.choices[i + 1..];
        ghost var before := Current();
        var out, f := HandleChoice(ch.choices[i], tools, rt);
        assert ChoicesStep(before, ch.choices[i..], tools, rt) ==
          if f.Some? then Step(Current(), out, f) else Prepend(out, ChoicesStep(Current(), ch.choices[i + 1..], tools, rt));
        lines := lines + out;
        if f.Some? {
          failure := f;
          return;
        }
        i := i + 1;
      }
      failure := None;
      assert ChoicesStep(Current(), ch.choices[i..], tools, rt) == Step(Current(), [], None);
      if ch.choices == [] {
        lines := lines + [FinishLine(Current(), ch.usage)];
      }
    }
  }

  /**
   * `stream_text`: every line yielded for the chunk stream, in order, and the
   * exception that ended the generator early, if any.
   */
  method StreamText(chunks: seq<Chunk>, tools: Registry, rt: Runtime) returns (lines: seq<Line>, failure: Option<Failure>)
    ensures Emitted(lines, failure) == Translation(chunks, tools, rt)
  {
    var t := new Translator();
    lines := [];
    var i := 0;
    while i < |chunks|
      invariant 0 <= i <= |chunks|
      invariant Translate(Initial, chunks, tools, rt) == Prepend(lines, Translate(t.Current(), chunks[i..], tools, rt))
    {
      assert chunks[i..][1..] == chunks[i + 1..];
      ghost var before := t.Current();
      var out, f := t.HandleChunk(chunks[i], tools, rt);
      assert Translate(before, chunks[i..], tools, rt) ==
        if f.Some? then Step(t.Current(), out, f) else Prepend(out, Translate(t.Current(), chunks[i + 1..], tools, rt));
      if f.None? {
        PrependTwice(lines, out, Translate(t.Current(), chunks[i + 1..], tools, rt));
      }
      lines := lines + out;
      if f.Some? {
        failure := f;
        return;
      }
      i := i + 1;
    }
    failure := None;
  }

  // ---------------------------------------------------------------------------
  // The wire format of the protocol lines.

  function Digit(d: nat): (c: char)
    requires d < 10
    ensures '0' <= c <= '9'
  {
    (48 + d) as char
  }

  /** Python's `str()` of a non-negative integer: its decimal digits, without leading zeros. */
  function Decimal(n: nat): (r: string)
    ensures |r| > 0
    ensures forall k :: 0 <= k < |r| ==> '0' <= r[k] <= '9'
    ensures r[0] == '0' ==> n == 0
  {
    if n < 10 then [Digit(n)] else Decimal(n / 10) + [Digit(n % 10)]
  }

  /** The value of a string of decimal digits, most significant first. */
  function DigitsValue(s: string): nat
    requires forall k :: 0 <= k < |s| ==> '0' <= s[k] <= '9'
  {
    if s == [] then 0 else DigitsValue(s[..|s| - 1]) * 10 + (s[|s| - 1] as int - '0' as int)
  }

  /** The token counts in a summary line read back as the numbers written. */
  lemma {:induction false} DecimalRoundTrip(n: nat)
    decreases n
    ensures DigitsValue(Decimal(n)) == n
  {
    if n >= 10 {
      var r := Decimal(n);
      assert r[..|r| - 1] == Decimal(n / 10);
      DecimalRoundTrip(n / 10);
    }
  }

  /** `choice.delta.content` as `json.dumps` sees it: an absent content is `null`. */
  function ContentJson(content: Option<string>): Json {
    match content
    case None => Null
    case Some(text) => Str(text)
  }

  /**
   * A line as the generator yields it. Ids, names and argument text are
   * spliced in verbatim, without escaping; the text delta and the tool
   * result go through `json.dumps`.
   */
  function Render(l: Line, rt: Runtime): (r: string)
    ensures |r| >= 3 && r[1] == ':' && r[|r| - 1] == '\n'
    ensures r[0] == '0' <==> l.TextDelta?
    ensures r[0] == '9' <==> l.ToolCallAnnounced?
    ensures r[0] == 'a' <==> l.ToolCallResult?
    ensures r[0] == 'e' <==> l.Finish?
  {
    match l
    case TextDelta(content) =>
      "0:" + rt.dumps(ContentJson(content)) + "\n"
    case ToolCallAnnounced(id, name, args) =>
      "9:{\"toolCallId\":\"" + id + "\",\"toolName\":\"" + name + "\",\"args\":" + args + "}\n"
    case ToolCallResult(id, name, args, result) =>
      "a:{\"toolCallId\":\"" + id + "\",\"toolName\":\"" + name + "\",\"args\":" + args
        + ",\"result\":" + rt.dumps(result) + "}\n"
    case Finish(reason, promptTokens, completionTokens) =>
      "e:{\"finishReason\":\"" + reason + "\",\"usage\":{\"promptTokens\":" + Decimal(promptTokens)
        + ",\"completionTokens\":" + Decimal(completionTokens) + "},\"isContinued\":false}\n"
  }
}
