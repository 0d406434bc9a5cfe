/**
 * rag-template/api/index.py: the chat endpoint's own copy of the stream
 * translator, which runs against a fixed table of tools holding only the
 * weather lookup. The translation itself is the one of module Stream; the
 * upstream completion stream is the input `chunks`.
 */
module ChatApi {
  import opened Wrappers
  import opened Tools
  import opened Stream

  const WeatherToolName: string := "get_current_weather"

  /** `available_tools`: one entry, the weather lookup, under its upstream name. */
  function AvailableTools(weather: Tool): (r: Registry)
    ensures r.Keys == {WeatherToolName}
    ensures r[WeatherToolName] == weather
  {
    map[WeatherToolName := weather]
  }

  /** `stream_text` of index.py: the translation of the completion's chunks with `available_tools`. */
  method StreamText(chunks: seq<Chunk>, weather: Tool, rt: Runtime) returns (lines: seq<Line>, failure: Option<Failure>)
    ensures Emitted(lines, failure) == Translation(chunks, AvailableTools(weather), rt)
  {
    lines, failure := Stream.StreamText(chunks, AvailableTools(weather), rt);
  }

  /**
   * The lookup is not guarded: a `tool_calls` finish whose first draft names
   * any tool other than the weather lookup yields every announcement and
   * then ends the stream with a KeyError, before any result line.
   */
  lemma UnknownToolEndsStream(s: State, c: Choice, weather: Tool, rt: Runtime)
    requires c.finishReason == Some("tool_calls")
    requires s.drafts != [] && s.drafts[0].name != WeatherToolName
    ensures ChoiceStep(s, c, AvailableTools(weather), rt)
            == Step(s, Announcements(s.drafts), Some(UnknownTool(s.drafts[0].name)))
  {
  }

  /** An opening fragment on a fresh translator: one draft, empty arguments, cursor 0. */
  lemma OpeningChunk(tools: Registry, rt: Runtime, id: string, name: string)
    ensures ChunkStep(Initial, Chunk([Choice(None, Delta(None, [ToolCallDelta(Some(id), Some(FunctionDelta(Some(name), None)))]))], None), tools, rt)
            == Step(State([Draft(id, name, "")], 0), [], None)
  {
    var f := ToolCallDelta(Some(id), Some(FunctionDelta(Some(name), None)));
    var c := Choice(None, Delta(None, [f]));
    var s1 := State([Draft(id, name, "")], 0);
    assert Initial.drafts + [Draft(id, name, "")] == s1.drafts;
    assert ApplyFragment(Initial, f) == Ok(s1);
    assert [f][1..] == [];
    assert ApplyFragments(Initial, [f]) == ApplyFragments(s1, []);
    assert ChoiceStep(Initial, c, tools, rt) == Step(s1, [], None);
    assert [c][1..] == [];
    assert ChoicesStep(Initial, [c], tools, rt) == Prepend([], ChoicesStep(s1, [], tools, rt));
  }

  /** An id-less fragment extends the one open draft. */
  lemma ArgumentChunk(tools: Registry, rt: Runtime, d: Draft, args: string)
    ensures ChunkStep(State([d], 0), Chunk([Choice(None, Delta(None, [ToolCallDelta(None, Some(FunctionDelta(None, Some(args))))]))], None), tools, rt)
            == Step(State([d.(arguments := d.arguments + args)], 0), [], None)
  {
    var f := ToolCallDelta(None, Some(FunctionDelta(None, Some(args))));
    var c := Choice(None, Delta(None, [f]));
    var s1 := State([d], 0);
    var s2 := State([d.(arguments := d.arguments + args)], 0);
    assert s1.drafts[0 := s1.drafts[0].(arguments := s1.drafts[0].arguments + args)] == s2.drafts;
    assert ApplyFragment(s1, f) == Ok(s2);
    assert [f][1..] == [];
    assert ApplyFragments(s1, [f]) == ApplyFragments(s2, []);
    assert ChoiceStep(s1, c, tools, rt) == Step(s2, [], None);
    assert [c][1..] == [];
    assert ChoicesStep(s1, [c], tools, rt) == Prepend([], ChoicesStep(s2, [], tools, rt));
  }

  /** A `tool_calls` finish over one draft whose call succeeds: its announcement, then its result. */
  lemma FinishingChunk(tools: Registry, rt: Runtime, d: Draft, result: Json)
    requires Invoke(tools, rt, d.name, d.arguments) == Ok(result)
    ensures ChunkStep(State([d], 0), Chunk([Choice(Some("tool_calls"), Delta(None, []))], None), tools, rt)
            == Step(State([d], 0), [ToolCallAnnounced(d.id, d.name, d.arguments), ToolCallResult(d.id, d.name, d.arguments, result)], None)
  {
    var c := Choice(Some("tool_calls"), Delta(None, []));
    var s := State([d], 0);
    assert [d][1..] == [];
    assert ToolResults(tools, rt, [d]) == Emitted([ToolCallResult(d.id, d.name, d.arguments, result)], None);
    assert Announcements([d]) == [ToolCallAnnounced(d.id, d.name, d.arguments)];
    assert [c][1..] == [];
    assert ChoicesStep(s, [c], tools, rt) == Prepend(ChoiceStep(s, c, tools, rt).lines, ChoicesStep(s, [], tools, rt));
  }

  /** The end of a turn over one successful draft: the `tool_calls` chunk, then the usage chunk. */
  lemma FinishingTurn(tools: Registry, rt: Runtime, d: Draft, result: Json)
    requires Invoke(tools, rt, d.name, d.arguments) == Ok(result)
    ensures Translate(State([d], 0), [Chunk([Choice(Some("tool_calls"), Delta(None, []))], None), Chunk([], Some(Usage(10, 5)))], tools, rt)
            == Step(State([d], 0), [ToolCallAnnounced(d.id, d.name, d.arguments), ToolCallResult(d.id, d.name, d.arguments, result),
                                    Finish("tool-calls", 10, 5)], None)
  {
    var s := State([d], 0);
    var c3 := Chunk([Choice(Some("tool_calls"), Delta(None, []))], None);
    var c4 := Chunk([], Some(Usage(10, 5)));
    FinishingChunk(tools, rt, d, result);
    assert [c3, c4][1..] == [c4] && [c4][1..] == [];
    assert Translate(s, [c4], tools, rt) == Step(s, [Finish("tool-calls", 10, 5)], None);
  }

  /**
   * A whole exchange: a text delta, a weather call opened by one fragment and
   * given its arguments by the next, the `tool_calls` finish and the usage
   * chunk yield exactly the text line, the announcement, the result and the
   * summary line, in that order.
   */
  lemma WeatherExchange(weather: Tool, rt: Runtime, args: string, kwargs: map<string, Json>, forecast: Json)
    requires rt.loads(args) == Ok(Object(kwargs))
    requires weather(kwargs) == Ok(forecast)
    ensures var chunks := [
        Chunk([Choice(None, Delta(Some("Hello"), []))], None),
        Chunk([Choice(None, Delta(None, [ToolCallDelta(Some("abc"), Some(FunctionDelta(Some(WeatherToolName), None)))]))], None),
        Chunk([Choice(None, Delta(None, [ToolCallDelta(None, Some(FunctionDelta(None, Some(args))))]))], None),
        Chunk([Choice(Some("tool_calls"), Delta(None, []))], None),
        Chunk([], Some(Usage(10, 5)))];
      Translation(chunks, AvailableTools(weather), rt) == Emitted([
        TextDelta(Some("Hello")),
        ToolCallAnnounced("abc", WeatherToolName, args),
        ToolCallResult("abc", WeatherToolName, args, forecast),
        Finish("tool-calls", 10, 5)], None)
  {
    var tools := AvailableTools(weather);
    var c0 := Chunk([Choice(None, Delta(Some("Hello"), []))], None);
    var c1 := Chunk([Choice(None, Delta(None, [ToolCallDelta(Some("abc"), Some(FunctionDelta(Some(WeatherToolName), None)))]))], None);
    var c2 := Chunk([Choice(None, Delta(None, [ToolCallDelta(None, Some(FunctionDelta(None, Some(args))))]))], None);
    var c3 := Chunk([Choice(Some("tool_calls"), Delta(None, []))], None);
    var c4 := Chunk([], Some(Usage(10, 5)));
    var d := Draft("abc", WeatherToolName, args);
    var s1 := State([Draft("abc", WeatherToolName, "")], 0);
    var s2 := State([d], 0);
    var text := TextDelta(Some("Hello"));
    var announced := ToolCallAnnounced("abc", WeatherToolName, args);
    var result := ToolCallResult("abc", WeatherToolName, args, forecast);
    var finish := Finish("tool-calls", 10, 5);
    assert [c0.choices[0]][1..] == [];
    assert ChunkStep(Initial, c0, tools, rt) == Step(Initial, [text], None);
    OpeningChunk(tools, rt, "abc", WeatherToolName);
    ArgumentChunk(tools, rt, Draft("abc", WeatherToolName, ""), args);
    assert "" + args == args;
    assert Invoke(tools, rt, WeatherToolName, args) == Ok(forecast);
    FinishingTurn(tools, rt, d, forecast);
    assert [c0, c1, c2, c3, c4][1..] == [c1, c2, c3, c4] && [c1, c2, c3, c4][1..] == [c2, c3, c4];
    assert [c2, c3, c4][1..] == [c3, c4];
    assert Translate(s1, [c2, c3, c4], tools, rt) == Step(s2, [announced, result, finish], None);
    assert Translate(Initial, [c1, c2, c3, c4], tools, rt) == Step(s2, [announced, result, finish], None);
    assert Translate(Initial, [c0, c1, c2, c3, c4], tools, rt) == Step(s2, [text, announced, result, finish], None);
  }
}
