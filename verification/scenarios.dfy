/** Concrete sessions worked through the model: one tool round, and a reply whose null content ends the query. */
module Scenarios {
  import opened Wrappers
  import opened JsonData
  import opened PyStr
  import opened Messages
  import opened Catalog
  import opened Adapter
  import opened ToolResult
  import opened ChatLoop

  const Question: string := "What's the weather in Boston?"
  const Arguments: string := "{\"city\":\"Boston\"}"
  const Forecast: string := "62F, sunny"
  const FinalAnswer: string := "It is 62F and sunny in Boston."

  /** One MCP tool, `get_weather(city)`. */
  const WeatherTool: McpTool := McpTool("get_weather", Some("Get the forecast for a city"),
    JObj(map["type" := JStr("object"), "properties" := JObj(map["city" := JObj(map["type" := JStr("string")])])]))

  /** The call the provider reports, as an SDK object. */
  const WeatherCall: ProviderCall := ObjectCall("c1", "get_weather", Arguments)

  /**
   * A provider that asks for the weather on the first request (with `firstContent` as the reply text)
   * and answers once it sees a result.
   */
  function WeatherProvider(firstContent: Option<string>): (seq<Msg>, Option<seq<ToolDef>>) -> ProviderResponse {
    (msgs: seq<Msg>, tools: Option<seq<ToolDef>>) =>
      if |msgs| == 1 then Completed([ProviderMessage(firstContent, Some([WeatherCall]))])
      else Completed([ProviderMessage(Some(FinalAnswer), None)])
  }

  /** The MCP session returns one `TextContent` item; `json.loads` decodes the one argument string used here. */
  function WeatherOracles(firstContent: Option<string>): Oracles {
    Oracles(
      WeatherProvider(firstContent),
      (name: Json, args: Json) => Some(PList([PObj("TextContent", Some(Forecast))])),
      (s: string) => if s == Arguments then Some(JObj(map["city" := JStr("Boston")])) else None,
      (p: Payload) => None,
      (p: Payload) => "<object>")
  }

  /** The question is not the sentinel and needs no stripping; `quit` is the sentinel. */
  lemma LinesOfSession()
    ensures Strip(Question) == Question && !IsSentinel(Question)
    ensures IsSentinel("quit")
  {
    QuestionIsPlain();
    QuitIsSentinel();
  }

  /** The question neither starts nor ends with whitespace, and it is not four letters long. */
  lemma QuestionIsPlain()
    ensures Strip(Question) == Question && !IsSentinel(Question)
  {
    assert !IsSpace(Question[0]) && !IsSpace(Question[|Question| - 1]);
    StripKeeps(Question);
  }

  /** `quit` strips to itself and is the sentinel. */
  lemma QuitIsSentinel()
    ensures IsSentinel("quit")
  {
    assert !IsSpace('q') && !IsSpace('t');
    StripKeeps("quit");
  }

  /** A lone `quit` line ends the session where it stands. */
  lemma QuitLine(o: Oracles, tools: seq<ToolDef>, log: seq<Msg>)
    ensures Loop(o, tools, log, ["quit"]) == SessionEnd(log, 1, true)
  {
    LinesOfSession();
    LoopStep(o, tools, log, ["quit"]);
  }

  /** The dict the object-form call becomes. */
  function WeatherDict(): Json {
    CanonicalCall("c1", "get_weather", Arguments)
  }

  /** The first request: the reply carries the weather call, normalised to a dict. */
  lemma WeatherFirstReply(first: Option<string>)
    ensures Chat(WeatherOracles(first).llm, [User(Question)], MakeTools([WeatherTool])) == Reply(first, Some([WeatherDict()]))
  {
    var o := WeatherOracles(first);
    var resp := o.llm([User(Question)], ToolsArg(MakeTools([WeatherTool])));
    assert resp == Completed([ProviderMessage(first, Some([WeatherCall]))]);
    assert ToDict(WeatherCall) == Ok(WeatherDict());
    assert [WeatherCall][1..] == [];
    assert ConvertCalls([]) == Ok([]);
    assert [WeatherDict()] + [] == [WeatherDict()];
    assert ConvertCalls([WeatherCall]) == Ok([WeatherDict()]);
  }

  /** The call dict is read back, its arguments parsed and the tool's one text item becomes the result. */
  lemma WeatherDispatch()
    ensures Dispatch(WeatherOracles(Some("")), WeatherDict()) == Some(Dispatched(JStr("c1"), Forecast))
  {
    var o := WeatherOracles(Some(""));
    assert CallFields(WeatherDict()) == Some(CallParts(JStr("get_weather"), JStr(Arguments), JStr("c1")));
    assert o.loads(Arguments).Some?;
    assert Join([Forecast], '\n') == Forecast;
  }

  /** The log after the weather call and its result. */
  function WeatherLog(): seq<Msg> {
    [User(Question), AssistantCall(WeatherDict()), ToolTurn(JStr("c1"), Forecast)]
  }

  /** The follow-up request gets the plain answer. */
  lemma WeatherFollowUp()
    ensures Chat(WeatherOracles(Some("")).llm, WeatherLog(), MakeTools([WeatherTool])) == Reply(Some(FinalAnswer), None)
  {
  }

  /** The `for` loop over the single call. */
  lemma WeatherRunCalls()
    ensures RunCalls(WeatherOracles(Some("")), MakeTools([WeatherTool]), [User(Question)], [WeatherDict()])
      == Progress(WeatherLog() + [Assistant(FinalAnswer)], [WeatherLog()], true)
  {
    WeatherCallOne();
    assert [WeatherDict()][1..] == [];
  }

  /** Everything after the `user` entry of the weather query. */
  lemma WeatherAnswer()
    ensures Answer(WeatherOracles(Some("")), MakeTools([WeatherTool]), [User(Question)])
      == Progress(WeatherLog() + [Assistant(FinalAnswer)], [[User(Question)], WeatherLog()], true)
  {
    WeatherFirstReply(Some(""));
    WeatherRunCalls();
  }

  /** The tool round of the weather query, once the reply text is empty. */
  lemma WeatherQuery()
    ensures ProcessQuery(WeatherOracles(Some("")), MakeTools([WeatherTool]), [], Question)
      == Ran(Progress(WeatherLog() + [Assistant(FinalAnswer)], [[User(Question)], WeatherLog()], true))
  {
    LinesOfSession();
    WeatherAnswer();
    assert [] + [User(Strip(Question))] == [User(Question)];
  }

  /** The one pass of the `for` loop: call, result, follow-up answer. */
  lemma WeatherCallOne()
    ensures CallOne(WeatherOracles(Some("")), MakeTools([WeatherTool]), [User(Question)], WeatherDict())
      == Progress(WeatherLog() + [Assistant(FinalAnswer)], [WeatherLog()], true)
  {
    WeatherDispatch();
    WeatherFollowUp();
    assert [User(Question)] + [AssistantCall(WeatherDict()), ToolTurn(JStr("c1"), Forecast)] == WeatherLog();
  }

  /**
   * With an empty reply text, the query runs its one tool call: the follow-up request sees the query,
   * the call and the result `"62F, sunny"` answering `c1`; then `quit` ends the session.
   */
  lemma WeatherRound()
    ensures Session(WeatherOracles(Some("")), [WeatherTool], [Question, "quit"])
      == SessionEnd([User(Question), AssistantCall(WeatherDict()), ToolTurn(JStr("c1"), Forecast), Assistant(FinalAnswer)], 2, true)
  {
    var o := WeatherOracles(Some(""));
    var tools := MakeTools([WeatherTool]);
    var log := WeatherLog() + [Assistant(FinalAnswer)];
    LinesOfSession();
    WeatherQuery();
    LoopStep(o, tools, [], [Question, "quit"]);
    assert [Question, "quit"][1..] == ["quit"];
    QuitLine(o, tools, log);
  }

  /** The weather query when the reply text is null: printing it raises right after the `user` entry. */
  lemma NullContentQuery()
    ensures ProcessQuery(WeatherOracles(None), MakeTools([WeatherTool]), [], Question)
      == Ran(Progress([User(Question)], [[User(Question)]], false))
  {
    var o := WeatherOracles(None);
    var tools := MakeTools([WeatherTool]);
    LinesOfSession();
    WeatherFirstReply(None);
    QueryShape(o, tools, [], Question);
    assert [] + [User(Strip(Question))] == [User(Question)];
  }

  /**
   * With a null reply text alongside the same call, only the query is logged, the tool is never
   * called, and the next line is still read.
   */
  lemma NullContentSkipsTools()
    ensures Session(WeatherOracles(None), [WeatherTool], [Question, "quit"])
      == SessionEnd([User(Question)], 2, true)
  {
    var o := WeatherOracles(None);
    var tools := MakeTools([WeatherTool]);
    LinesOfSession();
    NullContentQuery();
    LoopStep(o, tools, [], [Question, "quit"]);
    assert [Question, "quit"][1..] == ["quit"];
    QuitLine(o, tools, [User(Question)]);
  }
}
