/** `DeepSeekLLM.chat`: a provider completion normalised to `{role, content, tool_calls?}`. */
module Adapter {
  import opened Wrappers
  import opened JsonData
  import opened Messages
  import opened Catalog

  /**
   * A tool call as the provider reports it: a dict, an SDK object with `id` and
   * `function.{name, arguments}`, or a value that is neither, on which reading `tc.id` or
   * `tc.function` raises with the message `error`.
   */
  datatype ProviderCall =
    | DictCall(fields: map<string, Json>)
    | ObjectCall(id: string, name: string, arguments: string)
    | Unreadable(error: string)

  /** `response.choices[i].message`: `content` may be `None`; `tool_calls` may be missing, `None` or a list. */
  datatype ProviderMessage = ProviderMessage(content: Option<string>, toolCalls: Option<seq<ProviderCall>>)

  /** What `chat.completions.create` does: return choices, or raise with the given `str(e)`. */
  datatype ProviderResponse =
    | Completed(choices: seq<ProviderMessage>)
    | Raised(error: string)

  /** The normalised reply; `role` is always `assistant`, and `toolCalls` is `None` when the key is absent. */
  datatype Reply = Reply(content: Option<string>, toolCalls: Option<seq<Json>>)

  /** The text put before `str(e)` when the call fails. */
  const ErrorPrefix: string := "抱歉，调用 DeepSeek API 时出错: "

  /** `str(e)` of the `IndexError` that `response.choices[0]` raises on an empty list. */
  const IndexErrorText: string := "list index out of range"

  /** The fields of `{"id": id, "type": "function", "function": {"name": name, "arguments": arguments}}`. */
  function CanonicalFields(id: string, name: string, arguments: string): map<string, Json> {
    map[
      "id" := JStr(id),
      "type" := JStr("function"),
      "function" := JObj(map["name" := JStr(name), "arguments" := JStr(arguments)])
    ]
  }

  /** The dict an object call is rebuilt as. */
  function CanonicalCall(id: string, name: string, arguments: string): Json {
    JObj(CanonicalFields(id, name, arguments))
  }

  /**
   * One provider tool call as a dict: a dict passes through unchanged; an object is rebuilt with
   * `type: "function"` and its `arguments` string copied, not parsed; anything else raises.
   */
  function ToDict(c: ProviderCall): (r: Result<Json>)
    ensures r.Err? <==> c.Unreadable?
    ensures c.DictCall? ==> r == Ok(JObj(c.fields))
    ensures c.ObjectCall? ==>
      && r.Ok?
      && Get(r.value, "type") == Some(JStr("function"))
      && CallFields(r.value) == Some(CallParts(JStr(c.name), JStr(c.arguments), JStr(c.id)))
    ensures c.Unreadable? ==> r.message == c.error
  {
    match c
    case DictCall(fields) => Ok(JObj(fields))
    case ObjectCall(id, name, arguments) => Ok(CanonicalCall(id, name, arguments))
    case Unreadable(e) => Err(e)
  }

  /** No entry of the batch raises when it is read. */
  predicate AllReadable(cs: seq<ProviderCall>) {
    forall i :: 0 <= i < |cs| ==> !cs[i].Unreadable?
  }

  /** The position of the first entry that raises when it is read, or the number of entries when there is none. */
  function FirstUnreadable(cs: seq<ProviderCall>): (r: nat)
    ensures r <= |cs|
    ensures r < |cs| ==> cs[r].Unreadable?
    ensures forall i :: 0 <= i < r ==> !cs[i].Unreadable?
    decreases |cs|
  {
    if |cs| == 0 || cs[0].Unreadable? then 0
    else
      var r := 1 + FirstUnreadable(cs[1..]);
      assert forall i :: 1 <= i < r ==> cs[i] == cs[1..][i - 1];
      r
  }

  /**
   * The `for tc in message.tool_calls` loop: one dict per provider call, in order, or the error of
   * the first entry that cannot be read.
   */
  function ConvertCalls(cs: seq<ProviderCall>): (r: Result<seq<Json>>)
    ensures r.Ok? <==> AllReadable(cs)
    ensures r.Ok? ==> |r.value| == |cs|
    ensures r.Ok? ==> forall i :: 0 <= i < |cs| && cs[i].DictCall? ==> r.value[i] == JObj(cs[i].fields)
    ensures r.Ok? ==> forall i :: 0 <= i < |cs| && cs[i].ObjectCall? ==>
      r.value[i] == CanonicalCall(cs[i].id, cs[i].name, cs[i].arguments)
    ensures r.Err? ==> FirstUnreadable(cs) < |cs| && r.message == cs[FirstUnreadable(cs)].error
    decreases |cs|
  {
    if |cs| == 0 then Ok([])
    else
      match ToDict(cs[0])
      case Err(e) => Err(e)
      case Ok(d) =>
        var rest := ConvertCalls(cs[1..]);
        assert forall i :: 1 <= i < |cs| ==> cs[i] == cs[1..][i - 1];
        if rest.Err? then Err(rest.message)
        else
          var out := [d] + rest.value;
          assert forall i :: 1 <= i < |cs| ==> out[i] == rest.value[i - 1];
          Ok(out)
  }

  /** The tool calls the first choice reports, when there is a non-empty list of them. */
  predicate ReportsCalls(resp: ProviderResponse) {
    && resp.Completed?
    && |resp.choices| > 0
    && resp.choices[0].toolCalls.Some?
    && |resp.choices[0].toolCalls.value| > 0
  }

  /** The first choice reports tool calls, and one of them raises while being converted. */
  predicate Unconvertible(resp: ProviderResponse) {
    ReportsCalls(resp) && !AllReadable(resp.choices[0].toolCalls.value)
  }

  /** The body of `chat` after the request: normalise, and turn any raised exception into an error reply. */
  function Normalise(resp: ProviderResponse): (r: Reply)
    ensures r.toolCalls.Some? <==> ReportsCalls(resp) && AllReadable(resp.choices[0].toolCalls.value)
    ensures r.toolCalls.Some? ==>
      && |r.toolCalls.value| == |resp.choices[0].toolCalls.value|
      && forall i :: 0 <= i < |r.toolCalls.value| ==> Ok(r.toolCalls.value[i]) == ToDict(resp.choices[0].toolCalls.value[i])
    ensures resp.Completed? && |resp.choices| > 0 && !Unconvertible(resp) ==> r.content == resp.choices[0].content
    ensures Unconvertible(resp) ==>
      r == Reply(Some(ErrorPrefix + ConvertCalls(resp.choices[0].toolCalls.value).message), None)
    ensures resp.Raised? ==> r == Reply(Some(ErrorPrefix + resp.error), None)
    ensures resp.Completed? && |resp.choices| == 0 ==> r == Reply(Some(ErrorPrefix + IndexErrorText), None)
  {
    match resp
    case Raised(e) => Reply(Some(ErrorPrefix + e), None)
    case Completed(choices) =>
      if |choices| == 0 then Reply(Some(ErrorPrefix + IndexErrorText), None)
      else
        var m := choices[0];
        if m.toolCalls.Some? && |m.toolCalls.value| > 0 then
          match ConvertCalls(m.toolCalls.value)
          case Err(e) => Reply(Some(ErrorPrefix + e), None)
          case Ok(calls) => Reply(m.content, Some(calls))
        else Reply(m.content, None)
  }

  /**
   * `chat(messages, tools=tools)`: one provider request with the whole log, then normalisation.
   * Nothing raises out of it, and a reply never carries an empty `tool_calls` list.
   */
  function Chat(llm: (seq<Msg>, Option<seq<ToolDef>>) -> ProviderResponse, messages: seq<Msg>, tools: seq<ToolDef>): (r: Reply)
    ensures r.toolCalls.Some? ==> |r.toolCalls.value| > 0 && ReportsCalls(llm(messages, ToolsArg(tools)))
    ensures llm(messages, ToolsArg(tools)).Raised? ==>
      r == Reply(Some(ErrorPrefix + llm(messages, ToolsArg(tools)).error), None)
  {
    Normalise(llm(messages, ToolsArg(tools)))
  }

  /** A failed request never carries tool calls, so the loop always takes its plain-answer path on it. */
  lemma FailureHasNoCalls(resp: ProviderResponse)
    requires resp.Raised? || (resp.Completed? && |resp.choices| == 0) || Unconvertible(resp)
    ensures Normalise(resp).toolCalls.None?
    ensures Normalise(resp).content.Some?
    ensures ErrorPrefix <= Normalise(resp).content.value
  {
  }

  /** Both wire shapes of the same call normalise to the same dict. */
  lemma ShapesAgree(id: string, name: string, arguments: string)
    ensures ToDict(ObjectCall(id, name, arguments)) == ToDict(DictCall(CanonicalFields(id, name, arguments)))
  {
  }

  /** The loop reads back exactly the id, name and unparsed arguments of every call the provider sent as an object. */
  lemma {:induction false} ObjectCallsReadBack(cs: seq<ProviderCall>)
    requires AllReadable(cs)
    ensures forall i :: 0 <= i < |cs| && cs[i].ObjectCall? ==>
      CallFields(ConvertCalls(cs).value[i]) == Some(CallParts(JStr(cs[i].name), JStr(cs[i].arguments), JStr(cs[i].id)))
  {
    forall i | 0 <= i < |cs| && cs[i].ObjectCall?
      ensures CallFields(ConvertCalls(cs).value[i]) == Some(CallParts(JStr(cs[i].name), JStr(cs[i].arguments), JStr(cs[i].id)))
    {
      assert Ok(ConvertCalls(cs).value[i]) == ToDict(cs[i]);
    }
  }
}
