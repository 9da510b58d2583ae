/** The conversation log: the message dicts `chat_loop` appends to `messages`. */
module Messages {
  import opened Wrappers
  import opened JsonData

  /** One entry of the log, one constructor per dict shape the loop appends. */
  datatype Msg =
      /** `{"role": "user", "content": query}` */
    | User(content: string)
      /** `{"role": "assistant", "content": text}` */
    | Assistant(content: string)
      /** `{"role": "assistant", "content": None, "tool_calls": [call]}` */
    | AssistantCall(call: Json)
      /** `{"role": "tool", "tool_call_id": id, "content": text}` */
    | ToolTurn(toolCallId: Json, content: string)

  /** What the loop reads out of a tool-call dict before dispatching it. */
  datatype CallParts = CallParts(name: Json, arguments: Json, id: Json)

  /** `call["function"]["name"]`, `call["function"]["arguments"]` and `call["id"]`; `None` when any lookup raises. */
  function CallFields(call: Json): (r: Option<CallParts>)
    ensures r.Some? <==>
      && Get(call, "function").Some?
      && Get(Get(call, "function").value, "name").Some?
      && Get(Get(call, "function").value, "arguments").Some?
      && Get(call, "id").Some?
    ensures r.Some? ==> r.value.name == call.fields["function"].fields["name"]
    ensures r.Some? ==> r.value.arguments == call.fields["function"].fields["arguments"]
    ensures r.Some? ==> r.value.id == call.fields["id"]
  {
    match Get(call, "function")
    case None => None
    case Some(f) =>
      match (Get(f, "name"), Get(f, "arguments"), Get(call, "id"))
      case (Some(n), Some(a), Some(i)) => Some(CallParts(n, a, i))
      case _ => None
  }

  /** The id a tool-call dict carries, when the loop can read one. */
  predicate AnswersCall(call: Json, id: Json) {
    CallFields(call).Some? && CallFields(call).value.id == id
  }

  /**
   * Every `tool` entry directly follows the `assistant` entry holding the call it answers,
   * and carries that call's id.
   */
  ghost predicate WellPaired(log: seq<Msg>) {
    forall i :: 0 <= i < |log| && log[i].ToolTurn? ==>
      0 < i && log[i - 1].AssistantCall? && AnswersCall(log[i - 1].call, log[i].toolCallId)
  }

  /** A well-paired block appended to a well-paired log leaves it well paired. */
  lemma WellPairedAppend(log: seq<Msg>, tail: seq<Msg>)
    requires WellPaired(log)
    requires WellPaired(tail)
    ensures WellPaired(log + tail)
  {
    forall i | 0 <= i < |log + tail| && (log + tail)[i].ToolTurn?
      ensures 0 < i && (log + tail)[i - 1].AssistantCall?
      ensures AnswersCall((log + tail)[i - 1].call, (log + tail)[i].toolCallId)
    {
      if i >= |log| {
        assert tail[i - |log|] == (log + tail)[i];
        assert tail[i - |log| - 1] == (log + tail)[i - 1];
      }
    }
  }
}
