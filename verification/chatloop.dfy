/** The deepseek branch of `chat_loop`: how each query extends the `messages` log. */
module ChatLoop {
  import opened Wrappers
  import opened JsonData
  import opened PyStr
  import opened Messages
  import opened Catalog
  import opened Adapter
  import opened ToolResult

  /**
   * Everything the loop cannot see: the provider request, the MCP `call_tool` (`None` when it raises),
   * `json.loads` and `json.dumps` (`None` when they raise) and `str`.
   */
  datatype Oracles = Oracles(
    llm: (seq<Msg>, Option<seq<ToolDef>>) -> ProviderResponse,
    callTool: (Json, Json) -> Option<Payload>,
    loads: string -> Option<Json>,
    dumps: Payload -> Option<string>,
    repr: Payload -> string)

  /**
   * The log after some work, every message list handed to the provider on the way (in order),
   * and whether the work ran to its end (`false`: an exception reached the outer handler).
   */
  datatype Progress = Progress(log: seq<Msg>, prompts: seq<seq<Msg>>, ok: bool)

  /** One iteration of `while True`: the sentinel ends the loop, anything else runs a query. */
  datatype QueryOutcome = Quit | Ran(progress: Progress)

  /** What answering one tool call produces before anything is appended: the id to answer and the result text. */
  datatype Dispatched = Dispatched(id: Json, content: string)

  /**
   * Read the call dict, parse its arguments, call the tool and normalise the result.
   * `None` when a lookup, `json.loads` or `call_tool` raises.
   */
  function Dispatch(o: Oracles, call: Json): (r: Option<Dispatched>)
    ensures r.Some? ==> AnswersCall(call, r.value.id)
    ensures r.Some? <==>
      && CallFields(call).Some?
      && CallFields(call).value.arguments.JStr?
      && o.loads(CallFields(call).value.arguments.s).Some?
      && o.callTool(CallFields(call).value.name, o.loads(CallFields(call).value.arguments.s).value).Some?
    ensures r.Some? ==> r.value.content == ToolResult.Normalise(
      o.callTool(CallFields(call).value.name, o.loads(CallFields(call).value.arguments.s).value).value, o.dumps, o.repr)
  {
    match CallFields(call)
    case None => None
    case Some(parts) =>
      if !parts.arguments.JStr? then None
      else
        match o.loads(parts.arguments.s)
        case None => None
        case Some(args) =>
          match o.callTool(parts.name, args)
          case None => None
          case Some(payload) => Some(Dispatched(parts.id, ToolResult.Normalise(payload, o.dumps, o.repr)))
  }

  /**
   * One pass of `for tool_call in response["tool_calls"]`: append the call and its result, ask the
   * provider again, then append its answer. A follow-up without content raises in `print`.
   */
  function CallOne(o: Oracles, tools: seq<ToolDef>, log: seq<Msg>, call: Json): (r: Progress)
    ensures log <= r.log
    ensures r.ok ==> |r.log| == |log| + 3 && |r.prompts| == 1
    ensures !r.ok ==> |r.log| == |log| || |r.log| == |log| + 2
    ensures |r.log| == |log| <==> Dispatch(o, call).None?
    ensures |r.log| == |log| ==> r.prompts == [] && !r.ok
    ensures |r.log| > |log| ==>
      && ResultAt(o, r.log, |log|, call)
      && AnswersCall(call, r.log[|log| + 1].toolCallId)
      && r.prompts == [r.log[..|log| + 2]]
    ensures r.ok ==> RoundAt(o, tools, r.log, |log|, call)
    ensures !r.ok && |r.log| > |log| ==> PartialRoundAt(o, tools, r.log, |log|, call)
  {
    match Dispatch(o, call)
    case None => Progress(log, [], false)
    case Some(d) =>
      var log2 := log + [AssistantCall(call), ToolTurn(d.id, d.content)];
      assert log2[..|log| + 2] == log2;
      var followUp := Chat(o.llm, log2, tools);
      match followUp.content
      case None => Progress(log2, [log2], false)
      case Some(text) => Progress(log2 + [Assistant(text)], [log2], true)
  }

  /** The whole `for` loop: calls in order, each followed by its own provider request; the first failure stops the rest. */
  function RunCalls(o: Oracles, tools: seq<ToolDef>, log: seq<Msg>, calls: seq<Json>): (r: Progress)
    ensures log <= r.log
    decreases |calls|
  {
    if |calls| == 0 then Progress(log, [], true)
    else
      var first := CallOne(o, tools, log, calls[0]);
      if !first.ok then first
      else
        var rest := RunCalls(o, tools, first.log, calls[1..]);
        Progress(rest.log, first.prompts + rest.prompts, rest.ok)
  }

  /**
   * Everything after the `user` entry: ask the provider, print its reply (raising on `None` content),
   * then either append the answer or run the tool calls. The initial reply itself is never appended
   * when it carries tool calls.
   */
  function Answer(o: Oracles, tools: seq<ToolDef>, log1: seq<Msg>): (r: Progress)
    ensures log1 <= r.log
    ensures |r.prompts| > 0 && r.prompts[0] == log1
  {
    var reply := Chat(o.llm, log1, tools);
    match reply.content
    case None => Progress(log1, [log1], false)
    case Some(text) =>
      match reply.toolCalls
      case None => Progress(log1 + [Assistant(text)], [log1], true)
      case Some(calls) =>
        var rest := RunCalls(o, tools, log1, calls);
        Progress(rest.log, [log1] + rest.prompts, rest.ok)
  }

  /** One iteration of `while True` for the raw input line `raw`: strip, test for the sentinel, append the query, answer. */
  function ProcessQuery(o: Oracles, tools: seq<ToolDef>, log: seq<Msg>, raw: string): (r: QueryOutcome)
    ensures r.Quit? <==> IsSentinel(raw)
    ensures r.Ran? ==>
      && log <= r.progress.log
      && |log| < |r.progress.log|
      && r.progress.log[|log|] == User(Strip(raw))
      && |r.progress.prompts| > 0
      && r.progress.prompts[0] == log + [User(Strip(raw))]
  {
    var query := Strip(raw);
    if IsQuit(query) then Quit
    else
      var log1 := log + [User(query)];
      var p := Answer(o, tools, log1);
      assert p.log[|log|] == p.log[..|log1|][|log|];
      Ran(p)
  }

  /** `input().strip().lower() == 'quit'`: the line that ends the session. */
  predicate IsSentinel(raw: string) {
    IsQuit(Strip(raw))
  }

  /** The position of the first element satisfying `p`, or the length when there is none. */
  function FirstWhere<T>(s: seq<T>, p: T -> bool): (r: nat)
    ensures r <= |s|
    ensures r < |s| ==> p(s[r])
    decreases |s|
  {
    if |s| == 0 then 0
    else if p(s[0]) then 0
    else 1 + FirstWhere(s[1..], p)
  }

  /** The position of the first sentinel line, or the number of lines when there is none. */
  function FirstSentinel(queries: seq<string>): (r: nat)
    ensures r <= |queries|
    ensures r < |queries| ==> IsSentinel(queries[r])
    ensures |queries| > 0 ==> r == if IsSentinel(queries[0]) then 0 else 1 + FirstSentinel(queries[1..])
  {
    FirstWhere(queries, IsSentinel)
  }

  /** No element before the first one satisfying `p` satisfies it. */
  lemma {:induction false} BeforeFirstWhere<T>(s: seq<T>, p: T -> bool, i: nat)
    requires i < FirstWhere(s, p)
    ensures !p(s[i])
    decreases i
  {
    if i > 0 {
      BeforeFirstWhere(s[1..], p, i - 1);
      assert s[1..][i - 1] == s[i];
    }
  }

  /** No line before the first sentinel is one. */
  lemma BeforeFirstSentinel(queries: seq<string>, i: nat)
    requires i < FirstSentinel(queries)
    ensures !IsSentinel(queries[i])
  {
    BeforeFirstWhere(queries, IsSentinel, i);
  }

  /** The log when input ends or the sentinel is read, and how many input lines were consumed. */
  datatype SessionEnd = SessionEnd(log: seq<Msg>, consumed: nat, quit: bool)

  /**
   * `while True` over the input lines. Only the sentinel stops it: an aborted query is reported
   * and the next line is read.
   */
  function Loop(o: Oracles, tools: seq<ToolDef>, log: seq<Msg>, queries: seq<string>): (r: SessionEnd)
    ensures log <= r.log
    ensures r.quit <==> FirstSentinel(queries) < |queries|
    ensures r.consumed == if r.quit then FirstSentinel(queries) + 1 else |queries|
    decreases |queries|
  {
    if |queries| == 0 then SessionEnd(log, 0, false)
    else
      match ProcessQuery(o, tools, log, queries[0])
      case Quit => SessionEnd(log, 1, true)
      case Ran(p) =>
        var rest := Loop(o, tools, p.log, queries[1..]);
        SessionEnd(rest.log, rest.consumed + 1, rest.quit)
  }

  /** One line of input read by the loop: the sentinel stops it, any other line is run and the loop goes on. */
  lemma LoopStep(o: Oracles, tools: seq<ToolDef>, log: seq<Msg>, queries: seq<string>)
    requires |queries| > 0
    ensures IsSentinel(queries[0]) ==> Loop(o, tools, log, queries) == SessionEnd(log, 1, true)
    ensures !IsSentinel(queries[0]) ==>
      var e := Loop(o, tools, ProcessQuery(o, tools, log, queries[0]).progress.log, queries[1..]);
      Loop(o, tools, log, queries) == SessionEnd(e.log, e.consumed + 1, e.quit)
  {
  }

  /**
   * A session: the log starts empty, so a session that stops on its first line logs nothing and
   * otherwise opens with that line's `user` entry. It ends exactly at the first sentinel, and no
   * `tool` entry ever appears without the call it answers right before it.
   */
  function Session(o: Oracles, catalog: seq<McpTool>, queries: seq<string>): (r: SessionEnd)
    ensures r.quit <==> FirstSentinel(queries) < |queries|
    ensures r.consumed == if r.quit then FirstSentinel(queries) + 1 else |queries|
    ensures FirstSentinel(queries) == 0 ==> r.log == []
    ensures FirstSentinel(queries) > 0 ==> |r.log| > 0 && r.log[0] == User(Strip(queries[0]))
    ensures WellPaired(r.log)
  {
    LoopPaired(o, MakeTools(catalog), [], queries);
    Loop(o, MakeTools(catalog), [], queries)
  }

  /** The call entry at `at`, and at `at + 1` the `tool` entry holding that call's id and normalised result. */
  predicate ResultAt(o: Oracles, l: seq<Msg>, at: nat, call: Json) {
    && at + 2 <= |l|
    && l[at] == AssistantCall(call)
    && Dispatch(o, call).Some?
    && l[at + 1] == ToolTurn(Dispatch(o, call).value.id, Dispatch(o, call).value.content)
  }

  /**
   * The three entries one completed tool call leaves at position `at`: the call, its result, and the
   * content of the follow-up reply to the log up to that result.
   */
  predicate RoundAt(o: Oracles, tools: seq<ToolDef>, l: seq<Msg>, at: nat, call: Json) {
    && at + 3 <= |l|
    && ResultAt(o, l, at, call)
    && Chat(o.llm, l[..at + 2], tools).content.Some?
    && l[at + 2] == Assistant(Chat(o.llm, l[..at + 2], tools).content.value)
  }

  /** What a call whose follow-up had no content leaves at position `at`: the call and its result, as the last entries. */
  predicate PartialRoundAt(o: Oracles, tools: seq<ToolDef>, l: seq<Msg>, at: nat, call: Json) {
    && at + 2 == |l|
    && ResultAt(o, l, at, call)
    && Chat(o.llm, l, tools).content.None?
  }

  /** The first `n` calls each left a complete round, back to back from position `base`. */
  predicate CompletedRounds(o: Oracles, tools: seq<ToolDef>, l: seq<Msg>, base: nat, calls: seq<Json>, n: nat) {
    && n <= |calls|
    && base + 3 * n <= |l|
    && forall i :: 0 <= i < n ==> RoundAt(o, tools, l, base + 3 * i, calls[i])
  }

  /** A round survives appending more entries. */
  lemma RoundAtExtends(o: Oracles, tools: seq<ToolDef>, l: seq<Msg>, m: seq<Msg>, at: nat, call: Json)
    requires l <= m
    requires RoundAt(o, tools, l, at, call)
    ensures RoundAt(o, tools, m, at, call)
  {
    assert m[at] == l[at] && m[at + 1] == l[at + 1] && m[at + 2] == l[at + 2];
    assert m[..at + 2] == l[..at + 2];
  }

  /** Rounds laid end to end: one round at `base` followed by `n` rounds from `base + 3` is `n + 1` rounds from `base`. */
  lemma ConsRounds(o: Oracles, tools: seq<ToolDef>, l: seq<Msg>, base: nat, calls: seq<Json>, n: nat)
    requires |calls| > 0
    requires RoundAt(o, tools, l, base, calls[0])
    requires CompletedRounds(o, tools, l, base + 3, calls[1..], n)
    ensures CompletedRounds(o, tools, l, base, calls, n + 1)
  {
    forall i | 1 <= i < n + 1
      ensures RoundAt(o, tools, l, base + 3 * i, calls[i])
    {
      assert calls[1..][i - 1] == calls[i];
      assert base + 3 + 3 * (i - 1) == base + 3 * i;
    }
  }

  /** The prompts of a first call and of the rest, laid end to end. */
  lemma ConsPrompts(l: seq<Msg>, base: nat, first: seq<seq<Msg>>, rest: seq<seq<Msg>>, k: nat)
    requires base + 3 * k + 2 <= |l|
    requires first == [l[..base + 2]]
    requires |rest| == k
    requires forall i :: 0 <= i < k ==> rest[i] == l[..base + 3 + 3 * i + 2]
    ensures |first + rest| == k + 1
    ensures forall i :: 0 <= i < k + 1 ==> (first + rest)[i] == l[..base + 3 * i + 2]
  {
    forall i | 1 <= i < k + 1
      ensures (first + rest)[i] == l[..base + 3 * i + 2]
    {
      assert (first + rest)[i] == rest[i - 1];
      assert base + 3 + 3 * (i - 1) + 2 == base + 3 * i + 2;
    }
  }

  /** `RunCalls` on a non-empty batch whose first call completes. */
  lemma RunCallsStep(o: Oracles, tools: seq<ToolDef>, log: seq<Msg>, calls: seq<Json>)
    requires |calls| > 0
    requires CallOne(o, tools, log, calls[0]).ok
    ensures var first := CallOne(o, tools, log, calls[0]);
      var rest := RunCalls(o, tools, first.log, calls[1..]);
      && RunCalls(o, tools, log, calls) == Progress(rest.log, first.prompts + rest.prompts, rest.ok)
      && |first.log| == |log| + 3
      && RoundAt(o, tools, first.log, |log|, calls[0])
      && first.prompts == [first.log[..|log| + 2]]
      && first.log <= rest.log
  {
  }

  /**
   * A batch that ran to its end from `log`: three entries per call, in call order, and one provider
   * request per call, each with the log ending in that call's result.
   */
  predicate CompletedBatch(o: Oracles, tools: seq<ToolDef>, r: Progress, log: seq<Msg>, calls: seq<Json>) {
    && |r.log| == |log| + 3 * |calls|
    && CompletedRounds(o, tools, r.log, |log|, calls, |calls|)
    && |r.prompts| == |calls|
    && forall i :: 0 <= i < |calls| ==> r.prompts[i] == r.log[..|log| + 3 * i + 2]
  }

  /** A completed first call in front of a completed rest of the batch is a completed batch. */
  lemma ConsCompleted(o: Oracles, tools: seq<ToolDef>, log: seq<Msg>, first: Progress, rest: Progress, calls: seq<Json>)
    requires |calls| > 0
    requires |first.log| == |log| + 3
    requires RoundAt(o, tools, first.log, |log|, calls[0])
    requires first.prompts == [first.log[..|log| + 2]]
    requires first.log <= rest.log
    requires CompletedBatch(o, tools, rest, first.log, calls[1..])
    ensures CompletedBatch(o, tools, Progress(rest.log, first.prompts + rest.prompts, rest.ok), log, calls)
  {
    RoundAtExtends(o, tools, first.log, rest.log, |log|, calls[0]);
    ConsRounds(o, tools, rest.log, |log|, calls, |calls| - 1);
    assert first.log == rest.log[..|first.log|];
    assert rest.log[..|log| + 2] == rest.log[..|first.log|][..|log| + 2];
    ConsPrompts(rest.log, |log|, first.prompts, rest.prompts, |calls| - 1);
  }

  /**
   * A batch that runs to its end adds exactly three entries per call, in call order, and asks the
   * provider once per call, each time with the log ending in that call's result.
   */
  lemma {:induction false} RunCallsCompleted(o: Oracles, tools: seq<ToolDef>, log: seq<Msg>, calls: seq<Json>)
    requires RunCalls(o, tools, log, calls).ok
    ensures CompletedBatch(o, tools, RunCalls(o, tools, log, calls), log, calls)
    decreases |calls|
  {
    if |calls| > 0 {
      var first := CallOne(o, tools, log, calls[0]);
      assert first.ok;
      RunCallsStep(o, tools, log, calls);
      var rest := RunCalls(o, tools, first.log, calls[1..]);
      RunCallsCompleted(o, tools, first.log, calls[1..]);
      ConsCompleted(o, tools, log, first, rest, calls);
    }
  }

  /**
   * The entries a batch that stopped early leaves from `base`: the rounds completed before the failing
   * call, then either nothing of that call (it could not be dispatched) or its call and result
   * entries (its follow-up reply had no content).
   */
  predicate StoppedShape(o: Oracles, tools: seq<ToolDef>, l: seq<Msg>, base: nat, calls: seq<Json>) {
    var n := (|l| - base) / 3;
    && base <= |l|
    && n < |calls|
    && CompletedRounds(o, tools, l, base, calls, n)
    && ((|l| == base + 3 * n && Dispatch(o, calls[n]).None?) || PartialRoundAt(o, tools, l, base + 3 * n, calls[n]))
  }

  /** A completed round in front of a stopped batch is a stopped batch one call longer. */
  lemma ConsStopped(o: Oracles, tools: seq<ToolDef>, l: seq<Msg>, base: nat, calls: seq<Json>)
    requires |calls| > 0
    requires RoundAt(o, tools, l, base, calls[0])
    requires StoppedShape(o, tools, l, base + 3, calls[1..])
    ensures StoppedShape(o, tools, l, base, calls)
  {
    var m := (|l| - (base + 3)) / 3;
    assert (|l| - base) / 3 == m + 1;
    ConsRounds(o, tools, l, base, calls, m);
    assert calls[1..][m] == calls[m + 1];
    assert base + 3 + 3 * m == base + 3 * (m + 1);
  }

  /**
   * A batch that stops early keeps the rounds completed before the failing call, then either nothing
   * of that call (a lookup, `json.loads` or `call_tool` raised) or its call and result entries
   * (the follow-up had no content); later calls are never started.
   */
  lemma {:induction false} RunCallsAborted(o: Oracles, tools: seq<ToolDef>, log: seq<Msg>, calls: seq<Json>)
    requires !RunCalls(o, tools, log, calls).ok
    ensures StoppedShape(o, tools, RunCalls(o, tools, log, calls).log, |log|, calls)
    decreases |calls|
  {
    var first := CallOne(o, tools, log, calls[0]);
    if first.ok {
      RunCallsStep(o, tools, log, calls);
      var rest := RunCalls(o, tools, first.log, calls[1..]);
      RunCallsAborted(o, tools, first.log, calls[1..]);
      RoundAtExtends(o, tools, first.log, rest.log, |log|, calls[0]);
      ConsStopped(o, tools, rest.log, |log|, calls);
    } else {
      assert RunCalls(o, tools, log, calls) == first;
      assert (|first.log| == |log| && Dispatch(o, calls[0]).None?) || PartialRoundAt(o, tools, first.log, |log|, calls[0]);
    }
  }

  /**
   * The shape of one query that is not the sentinel: the `user` entry, then
   * - nothing more when the reply has no content (printing it raises);
   * - the answer when the reply has content and no tool calls;
   * - three entries per tool call, and one provider request per call, when the batch completes:
   *   the log grows by 1 + 3k, and the initial reply is not in it;
   * - the rounds completed so far, and at most the call and result of the failing one, when it stops early.
   */
  lemma QueryShape(o: Oracles, tools: seq<ToolDef>, log: seq<Msg>, raw: string)
    requires !IsSentinel(raw)
    ensures var log1 := log + [User(Strip(raw))];
      var reply := Chat(o.llm, log1, tools);
      var r := ProcessQuery(o, tools, log, raw).progress;
      && (reply.content.None? ==> r == Progress(log1, [log1], false))
      && (reply.content.Some? && reply.toolCalls.None? ==>
            r == Progress(log1 + [Assistant(reply.content.value)], [log1], true))
      && (reply.content.Some? && reply.toolCalls.Some? && r.ok ==>
            && r.prompts[0] == log1
            && CompletedBatch(o, tools, Progress(r.log, r.prompts[1..], r.ok), log1, reply.toolCalls.value))
      && (reply.content.Some? && reply.toolCalls.Some? && !r.ok ==>
            StoppedShape(o, tools, r.log, |log| + 1, reply.toolCalls.value))
  {
    var log1 := log + [User(Strip(raw))];
    var reply := Chat(o.llm, log1, tools);
    if reply.content.Some? && reply.toolCalls.Some? {
      if RunCalls(o, tools, log1, reply.toolCalls.value).ok {
        RunCallsCompleted(o, tools, log1, reply.toolCalls.value);
      } else {
        RunCallsAborted(o, tools, log1, reply.toolCalls.value);
      }
    }
  }

  /**
   * When the provider request raises, the error text is logged as an ordinary answer and the query
   * completes: no tool runs and nothing propagates to the loop.
   */
  lemma ProviderFailureAnswers(o: Oracles, tools: seq<ToolDef>, log: seq<Msg>, raw: string)
    requires !IsSentinel(raw)
    requires o.llm(log + [User(Strip(raw))], ToolsArg(tools)).Raised?
    ensures var log1 := log + [User(Strip(raw))];
      var e := o.llm(log1, ToolsArg(tools)).error;
      ProcessQuery(o, tools, log, raw) == Ran(Progress(log1 + [Assistant(ErrorPrefix + e)], [log1], true))
  {
    QueryShape(o, tools, log, raw);
  }

  /** One tool call keeps the log well paired, whether it completes or not. */
  lemma CallOnePaired(o: Oracles, tools: seq<ToolDef>, log: seq<Msg>, call: Json)
    requires WellPaired(log)
    ensures WellPaired(CallOne(o, tools, log, call).log)
  {
    var r := CallOne(o, tools, log, call);
    if |r.log| > |log| {
      var tail := r.log[|log|..];
      assert r.log == log + tail;
      assert tail[0] == AssistantCall(call);
      assert tail[1] == r.log[|log| + 1];
      WellPairedAppend(log, tail);
    }
  }

  /** A batch of tool calls keeps the log well paired. */
  lemma {:induction false} RunCallsPaired(o: Oracles, tools: seq<ToolDef>, log: seq<Msg>, calls: seq<Json>)
    requires WellPaired(log)
    ensures WellPaired(RunCalls(o, tools, log, calls).log)
    decreases |calls|
  {
    if |calls| > 0 {
      var first := CallOne(o, tools, log, calls[0]);
      CallOnePaired(o, tools, log, calls[0]);
      if first.ok {
        RunCallsPaired(o, tools, first.log, calls[1..]);
      }
    }
  }

  /** A query keeps the log well paired: every `tool` entry answers the call just before it. */
  lemma QueryPaired(o: Oracles, tools: seq<ToolDef>, log: seq<Msg>, raw: string)
    requires WellPaired(log)
    requires !IsSentinel(raw)
    ensures WellPaired(ProcessQuery(o, tools, log, raw).progress.log)
  {
    var log1 := log + [User(Strip(raw))];
    WellPairedAppend(log, [User(Strip(raw))]);
    var reply := Chat(o.llm, log1, tools);
    if reply.content.Some? {
      if reply.toolCalls.Some? {
        RunCallsPaired(o, tools, log1, reply.toolCalls.value);
      } else {
        WellPairedAppend(log1, [Assistant(reply.content.value)]);
      }
    }
  }

  /** Every query of a session keeps the log well paired. */
  lemma {:induction false} LoopPaired(o: Oracles, tools: seq<ToolDef>, log: seq<Msg>, queries: seq<string>)
    requires WellPaired(log)
    ensures WellPaired(Loop(o, tools, log, queries).log)
    decreases |queries|
  {
    if |queries| > 0 && !IsSentinel(queries[0]) {
      QueryPaired(o, tools, log, queries[0]);
      LoopPaired(o, tools, ProcessQuery(o, tools, log, queries[0]).progress.log, queries[1..]);
    }
  }

  /** Lines without a sentinel start with a line that is not one, and the rest has none either. */
  lemma NoSentinelHead(a: seq<string>)
    requires |a| > 0
    requires FirstSentinel(a) == |a|
    ensures !IsSentinel(a[0])
    ensures FirstSentinel(a[1..]) == |a[1..]|
  {
    assert FirstSentinel(a) == 1 + FirstSentinel(a[1..]);
  }

  /** A non-empty sequence is its head in front of its tail, also when more follows. */
  lemma SplitHead<T>(a: seq<T>, b: seq<T>)
    requires |a| > 0
    ensures a == [a[0]] + a[1..]
    ensures a + b == [a[0]] + (a[1..] + b)
  {
  }

  /** Where the line `q` sits between `a` and `b`, seen from the front of `a`. */
  lemma SplitAround<T>(a: seq<T>, q: T, b: seq<T>)
    ensures |a| == 0 ==> a + [q] + b == [q] + b
    ensures |a| > 0 ==> a == [a[0]] + a[1..] && a + [q] + b == [a[0]] + (a[1..] + [q] + b)
  {
    if |a| > 0 {
      assert a + [q] + b == [a[0]] + (a[1..] + [q] + b);
    }
  }

  /** A line that is not the sentinel runs one query, and the session goes on from the log it left. */
  lemma LoopCons(o: Oracles, tools: seq<ToolDef>, log: seq<Msg>, q: string, rest: seq<string>)
    requires !IsSentinel(q)
    ensures var next := ProcessQuery(o, tools, log, q).progress.log;
      && Loop(o, tools, log, [q] + rest).log == Loop(o, tools, next, rest).log
      && Loop(o, tools, log, [q] + rest).quit == Loop(o, tools, next, rest).quit
      && Loop(o, tools, log, [q] + rest).consumed == Loop(o, tools, next, rest).consumed + 1
  {
    assert ([q] + rest)[0] == q && ([q] + rest)[1..] == rest;
  }

  /**
   * Running the lines `a` and then `b` is running `a`, then `b` from the log `a` left, as long as
   * `a` holds no sentinel: the session is a fold of the per-query step.
   */
  lemma {:induction false} LoopAppend(o: Oracles, tools: seq<ToolDef>, log: seq<Msg>, a: seq<string>, b: seq<string>)
    requires FirstSentinel(a) == |a|
    ensures Loop(o, tools, log, a + b).log == Loop(o, tools, Loop(o, tools, log, a).log, b).log
    decreases |a|
  {
    if |a| > 0 {
      NoSentinelHead(a);
      var q, rest := a[0], a[1..];
      var next := ProcessQuery(o, tools, log, q).progress.log;
      SplitHead(a, b);
      LoopCons(o, tools, log, q, rest + b);
      LoopCons(o, tools, log, q, rest);
      LoopAppend(o, tools, next, rest, b);
    } else {
      assert a + b == b;
    }
  }

  /**
   * The first sentinel ends the session: whatever follows it is never read, and the log is the one
   * the lines before it left.
   */
  lemma {:induction false} LoopStopsAtSentinel(o: Oracles, tools: seq<ToolDef>, log: seq<Msg>, a: seq<string>, q: string, b: seq<string>)
    requires FirstSentinel(a) == |a|
    requires IsSentinel(q)
    ensures Loop(o, tools, log, a + [q] + b) == SessionEnd(Loop(o, tools, log, a).log, |a| + 1, true)
    decreases |a|
  {
    if |a| > 0 {
      NoSentinelHead(a);
      var p, rest := a[0], a[1..];
      var next := ProcessQuery(o, tools, log, p).progress.log;
      SplitAround(a, q, b);
      LoopCons(o, tools, log, p, rest + [q] + b);
      LoopCons(o, tools, log, p, rest);
      LoopStopsAtSentinel(o, tools, next, rest, q, b);
    } else {
      SplitAround(a, q, b);
      LoopStep(o, tools, log, [q] + b);
    }
  }
}
