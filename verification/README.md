# MCP agent client: tool-calling orchestration in Dafny

This project models the core of `mcp-client/agent_client.py`, a console agent. It sends user queries to a
DeepSeek chat model through the OpenAI-compatible API. It offers the model the tools of an MCP (Model
Context Protocol) server, runs the tool calls the model asks for, and keeps an append-only `messages` log
that is replayed to the model on every request.

The model covers five pieces, each a module:

- `Adapter` covers `DeepSeekLLM.chat`. It normalises a provider completion into the reply dict
  `{role, content, tool_calls?}`. Tool calls reported as dicts pass through unchanged. Tool calls
  reported as SDK objects are rebuilt as `{id, type: "function", function: {name, arguments}}`, with
  `arguments` copied, not parsed. An entry that is neither raises on `tc.id`. Any exception becomes
  an error reply with no tool calls.
- `Catalog` covers `_make_tools`. Each MCP tool becomes an OpenAI function definition. The schema
  defaults to `{"type": "object", "properties": {}}` whenever `inputSchema` is falsy.
- `ToolResult` covers the `result.content` fallback chain. A string stays as it is; a `.text` object
  gives its text; a list of `.text` items gives the texts joined by newlines; anything else goes
  through `json.dumps`, or `str` if that raises.
- `Connect` covers the suffix check of `connect_to_server`: `.py` selects `python`, `.js` selects
  `node`, and any other suffix raises `ValueError`.
- `ChatLoop` covers the deepseek branch of `chat_loop`. Each input line is a transition on the log.
  The sentinel (`quit` in any case, after stripping) ends the loop. Any other line appends a `user`
  entry. A reply with no tool calls appends one `assistant` entry. A reply with k tool calls appends
  three entries per call, in order: the call, the tool result, and the follow-up answer. That is one
  provider request per call, so the log grows by 1 + 3k. Tool calls inside a follow-up are ignored.
  An exception stops the query where it is and keeps the entries already appended; the loop then
  reads the next line.

Supporting modules: `Wrappers` (Option and Result), `JsonData` (decoded JSON values, Python
truthiness, dict lookup), `PyStr` (`str.strip`, the `quit` test, `"\n".join` and its inverse
`split`), `Messages` (log entries, reading a tool-call dict, and the pairing invariant), and
`Scenarios` (worked sessions).

Everything the client cannot see is an oracle passed in as a function (`ChatLoop.Oracles`):

- the provider request, `(messages, tools) -> ProviderResponse`, which either returns choices or
  raises with a message;
- MCP `call_tool`;
- `json.loads` and `json.dumps`, both partial (`None` when they raise);
- `str`.

The conversation is deterministic given these oracles. Within one query, `CallOne`, `RunCalls`,
`Answer` and `ProcessQuery` also return every message list handed to the provider (`prompts`), and
`CallOne`, `RunCallsCompleted` and `QueryShape` state them. That is how the model states that each
tool call gets its own follow-up request.

Printing is modelled where it can raise. The code prints `"\n" + content` for the initial reply and
for each follow-up (lines 157 and 212). So a reply whose `content` is `None` raises `TypeError`,
and the outer handler catches it. The model treats this as an aborted query:

- a null initial reply leaves only the `user` entry, even when it carries tool calls, and no tool
  is called (`Scenarios.NullContentSkipsTools`);
- a null follow-up leaves that call's `assistant` and `tool` entries without an answer.

Some behaviours of the code are easy to misread. The model keeps each one as written:

- Each tool call gets its own `{assistant, tool, assistant}` triple. A follow-up request is made
  inside the `for` loop, once per call (lines 161-213). There is no single follow-up for the whole
  batch.
- `json.loads` raising on a call's arguments (line 166) aborts the rest of the query, and no `tool`
  entry is written for that call.
- A null reply `content` stays `None` in the reply (line 45), and printing it raises (line 157).
- The empty-object schema replaces any falsy `inputSchema`, `{}` included (line 122).
- Tool calls that arrive as dicts pass through `chat` unchecked (lines 54-55). A dict without
  `function.name`, `function.arguments` or `id` raises at lines 165-167, and the query is aborted.

## Model

| member | source | states |
|---|---|---|
| `Adapter.ToDict` | mcp-client/agent_client.py:53-65 | a dict entry passes through as that dict. An object entry becomes a dict with `type` "function", from which the loop reads back exactly its name, its unparsed arguments string and its id. Any other entry raises with its own message |
| `Adapter.FirstUnreadable` | mcp-client/agent_client.py:52-65 | the first entry of a batch whose conversion raises; every entry before it converts |
| `Adapter.ConvertCalls` | mcp-client/agent_client.py:51-66 | converts exactly when every entry can be read, giving one dict per call in the same order. Otherwise it raises with the message of the first unreadable entry |
| `Adapter.Normalise` | mcp-client/agent_client.py:41-75 | `tool_calls` is present exactly when the first choice reports a non-empty list whose entries all convert, and then holds one converted entry per call, in order. Otherwise the content is the first choice's content. A raised request, an empty `choices` list or an unconvertible entry gives the prefixed error text and no tool calls |
| `Adapter.Chat` | mcp-client/agent_client.py:32-75 | no exception escapes a request. A failed request gives the prefixed error reply, and a reply never carries an empty `tool_calls` list |
| `Adapter.FailureHasNoCalls` | mcp-client/agent_client.py:70-75 | every way `chat` can fail carries no tool calls, and its content starts with the fixed error prefix |
| `Adapter.ShapesAgree` | mcp-client/agent_client.py:53-65 | an object call and the dict holding the same id, name and arguments normalise to the same entry |
| `Adapter.ObjectCallsReadBack` | mcp-client/agent_client.py:58-66 | over a readable batch, every object call's name, arguments string and id are recovered verbatim by the loop's lookups |
| `JsonData.Truthy` | mcp-client/agent_client.py:122 | the falsy values `None`, `False`, `0`, `""`, `[]` and `{}` are never truthy, and a non-empty dict always is |
| `JsonData.Get` | mcp-client/agent_client.py:165-167 | a lookup succeeds exactly on a dict holding the key, and returns that key's value |
| `Catalog.Parameters` | mcp-client/agent_client.py:122 | the schema sent is always truthy: `inputSchema` itself when truthy, otherwise `{"type": "object", "properties": {}}` |
| `Catalog.ToToolDef` | mcp-client/agent_client.py:117-124 | a `type: "function"` definition with the tool's name and description, and its schema defaulted when falsy |
| `Catalog.MakeTools` | mcp-client/agent_client.py:112-126 | one definition per MCP tool, in listing order, each the provider form of that tool |
| `Catalog.MakeToolsAppend` | mcp-client/agent_client.py:114-126 | the mapping is tool by tool: the catalog of a concatenation is the concatenation of the catalogs |
| `Catalog.ToolsArg` | mcp-client/agent_client.py:37 | an empty catalog is sent as no `tools` argument, and a non-empty one as itself |
| `ToolResult.Texts` | mcp-client/agent_client.py:188 | the texts of a list of text items, one per item, in order |
| `ToolResult.Normalise` | mcp-client/agent_client.py:180-194 | the fallback chain never raises and takes the first rung that applies: a string as it is, an object's `.text`, a list of text items newline-joined, otherwise `json.dumps` or, if that raises, `str` |
| `ToolResult.SerialisersOnlyForFallback` | mcp-client/agent_client.py:181-194 | outside the last rung, the result does not depend on `json.dumps` or `str` at all |
| `ToolResult.EmptyListIsEmptyText` | mcp-client/agent_client.py:186-188 | an empty list counts as a list of text items and becomes the empty string |
| `ToolResult.ListTextRoundTrip` | mcp-client/agent_client.py:186-188 | the joined text of a non-empty list of single-line items splits back into exactly those texts, in order |
| `Connect.EndsWith` | mcp-client/agent_client.py:94-95 | `s.endswith(suffix)` holds exactly when `s` is some stem followed by `suffix` |
| `Connect.ServerCommand` | mcp-client/agent_client.py:94-103 | accepted exactly when the path ends in `.py` or `.js`. `python` is chosen exactly for `.py` and `node` exactly for `.js`, with the path as the only argument. Otherwise the result is the `ValueError` message and no server parameters |
| `Connect.SuffixSelects` | mcp-client/agent_client.py:94-98 | any stem followed by `.py` selects `python`, and followed by `.js` selects `node` |
| `PyStr.LeadingSpaces` | mcp-client/agent_client.py:145 | the count of leading whitespace: all of it is whitespace, and the next character is not |
| `PyStr.TrailingSpaces` | mcp-client/agent_client.py:145 | the count of trailing whitespace: all of it is whitespace, and the character before it is not |
| `PyStr.Strip` | mcp-client/agent_client.py:145 | the query is the slice between the leading and trailing whitespace. Everything cut off is whitespace, and the result neither starts nor ends with whitespace |
| `PyStr.StripIdempotent` | mcp-client/agent_client.py:145 | stripping an already stripped query changes nothing |
| `PyStr.StripKeeps` | mcp-client/agent_client.py:145 | a line that neither starts nor ends with whitespace is logged exactly as typed |
| `PyStr.IsQuit` | mcp-client/agent_client.py:146 | the sentinel is exactly the four letters `quit` in any mix of case |
| `PyStr.Join` | mcp-client/agent_client.py:188 | no pieces join to the empty string, and one piece joins to itself. With more pieces, the join starts with the first piece and the separator, and is longer than the first piece and the join of the rest together |
| `PyStr.Split` | mcp-client/agent_client.py:188 | at least one piece, and no piece contains the separator |
| `PyStr.SplitJoin` | mcp-client/agent_client.py:188 | joining pieces without separators and splitting again gives back the pieces |
| `PyStr.JoinSplit` | mcp-client/agent_client.py:188 | splitting and joining again gives back the string: the join loses nothing |
| `Messages.CallFields` | mcp-client/agent_client.py:165-167 | the loop's three lookups succeed exactly when the dict has `function.name`, `function.arguments` and `id`, and the values read are exactly `call["function"]["name"]`, `call["function"]["arguments"]` and `call["id"]` |
| `Messages.WellPairedAppend` | mcp-client/agent_client.py:199-208 | appending well-paired entries to a well-paired log keeps every `tool` entry right after the call it answers |
| `ChatLoop.Dispatch` | mcp-client/agent_client.py:163-194 | a call is answered exactly when its lookups, `json.loads` of a string `arguments` and `call_tool` all succeed. The answer carries the call's own id and the fallback chain's text for `call_tool`'s result on the parsed arguments |
| `ChatLoop.CallOne` | mcp-client/agent_client.py:161-213 | a call that cannot be dispatched appends nothing. Otherwise it appends the call entry and then the `tool` entry holding its id and normalised result. The follow-up request sees the log ending in that result, and its content is appended as the answer. When that content is `None`, the call stops after the result |
| `ChatLoop.RunCalls` | mcp-client/agent_client.py:161-213 | the batch only appends to the log |
| `ChatLoop.RunCallsCompleted` | mcp-client/agent_client.py:161-213 | a completed batch of k calls adds exactly 3k entries and makes k follow-up requests. Round i holds call i, its id and normalised result, and the content of the i-th follow-up, which saw the log up to that result |
| `ChatLoop.RunCallsAborted` | mcp-client/agent_client.py:161-213 | a batch that stops keeps the whole rounds before the failing call. Then it holds either nothing of that call, when it could not be dispatched, or its call entry and result, when its follow-up had no content. Later calls never start |
| `ChatLoop.Answer` | mcp-client/agent_client.py:155-216 | answering a query only appends, and its first provider request sees the log ending in the query |
| `ChatLoop.ProcessQuery` | mcp-client/agent_client.py:145-150 | a line ends the loop exactly when it is the sentinel, leaving the log untouched. Any other line appends a `user` entry holding the stripped text, keeps the earlier log, and is the first thing the provider sees |
| `ChatLoop.QueryShape` | mcp-client/agent_client.py:150-216 | after the `user` entry: a null reply adds nothing, and a plain reply adds exactly its content. k tool calls that complete add 3k entries of the completed-batch form, with 1 + k provider requests. A stopped batch has the stopped form |
| `ChatLoop.ProviderFailureAnswers` | mcp-client/agent_client.py:155-216 | a raised provider request is logged as an ordinary answer holding the error text, and the query completes |
| `ChatLoop.CallOnePaired` | mcp-client/agent_client.py:199-208 | one tool call keeps the log well paired, whether or not it completes |
| `ChatLoop.RunCallsPaired` | mcp-client/agent_client.py:161-213 | a batch keeps the log well paired |
| `ChatLoop.QueryPaired` | mcp-client/agent_client.py:145-216 | a query keeps the log well paired |
| `ChatLoop.LoopPaired` | mcp-client/agent_client.py:143-287 | every query of a session keeps the log well paired |
| `ChatLoop.FirstSentinel` | mcp-client/agent_client.py:143-147 | the position of the first sentinel line, where the line is the sentinel: 0 when the first line is one, and otherwise one past its position in the remaining lines |
| `ChatLoop.BeforeFirstSentinel` | mcp-client/agent_client.py:143-147 | no line before the first sentinel is one |
| `ChatLoop.Loop` | mcp-client/agent_client.py:141-287 | the session only appends to the log. It stops exactly at the first sentinel, having consumed it, and otherwise reads every line, aborted queries included |
| `ChatLoop.Session` | mcp-client/agent_client.py:131-147 | the log starts empty: a session whose first line is the sentinel logs nothing, and any other session opens with that line's stripped `user` entry. The session ends exactly at the first sentinel, and no `tool` entry ever appears without the call it answers directly before it |
| `ChatLoop.LoopStopsAtSentinel` | mcp-client/agent_client.py:143-147 | after lines with no sentinel, a sentinel ends the session with the log those lines left, and nothing after it is read |
| `ChatLoop.LoopAppend` | mcp-client/agent_client.py:143-287 | with no sentinel among the first lines, a session is those lines followed by the rest, run from the log they left |
| `Scenarios.WeatherRound` | mcp-client/agent_client.py:143-216 | a weather query with one call `c1` logs the query, the call, the result "62F, sunny" answering `c1`, and the answer. Then `quit` ends the session |
| `Scenarios.NullContentSkipsTools` | mcp-client/agent_client.py:155-157 | a reply with null content and a tool call logs only the query and never calls the tool. The next line is still read |

## Left out

- `DeepSeekLLM.__init__`, the `OpenAI(...)` client and `chat.completions.create` (lines 16-19 and 34-39) are replaced by the provider oracle. The `tools` argument passed to it is modelled (line 37).
- `_init_llm` and `load_dotenv` (lines 12 and 84-91) are ambient configuration. A missing `DEEPSEEK_API_KEY` raises `RuntimeError` before any query is read.
- `connect_to_server` after the suffix check (lines 104-110) is left out: the stdio transport, `ClientSession`, `initialize` and `list_tools`. The listed tools are the `catalog` argument of `ChatLoop.Session`. `cleanup`, `main` and asyncio (lines 289-309) are process plumbing.
- `print`, `input` and `traceback` are console I/O. Input is a sequence of lines. The only effect of printing that is modelled is the `TypeError` raised by `"\n" + None`.
- At end of input, `input()` raises `EOFError`, which the outer handler catches, so the loop repeats forever. The model stops when the lines run out.
- The object branch of the tool-call loop (lines 168-174, with `model_dump`) is not modelled. `chat` has already turned every call into a dict, so that branch cannot run; the model's types rule it out.
- The `openai` branch of `chat_loop` (lines 218-280) is not modelled. `main` always selects deepseek, so it cannot be reached.
- JSON encoding and decoding are not modelled: `json.loads` and `json.dumps` are partial oracles. Decoded numbers are kept as reals, so the int/float distinction is lost.
- `str.lower` is modelled on ASCII letters only. That is exact for the `quit` comparison, because no other character lower-cases to `q`, `u`, `i` or `t`.
- A `.text` attribute is modelled as a string. A non-string `.text` in a list would make the join raise, and that case is not modelled.
- `call_tool` raising is modelled as an aborted query. The shape of MCP's `CallToolResult` beyond `content` is not modelled.
- The message of the exception an unreadable tool-call entry raises is taken as given. Its exact text depends on the entry's Python type.
- `test_tool.py` only builds an external `Tool` object and has no logic of its own.
- `ChatLoop.RunCallsAborted`: does not describe the provider requests of a stopped batch, only its log entries.
