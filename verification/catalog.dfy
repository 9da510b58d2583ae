/** `_make_tools`: MCP tool descriptors turned into OpenAI function definitions. */
module Catalog {
  import opened Wrappers
  import opened JsonData

  /** An MCP tool as listed by the session: `name`, optional `description`, `inputSchema`. */
  datatype McpTool = McpTool(name: string, description: Option<string>, inputSchema: Json)

  /** The `"function"` part of an OpenAI tool definition. */
  datatype FunctionDef = FunctionDef(name: string, description: Option<string>, parameters: Json)

  /** `{"type": kind, "function": fn}` as sent to the provider. */
  datatype ToolDef = ToolDef(kind: string, fn: FunctionDef)

  /** `{"type": "object", "properties": {}}`, the schema of a tool without parameters. */
  const EmptyObjectSchema: Json := JObj(map["type" := JStr("object"), "properties" := JObj(map[])])

  /** `inputSchema or {"type": "object", "properties": {}}`. */
  function Parameters(schema: Json): (r: Json)
    ensures Truthy(r)
    ensures Truthy(schema) ==> r == schema
    ensures !Truthy(schema) ==> r == EmptyObjectSchema
  {
    if Truthy(schema) then schema else EmptyObjectSchema
  }

  /** One descriptor in provider form. */
  function ToToolDef(t: McpTool): (r: ToolDef)
    ensures r.kind == "function"
    ensures r.fn.name == t.name && r.fn.description == t.description
    ensures Truthy(r.fn.parameters)
    ensures Truthy(t.inputSchema) ==> r.fn.parameters == t.inputSchema
    ensures !Truthy(t.inputSchema) ==> r.fn.parameters == EmptyObjectSchema
  {
    ToolDef("function", FunctionDef(t.name, t.description, Parameters(t.inputSchema)))
  }

  /** The whole catalog, one definition per MCP tool, in listing order. */
  function MakeTools(tools: seq<McpTool>): (r: seq<ToolDef>)
    ensures |r| == |tools|
    ensures forall i :: 0 <= i < |tools| ==> r[i] == ToToolDef(tools[i])
    decreases |tools|
  {
    if |tools| == 0 then [] else [ToToolDef(tools[0])] + MakeTools(tools[1..])
  }

  /** The mapping works tool by tool: the catalog of a concatenation is the concatenation of catalogs. */
  lemma MakeToolsAppend(a: seq<McpTool>, b: seq<McpTool>)
    ensures MakeTools(a + b) == MakeTools(a) + MakeTools(b)
  {
    var whole, parts := MakeTools(a + b), MakeTools(a) + MakeTools(b);
    forall i | 0 <= i < |a| + |b|
      ensures whole[i] == parts[i]
    {
      if i < |a| {
        assert (a + b)[i] == a[i];
      } else {
        assert (a + b)[i] == b[i - |a|];
      }
    }
  }

  /** `tools if tools else None`: an empty catalog is sent as no `tools` argument at all. */
  function ToolsArg(tools: seq<ToolDef>): (r: Option<seq<ToolDef>>)
    ensures r.None? <==> |tools| == 0
    ensures r.Some? ==> r.value == tools
  {
    if |tools| == 0 then None else Some(tools)
  }
}
