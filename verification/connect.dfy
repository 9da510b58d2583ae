/** `connect_to_server` up to the transport: which interpreter starts the MCP server script. */
module Connect {
  import opened Wrappers

  /** `s.endswith(suffix)`: `s` is some stem followed by `suffix`. */
  predicate EndsWith(s: string, suffix: string): (r: bool)
    ensures r <==> exists stem :: s == stem + suffix
  {
    TailIsStemSuffix(s, suffix);
    |suffix| <= |s| && s[|s| - |suffix|..] == suffix
  }

  /** The last `|suffix|` characters of `s` are `suffix` exactly when `s` is some stem followed by `suffix`. */
  lemma TailIsStemSuffix(s: string, suffix: string)
    ensures (|suffix| <= |s| && s[|s| - |suffix|..] == suffix) <==> exists stem :: s == stem + suffix
  {
    if |suffix| <= |s| && s[|s| - |suffix|..] == suffix {
      assert s == s[..|s| - |suffix|] + suffix;
    }
    forall stem | s == stem + suffix
      ensures |suffix| <= |s| && s[|s| - |suffix|..] == suffix
    {
      assert s[|stem|..] == suffix;
    }
  }

  /** `StdioServerParameters(command=..., args=[path], env=None)`. */
  datatype ServerParams = ServerParams(command: string, args: seq<string>)

  /** The message of the `ValueError` raised for any other suffix. */
  const BadSuffix: string := "Server script must be a .py or .js file"

  /**
   * The suffix check: `.py` runs under `python`, `.js` under `node`, and anything else raises
   * before a transport exists.
   */
  function ServerCommand(path: string): (r: Result<ServerParams>)
    ensures r.Ok? <==> EndsWith(path, ".py") || EndsWith(path, ".js")
    ensures r.Ok? ==> r.value.args == [path]
    ensures r.Ok? ==> (r.value.command == "python" <==> EndsWith(path, ".py"))
    ensures r.Ok? ==> (r.value.command == "node" <==> EndsWith(path, ".js"))
    ensures r.Err? ==> r.message == BadSuffix
  {
    var isPython := EndsWith(path, ".py");
    var isJs := EndsWith(path, ".js");
    if !(isPython || isJs) then Err(BadSuffix)
    else Ok(ServerParams(if isPython then "python" else "node", [path]))
  }

  /** Appending `.py` or `.js` to any path selects the matching interpreter. */
  lemma SuffixSelects(stem: string)
    ensures ServerCommand(stem + ".py") == Ok(ServerParams("python", [stem + ".py"]))
    ensures ServerCommand(stem + ".js") == Ok(ServerParams("node", [stem + ".js"]))
  {
    assert (stem + ".py")[|stem|..] == ".py";
    assert (stem + ".js")[|stem|..] == ".js";
  }
}
