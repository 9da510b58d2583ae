/** The `result.content` fallback chain that turns any tool result into one string. */
module ToolResult {
  import opened Wrappers
  import opened PyStr

  /**
   * The Python value found in `result.content`: a `str`, an object (with a `.text` attribute
   * when `text` is present, such as MCP's `TextContent`), or a list of such values.
   */
  datatype Payload =
    | PStr(s: string)
    | PObj(typeName: string, text: Option<string>)
    | PList(items: seq<Payload>)

  /** `hasattr(p, 'text')`. */
  predicate HasText(p: Payload) {
    p.PObj? && p.text.Some?
  }

  /** `all(hasattr(item, 'text') for item in items)`. */
  predicate AllText(items: seq<Payload>) {
    forall i :: 0 <= i < |items| ==> HasText(items[i])
  }

  /** `[item.text for item in items]`. */
  function Texts(items: seq<Payload>): (r: seq<string>)
    requires AllText(items)
    ensures |r| == |items|
    ensures forall i :: 0 <= i < |items| ==> r[i] == items[i].text.value
    decreases |items|
  {
    if |items| == 0 then [] else [items[0].text.value] + Texts(items[1..])
  }

  /** The value reaches the last rung of the chain: not a string, no `.text`, not a list of text items. */
  predicate IsFallback(p: Payload) {
    !p.PStr? && !HasText(p) && !(p.PList? && AllText(p.items))
  }

  /**
   * The chain itself. `dumps` is `json.dumps` (`None` when it raises); `repr` is `str`, which does not raise.
   * The function is total: the chain never raises.
   */
  function Normalise(p: Payload, dumps: Payload -> Option<string>, repr: Payload -> string): (r: string)
    ensures p.PStr? ==> r == p.s
    ensures HasText(p) ==> r == p.text.value
    ensures p.PList? && AllText(p.items) ==> r == Join(Texts(p.items), '\n')
    ensures IsFallback(p) ==> r == dumps(p).GetOr(repr(p))
  {
    if p.PStr? then p.s
    else if HasText(p) then p.text.value
    else if p.PList? && AllText(p.items) then Join(Texts(p.items), '\n')
    else
      match dumps(p)
      case Some(j) => j
      case None => repr(p)
  }

  /** Every result takes exactly one rung: text-bearing shapes never reach the serialisers. */
  lemma SerialisersOnlyForFallback(p: Payload, d1: Payload -> Option<string>, r1: Payload -> string,
                                   d2: Payload -> Option<string>, r2: Payload -> string)
    requires !IsFallback(p)
    ensures Normalise(p, d1, r1) == Normalise(p, d2, r2)
  {
  }

  /** An empty list is a list of text items, so it becomes the empty string, not `"[]"`. */
  lemma EmptyListIsEmptyText(dumps: Payload -> Option<string>, repr: Payload -> string)
    ensures Normalise(PList([]), dumps, repr) == ""
  {
  }

  /** The joined text of a non-empty list of single-line items splits back into those texts, in order. */
  lemma ListTextRoundTrip(items: seq<Payload>, dumps: Payload -> Option<string>, repr: Payload -> string)
    requires |items| > 0
    requires AllText(items)
    requires forall i :: 0 <= i < |items| ==> '\n' !in items[i].text.value
    ensures Split(Normalise(PList(items), dumps, repr), '\n') == Texts(items)
  {
    SplitJoin(Texts(items), '\n');
  }
}
