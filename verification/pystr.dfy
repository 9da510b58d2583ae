/** The few Python `str` operations the client relies on, written out over `seq<char>`. */
module PyStr {

  /** Python's `str.isspace` for a single character: the characters `str.strip()` removes. */
  predicate IsSpace(c: char) {
    || c == ' '
    || ('\t' <= c <= '\r')
    || ('\U{1c}' <= c <= '\U{1f}')
    || c == '\U{85}'
    || c == '\U{a0}'
    || c == '\U{1680}'
    || ('\U{2000}' <= c <= '\U{200a}')
    || c == '\U{2028}'
    || c == '\U{2029}'
    || c == '\U{202f}'
    || c == '\U{205f}'
    || c == '\U{3000}'
  }

  /** How many whitespace characters `s` starts with. */
  function LeadingSpaces(s: string): (n: nat)
    ensures n <= |s|
    ensures forall k :: 0 <= k < n ==> IsSpace(s[k])
    ensures n < |s| ==> !IsSpace(s[n])
    decreases |s|
  {
    if |s| > 0 && IsSpace(s[0]) then 1 + LeadingSpaces(s[1..]) else 0
  }

  /** How many whitespace characters `s` ends with. */
  function TrailingSpaces(s: string): (n: nat)
    ensures n <= |s|
    ensures forall k :: |s| - n <= k < |s| ==> IsSpace(s[k])
    ensures n < |s| ==> !IsSpace(s[|s| - n - 1])
    decreases |s|
  {
    if |s| > 0 && IsSpace(s[|s| - 1]) then 1 + TrailingSpaces(s[..|s| - 1]) else 0
  }

  /**
   * `s.strip()`: the slice of `s` between its leading and its trailing whitespace; everything cut
   * off is whitespace and the result neither starts nor ends with whitespace.
   */
  function Strip(s: string): (r: string)
    ensures var i := LeadingSpaces(s);
      && i + |r| <= |s|
      && r == s[i..i + |r|]
      && forall k :: i + |r| <= k < |s| ==> IsSpace(s[k])
    ensures r == [] || (!IsSpace(r[0]) && !IsSpace(r[|r| - 1]))
  {
    var i := LeadingSpaces(s);
    if i == |s| then []
    else
      var n := TrailingSpaces(s);
      assert !IsSpace(s[i]);
      assert n < |s| - i;
      s[i..|s| - n]
  }

  /** A string that neither starts nor ends with whitespace is its own strip. */
  lemma StripKeeps(s: string)
    requires s == [] || (!IsSpace(s[0]) && !IsSpace(s[|s| - 1]))
    ensures Strip(s) == s
  {
    assert LeadingSpaces(s) == 0;
    assert TrailingSpaces(s) == 0;
  }

  /** Stripping a stripped string changes nothing. */
  lemma StripIdempotent(s: string)
    ensures Strip(Strip(s)) == Strip(s)
  {
    StripKeeps(Strip(s));
  }

  /** ASCII lower-casing of one character (`str.lower` on the characters that can spell `quit`). */
  function Lower(c: char): char {
    if 'A' <= c <= 'Z' then (c as int + 32) as char else c
  }

  /**
   * `q.lower() == 'quit'`: the four letters of `quit` in any mix of upper and lower case, and nothing
   * else. Only ASCII letters lower-case to `q`, `u`, `i`, `t`, so ASCII lowering is exact here.
   */
  predicate IsQuit(q: string): (r: bool)
    ensures r <==>
      && |q| == 4
      && (q[0] == 'q' || q[0] == 'Q')
      && (q[1] == 'u' || q[1] == 'U')
      && (q[2] == 'i' || q[2] == 'I')
      && (q[3] == 't' || q[3] == 'T')
  {
    && |q| == 4
    && Lower(q[0]) == 'q'
    && Lower(q[1]) == 'u'
    && Lower(q[2]) == 'i'
    && Lower(q[3]) == 't'
  }

  /** `sep.join(parts)` for a one-character separator. */
  function Join(parts: seq<string>, sep: char): (r: string)
    ensures |parts| == 0 ==> r == ""
    ensures |parts| == 1 ==> r == parts[0]
    ensures |parts| > 1 ==> parts[0] + [sep] <= r && |r| > |parts[0]| + |Join(parts[1..], sep)|
    decreases |parts|
  {
    if |parts| == 0 then ""
    else if |parts| == 1 then parts[0]
    else parts[0] + [sep] + Join(parts[1..], sep)
  }

  /** `s.split(sep)` for a one-character separator: the pieces between separators, never an empty list. */
  function Split(s: string, sep: char): (r: seq<string>)
    ensures |r| > 0
    ensures forall i :: 0 <= i < |r| ==> sep !in r[i]
    decreases |s|
  {
    if |s| == 0 then [""]
    else
      var rest := Split(s[1..], sep);
      if s[0] == sep then [""] + rest
      else [[s[0]] + rest[0]] + rest[1..]
  }

  /** Joining one more piece in front puts it before a separator. */
  lemma JoinCons(p: string, ps: seq<string>, sep: char)
    requires |ps| > 0
    ensures Join([p] + ps, sep) == p + [sep] + Join(ps, sep)
  {
    assert ([p] + ps)[1..] == ps;
  }

  /** A piece without a separator splits to itself. */
  lemma {:induction false} SplitNoSep(p: string, sep: char)
    requires sep !in p
    ensures Split(p, sep) == [p]
    decreases |p|
  {
    if |p| > 0 {
      SplitNoSep(p[1..], sep);
      assert [p[0]] + p[1..] == p;
    }
  }

  /** Splitting `p + sep + t` yields `p` followed by the pieces of `t`, when `p` holds no separator. */
  lemma {:induction false} SplitAfterPiece(p: string, t: string, sep: char)
    requires sep !in p
    ensures Split(p + [sep] + t, sep) == [p] + Split(t, sep)
    decreases |p|
  {
    var s := p + [sep] + t;
    if |p| == 0 {
      assert s[1..] == t;
    } else {
      assert s[1..] == p[1..] + [sep] + t;
      SplitAfterPiece(p[1..], t, sep);
      assert [p[0]] + p[1..] == p;
    }
  }

  /** Join is undone by Split when no piece contains the separator (and there is at least one piece). */
  lemma {:induction false} SplitJoin(parts: seq<string>, sep: char)
    requires |parts| > 0
    requires forall i :: 0 <= i < |parts| ==> sep !in parts[i]
    ensures Split(Join(parts, sep), sep) == parts
    decreases |parts|
  {
    if |parts| == 1 {
      SplitNoSep(parts[0], sep);
    } else {
      SplitJoin(parts[1..], sep);
      SplitAfterPiece(parts[0], Join(parts[1..], sep), sep);
      assert [parts[0]] + parts[1..] == parts;
    }
  }

  /** Split is undone by Join: splitting loses nothing. */
  lemma {:induction false} JoinSplit(s: string, sep: char)
    ensures Join(Split(s, sep), sep) == s
    decreases |s|
  {
    if |s| > 0 {
      var rest := Split(s[1..], sep);
      JoinSplit(s[1..], sep);
      if s[0] == sep {
        JoinCons("", rest, sep);
        assert [sep] + s[1..] == s;
      } else if |rest| == 1 {
        assert [s[0]] + s[1..] == s;
      } else {
        JoinPrepend(s[0], rest, sep);
        assert [s[0]] + s[1..] == s;
      }
    }
  }

  /** Putting a character in front of the first piece puts it in front of the join. */
  lemma JoinPrepend(c: char, parts: seq<string>, sep: char)
    requires |parts| > 1
    ensures Join([[c] + parts[0]] + parts[1..], sep) == [c] + Join(parts, sep)
  {
    JoinCons([c] + parts[0], parts[1..], sep);
    JoinCons(parts[0], parts[1..], sep);
    assert [parts[0]] + parts[1..] == parts;
  }
}
