/** Strings as sequences of characters: the C-locale character classes, `trim`,
    `lower_copy` and `escape_json`. */
module Text {

  datatype Option<+T> = None | Some(value: T) {
    function Or(fallback: T): T {
      if Some? then value else fallback
    }
  }

  /** The six characters `std::isspace` and the regular-expression class `\s` accept. */
  predicate IsSpace(c: char) {
    c == ' ' || c == '\t' || c == '\n' || c == '\r' || c == '\U{0B}' || c == '\U{0C}'
  }

  predicate IsDigit(c: char) {
    '0' <= c <= '9'
  }

  predicate IsWord(c: char) {
    'a' <= c <= 'z' || 'A' <= c <= 'Z' || c == '_'
  }

  ghost predicate All(s: string, p: char -> bool) {
    forall i :: 0 <= i < |s| ==> p(s[i])
  }

  lemma AllConcat(a: string, b: string, p: char -> bool)
    ensures All(a + b, p) <==> All(a, p) && All(b, p)
  {
    if All(a + b, p) {
      assert forall i :: 0 <= i < |a| ==> a[i] == (a + b)[i];
      assert forall i :: 0 <= i < |b| ==> b[i] == (a + b)[|a| + i];
    }
  }

  /** Length of the longest prefix whose characters all satisfy `p`: what a greedy
      starred class consumes. */
  function Span(s: string, p: char -> bool): (n: nat)
    ensures n <= |s| && All(s[..n], p)
    ensures n < |s| ==> !p(s[n])
  {
    if s == [] || !p(s[0]) then 0 else
      var k := Span(s[1..], p);
      assert s[..k + 1] == [s[0]] + s[1..][..k];
      k + 1
  }

  /** A greedy class stops exactly where a text of that class meets a character outside it. */
  lemma {:induction false} SpanStops(a: string, b: string, p: char -> bool)
    requires All(a, p)
    requires b == [] || !p(b[0])
    ensures Span(a + b, p) == |a|
    ensures (a + b)[|a|..] == b
  {
    if a == [] {
      assert a + b == b;
    } else {
      assert (a + b)[1..] == a[1..] + b;
      SpanStops(a[1..], b, p);
    }
  }

  lemma {:induction false} SpanBound(s: string, p: char -> bool, i: nat)
    requires i < |s| && !p(s[i])
    ensures Span(s, p) <= i
  {
    if i > 0 && p(s[0]) {
      SpanBound(s[1..], p, i - 1);
    }
  }

  // ---- trim ---------------------------------------------------------------------

  function SkipSpace(s: string): (r: string)
    ensures r == [] || !IsSpace(r[0])
  {
    s[Span(s, IsSpace)..]
  }

  /** The white space skipped. */
  lemma SpaceSplit(s: string) returns (lead: string)
    ensures All(lead, IsSpace) && s == lead + SkipSpace(s)
    ensures lead == [] <==> Span(s, IsSpace) == 0
  {
    lead := s[..Span(s, IsSpace)];
  }

  function DropTrailing(s: string): (r: string)
    ensures r <= s && All(s[|r|..], IsSpace)
    ensures r == [] || !IsSpace(r[|r| - 1])
  {
    if s == [] || !IsSpace(s[|s| - 1]) then s else
      var r := DropTrailing(s[..|s| - 1]);
      assert s[|r|..] == s[..|s| - 1][|r|..] + [s[|s| - 1]];
      r
  }

  lemma {:induction false} DropTrailingStops(core: string, tail: string)
    requires core == [] || !IsSpace(core[|core| - 1])
    requires All(tail, IsSpace)
    ensures DropTrailing(core + tail) == core
  {
    if tail == [] {
      assert core + tail == core;
    } else {
      assert (core + tail)[..|core + tail| - 1] == core + tail[..|tail| - 1];
      DropTrailingStops(core, tail[..|tail| - 1]);
    }
  }

  function Trim(s: string): string {
    DropTrailing(SkipSpace(s))
  }

  /** Empty, or beginning and ending outside white space. */
  predicate Solid(s: string) {
    s == [] || (!IsSpace(s[0]) && !IsSpace(s[|s| - 1]))
  }

  /** `trim` removes white space at the two ends and nothing else, and leaves none there. */
  lemma TrimSplits(s: string) returns (lead: string, tail: string)
    ensures s == lead + Trim(s) + tail
    ensures All(lead, IsSpace) && All(tail, IsSpace) && Solid(Trim(s))
  {
    var n := Span(s, IsSpace);
    lead := s[..n];
    tail := SkipSpace(s)[|Trim(s)|..];
    assert SkipSpace(s) == Trim(s) + tail;
  }

  /** The split found by `trim` is the only one: any text framed by white space trims to its core. */
  lemma TrimUnique(lead: string, core: string, tail: string)
    requires All(lead, IsSpace) && All(tail, IsSpace) && Solid(core)
    ensures Trim(lead + core + tail) == core
  {
    if core == [] {
      AllConcat(lead, tail, IsSpace);
      assert lead + core + tail == lead + tail + [];
      SpanStops(lead + tail, [], IsSpace);
    } else {
      SpanStops(lead, core + tail, IsSpace);
      assert lead + core + tail == lead + (core + tail);
      DropTrailingStops(core, tail);
    }
  }

  /** The two `find_if` scans of `trim`, from the front and then from the back. */
  method TrimCopy(value: string) returns (r: string)
    ensures r == Trim(value)
    ensures Solid(r)
  {
    hide Trim;
    var front := 0;
    while front < |value| && IsSpace(value[front])
      invariant front <= |value| && All(value[..front], IsSpace)
    {
      assert value[..front + 1] == value[..front] + [value[front]];
      front := front + 1;
    }
    var back := |value|;
    while front < back && IsSpace(value[back - 1])
      invariant front <= back <= |value| && All(value[back..], IsSpace)
    {
      assert value[back - 1..] == [value[back - 1]] + value[back..];
      back := back - 1;
    }
    r := value[front..back];
    assert value == value[..front] + r + value[back..];
    TrimUnique(value[..front], r, value[back..]);
  }

  // ---- lower_copy ---------------------------------------------------------------

  function LowerChar(c: char): char {
    if 'A' <= c <= 'Z' then (c as int + 32) as char else c
  }

  function Lower(s: string): (r: string)
    ensures |r| == |s| && forall i :: 0 <= i < |s| ==> r[i] == LowerChar(s[i])
  {
    seq(|s|, i requires 0 <= i < |s| => LowerChar(s[i]))
  }

  predicate Upper(c: char) {
    'A' <= c <= 'Z'
  }

  /** The same character up to the case of a letter. */
  ghost predicate SameLetter(c: char, d: char) {
    c == d || (Upper(c) && d as int == c as int + 32) || (Upper(d) && c as int == d as int + 32)
  }

  /** Two texts are lowered to the same exactly when they differ in the case of letters only; a text is
      unchanged exactly when it has no capital, and lowering twice is lowering once. */
  lemma LowerFoldsCase(a: string, b: string)
    ensures Lower(a) == Lower(b) <==> |a| == |b| && forall i :: 0 <= i < |a| ==> SameLetter(a[i], b[i])
    ensures Lower(a) == a <==> forall i :: 0 <= i < |a| ==> !Upper(a[i])
    ensures Lower(Lower(a)) == Lower(a)
  {
    if Lower(a) == Lower(b) {
      assert |a| == |Lower(a)| == |b|;
      forall i | 0 <= i < |a|
        ensures SameLetter(a[i], b[i])
      {
        assert Lower(a)[i] == Lower(b)[i];
      }
    }
    if Lower(a) == a {
      assert forall i :: 0 <= i < |a| ==> Lower(a)[i] == a[i];
    }
  }

  lemma LowerConcat(a: string, b: string)
    ensures Lower(a + b) == Lower(a) + Lower(b)
  {}

  // ---- escape_json --------------------------------------------------------------

  function EscapeChar(c: char): string {
    if c == '\\' then "\\\\"
    else if c == '\"' then "\\\""
    else if c == '\n' then "\\n"
    else if c == '\r' then "\\r"
    else if c == '\t' then "\\t"
    else [c]
  }

  function Escape(s: string): string {
    if s == [] then [] else EscapeChar(s[0]) + Escape(s[1..])
  }

  lemma {:induction false} EscapeConcat(a: string, b: string)
    ensures Escape(a + b) == Escape(a) + Escape(b)
  {
    if a == [] {
      assert a + b == b;
    } else {
      assert (a + b)[1..] == a[1..] + b;
      EscapeConcat(a[1..], b);
    }
  }

  /** The characters `escape_json` rewrites. */
  predicate NeedsEscape(c: char) {
    c == '\\' || c == '\"' || c == '\n' || c == '\r' || c == '\t'
  }

  predicate Verbatim(c: char) {
    !NeedsEscape(c)
  }

  /** `escape_json` is the identity exactly on texts free of the five rewritten characters,
      and lengthens every other text. */
  lemma {:induction false} EscapeIdentity(s: string)
    ensures |Escape(s)| >= |s|
    ensures All(s, Verbatim) <==> Escape(s) == s
    ensures All(s, Verbatim) <==> |Escape(s)| == |s|
  {
    if s != [] {
      EscapeIdentity(s[1..]);
      assert s == [s[0]] + s[1..];
      AllConcat([s[0]], s[1..], Verbatim);
      assert [s[0]][0] == s[0];
    }
  }

  predicate NotNewline(c: char) { c != '\n' }

  /** No printed string contains a raw newline, whatever the input. */
  lemma {:induction false} EscapeSingleLine(s: string)
    ensures All(Escape(s), NotNewline)
  {
    if s != [] {
      EscapeSingleLine(s[1..]);
      AllConcat(EscapeChar(s[0]), Escape(s[1..]), NotNewline);
    }
  }

  predicate NotQuote(c: char) { c != '\"' }

  lemma {:induction false} EscapeQuoteFree(s: string)
    ensures All(s, NotQuote) <==> All(Escape(s), NotQuote)
  {
    if s != [] {
      EscapeQuoteFree(s[1..]);
      assert s == [s[0]] + s[1..];
      AllConcat([s[0]], s[1..], NotQuote);
      AllConcat(EscapeChar(s[0]), Escape(s[1..]), NotQuote);
      assert [s[0]][0] == s[0];
      if s[0] == '\"' {
        assert EscapeChar(s[0])[1] == '\"';
      }
    }
  }

  /** Reading from the left and passing over each backslash with the character it escapes, no quote is met,
      and no backslash stands alone at the end. */
  predicate QuotesEscaped(t: string)
    decreases |t|
  {
    if t == [] then true
    else if t[0] == '\\' then |t| >= 2 && QuotesEscaped(t[2..])
    else t[0] != '\"' && QuotesEscaped(t[1..])
  }

  /** Whatever the input, every quote of the output is escaped. */
  lemma {:induction false} EscapeHidesQuotes(s: string)
    ensures QuotesEscaped(Escape(s))
  {
    if s != [] {
      EscapeHidesQuotes(s[1..]);
      var first, rest := EscapeChar(s[0]), Escape(s[1..]);
      assert (first + rest)[|first|..] == rest;
    }
  }

  /** The `switch` loop of `escape_json`. */
  method EscapeJson(value: string) returns (out: string)
    ensures out == Escape(value)
  {
    out := [];
    for i := 0 to |value|
      invariant out == Escape(value[..i])
    {
      assert value[..i + 1] == value[..i] + [value[i]];
      EscapeConcat(value[..i], [value[i]]);
      out := out + EscapeChar(value[i]);
    }
    assert value[..|value|] == value;
  }
}
