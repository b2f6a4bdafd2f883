/** The regular-expression field extractors `json_get_string`, `json_get_number` and
    `json_get_integer`: the leftmost place of a payload where `"key"\s*:\s*value` matches. */
module Fields {
  import opened Text
  import opened Decimal
  import opened Json

  datatype Kind = TextValue | NumberValue | IntegerValue

  /** What follows `"key"\s*:\s*` when that matches at the front of `t`. */
  function AfterKey(t: string, key: string): Option<string> {
    if |t| < |key| + 2 || t[0] != '\"' || t[1..|key| + 1] != key || t[|key| + 1] != '\"' then None else
      var u := SkipSpace(t[|key| + 2..]);
      if u == [] || u[0] != ':' then None else Some(SkipSpace(u[1..]))
  }

  /** The value pattern of each extractor, greedy, at the front of `u`. */
  function Capture(kind: Kind, u: string): Option<string> {
    if u == [] then None
    else match kind
      case TextValue =>
        var n := Span(u[1..], NotQuote);
        if u[0] == '\"' && n < |u| - 1 then Some(u[1..n + 1]) else None
      case NumberValue =>
        var sign := if u[0] == '-' then 1 else 0;
        var n := DecimalSpan(u[sign..]);
        if n == 0 then None else Some(u[..sign + n])
      case IntegerValue =>
        var sign := if u[0] == '-' then 1 else 0;
        var n := Span(u[sign..], IsDigit);
        if n == 0 then None else Some(u[..sign + n])
  }

  function Here(kind: Kind, t: string, key: string): Option<string> {
    var u := AfterKey(t, key);
    if u.None? then None else Capture(kind, u.value)
  }

  /** `std::regex_search`: try every position from the left. */
  function Search(kind: Kind, t: string, key: string): Option<string> {
    if Here(kind, t, key).Some? then Here(kind, t, key)
    else if t == [] then None
    else Search(kind, t[1..], key)
  }

  function SignedToken(token: string): (bool, string) {
    if token != [] && token[0] == '-' then (true, token[1..]) else (false, token)
  }

  function DoubleOf(token: string): Double {
    var (negative, body) := SignedToken(token);
    SignedReal(negative, Magnitude(body))
  }

  function IntegerOf(token: string): int {
    var (negative, body) := SignedToken(token);
    var n: int := NatOf(body);
    if negative then -n else n
  }

  function JsonGetString(payload: string, key: string): Option<string> {
    Search(TextValue, payload, key)
  }

  function JsonGetNumber(payload: string, key: string): Option<Double> {
    var m := Search(NumberValue, payload, key);
    if m.None? then None else Some(DoubleOf(m.value))
  }

  function JsonGetInteger(payload: string, key: string): Option<int> {
    var m := Search(IntegerValue, payload, key);
    if m.None? then None else Some(IntegerOf(m.value))
  }

  // ---- the scanner finds the leftmost match of the pattern ---------------------------

  ghost predicate KeyPattern(t: string, key: string, before: string, after: string, u: string) {
    && All(before, IsSpace) && All(after, IsSpace)
    && (u == [] || !IsSpace(u[0]))
    && t == Quoted(key) + (before + (":" + (after + u)))
  }

  lemma AfterKeyComplete(t: string, key: string, before: string, after: string, u: string)
    requires KeyPattern(t, key, before, after, u)
    ensures AfterKey(t, key) == Some(u)
  {
    var tail := ":" + (after + u);
    assert t[1..|key| + 1] == key && t[|key| + 2..] == before + tail;
    SpanStops(before, tail, IsSpace);
    assert tail[1..] == after + u;
    SpanStops(after, u, IsSpace);
  }

  lemma AfterKeySound(t: string, key: string) returns (before: string, after: string)
    requires AfterKey(t, key).Some?
    ensures KeyPattern(t, key, before, after, AfterKey(t, key).value)
  {
    hide IsSpace, All, SkipSpace, Span;
    var w := t[|key| + 2..];
    before := SpaceSplit(w);
    var u := SkipSpace(w);
    after := SpaceSplit(u[1..]);
    assert t == Quoted(key) + w;
    assert u == ":" + u[1..];
  }

  /** The result is the capture at the first position where the pattern matches, and there is
      none exactly when it matches nowhere. */
  lemma {:induction false} SearchLeftmost(kind: Kind, t: string, key: string)
    ensures Search(kind, t, key).None? <==> forall i :: 0 <= i <= |t| ==> Here(kind, t[i..], key).None?
    ensures forall i :: 0 <= i <= |t| && Here(kind, t[i..], key).Some?
                        && (forall j :: 0 <= j < i ==> Here(kind, t[j..], key).None?)
                        ==> Search(kind, t, key) == Here(kind, t[i..], key)
  {
    hide Here;
    assert t[0..] == t;
    if Here(kind, t, key).None? && t != [] {
      SearchLeftmost(kind, t[1..], key);
      assert forall i :: 0 <= i <= |t| - 1 ==> t[1..][i..] == t[i + 1..];
      assert forall i {:trigger t[i..]} :: 1 <= i <= |t| ==> t[1..][i - 1..] == t[i..];
    }
  }

  // ---- extraction from a flat printed object ------------------------------------------

  /** A field whose printed form has no quote inside its name or value. */
  ghost predicate Flat(f: Field) {
    && f.name != [] && All(f.name, IsWord)
    && ((f.value.JStr? && All(f.value.text, NotQuote)) || (f.value.JNum? && All(f.value.token, NotQuote)))
  }

  ghost predicate IsKey(key: string) {
    key != [] && All(key, IsWord)
  }

  predicate EndsField(tail: string) {
    tail != [] && (tail[0] == ',' || tail[0] == '}')
  }

  lemma {:induction false} SkipPlain(kind: Kind, pre: string, rest: string, key: string)
    requires All(pre, NotQuote)
    ensures Search(kind, pre + rest, key) == Search(kind, rest, key)
  {
    if pre == [] {
      assert pre + rest == rest;
    } else {
      assert (pre + rest)[0] == pre[0] && (pre + rest)[1..] == pre[1..] + rest;
      SkipPlain(kind, pre[1..], rest, key);
    }
  }

  /** The next thing that is not white space, if any, is no colon. */
  ghost predicate NoColon(tail: string) {
    SkipSpace(tail) == [] || SkipSpace(tail)[0] != ':'
  }

  lemma EndsNoColon(tail: string)
    requires EndsField(tail)
    ensures NoColon(tail) && !IsWord(tail[0])
  {}

  /** A quoted text other than the key, or the key not followed by a colon, is no match. */
  lemma QuotedMiss(s: string, tail: string, key: string)
    requires All(s, NotQuote) && IsKey(key)
    requires s != key || NoColon(tail)
    ensures AfterKey(Quoted(s) + tail, key).None?
  {
    var t := Quoted(s) + tail;
    if |t| >= |key| + 2 && t[1..|key| + 1] == key && t[|key| + 1] == '\"' {
      assert |s| < |t| - 1 && t[|s| + 1] == '\"';
      assert forall i :: 0 <= i < |s| ==> t[i + 1] == s[i];
      assert forall i :: 0 <= i < |key| ==> t[i + 1] == key[i];
      assert |key| == |s|;
      assert s == key;
      assert t[|key| + 2..] == tail;
    }
  }

  lemma SearchStep(kind: Kind, t: string, key: string)
    requires t != [] && AfterKey(t, key).None?
    ensures Search(kind, t, key) == Search(kind, t[1..], key)
  {}

  lemma CloseMiss(tail: string, key: string)
    requires IsKey(key) && tail != [] && !IsWord(tail[0])
    ensures AfterKey("\"" + tail, key).None?
  {
    var c := "\"" + tail;
    assert |c| >= |key| + 2 ==> c[1..|key| + 1][0] == tail[0];
  }

  lemma SkipQuoted(kind: Kind, s: string, tail: string, key: string)
    requires All(s, NotQuote) && IsKey(key)
    requires tail != [] && !IsWord(tail[0]) && (NoColon(tail) || s != key)
    ensures Search(kind, Quoted(s) + tail, key) == Search(kind, tail, key)
  {
    hide Search, AfterKey, All;
    var t := Quoted(s) + tail;
    var c := "\"" + tail;
    QuotedMiss(s, tail, key);
    SearchStep(kind, t, key);
    assert t[1..] == s + c;
    SkipPlain(kind, s, c, key);
    CloseMiss(tail, key);
    SearchStep(kind, c, key);
    assert c[1..] == tail;
  }

  lemma SkipField(kind: Kind, f: Field, tail: string, key: string)
    requires Flat(f) && IsKey(key) && f.name != key && EndsField(tail)
    ensures Search(kind, RenderField(f) + tail, key) == Search(kind, tail, key)
  {
    var v := Render(f.value);
    assert RenderField(f) + tail == Quoted(f.name) + (":" + (v + tail));
    SkipQuoted(kind, f.name, ":" + (v + tail), key);
    SkipPlain(kind, ":", v + tail, key);
    assert ":" + (v + tail) == [':'] + (v + tail);
    if f.value.JStr? {
      EscapeQuoteFree(f.value.text);
      EndsNoColon(tail);
      SkipQuoted(kind, Escape(f.value.text), tail, key);
    } else {
      SkipPlain(kind, v, tail, key);
    }
  }

  /** Fields with other names are passed over. */
  lemma {:induction false} SearchSkips(kind: Kind, fields: seq<Field>, k: nat, tail: string, key: string)
    requires k < |fields| && EndsField(tail) && IsKey(key)
    requires forall i :: 0 <= i < k ==> Flat(fields[i]) && fields[i].name != key
    ensures Search(kind, RenderFields(fields) + tail, key) == Search(kind, RenderFields(fields[k..]) + tail, key)
  {
    hide Search, RenderField, Flat;
    if k == 0 {
      assert fields[0..] == fields;
    } else {
      var more := RenderFields(fields[1..]) + tail;
      RenderFieldsNest(fields, tail);
      SkipField(kind, fields[0], "," + more, key);
      SkipPlain(kind, ",", more, key);
      SearchSkips(kind, fields[1..], k - 1, tail, key);
      assert fields[1..][k - 1..] == fields[k..];
    }
  }

  /** The match at a field of the right name captures from the front of its printed value. */
  lemma FieldHere(kind: Kind, f: Field, tail: string)
    requires Render(f.value) != [] && !IsSpace(Render(f.value)[0])
    ensures Here(kind, RenderField(f) + tail, f.name) == Capture(kind, Render(f.value) + tail)
  {
    var u := Render(f.value) + tail;
    assert RenderField(f) + tail == Quoted(f.name) + ([] + (":" + ([] + u)));
    AfterKeyComplete(RenderField(f) + tail, f.name, [], [], u);
  }

  /** Extraction by name from a printed object: the capture starts at the printed value of the
      first field of that name, and the value is followed by a comma or a brace. */
  lemma SearchField(kind: Kind, fields: seq<Field>, k: nat, tail: string) returns (end: string)
    requires k < |fields| && EndsField(tail) && IsKey(fields[k].name)
    requires forall i :: 0 <= i < k ==> Flat(fields[i]) && fields[i].name != fields[k].name
    requires Render(fields[k].value) != [] && !IsSpace(Render(fields[k].value)[0])
    ensures EndsField(end)
    ensures var c := Capture(kind, Render(fields[k].value) + end);
            c.Some? ==> Search(kind, RenderFields(fields) + tail, fields[k].name) == c
  {
    SearchSkips(kind, fields, k, tail, fields[k].name);
    end := RenderFieldsHead(fields[k..], tail);
    FieldHere(kind, fields[k], end);
    SearchHit(kind, RenderField(fields[k]) + end, fields[k].name);
  }

  lemma SearchHit(kind: Kind, t: string, key: string)
    ensures Here(kind, t, key).Some? ==> Search(kind, t, key) == Here(kind, t, key)
  {}

  lemma RenderFieldsHead(fields: seq<Field>, tail: string) returns (end: string)
    requires fields != [] && EndsField(tail)
    ensures EndsField(end)
    ensures RenderFields(fields) + tail == RenderField(fields[0]) + end
  {
    end := if |fields| == 1 then tail else "," + (RenderFields(fields[1..]) + tail);
  }

  // ---- what each extractor captures from a printed value ------------------------------

  lemma CaptureText(s: string, end: string)
    requires All(Escape(s), NotQuote)
    ensures Capture(TextValue, Render(JStr(s)) + end) == Some(Escape(s))
  {
    hide Escape, All;
    var u := Render(JStr(s)) + end;
    assert u[1..] == Escape(s) + ("\"" + end);
    SpanStops(Escape(s), "\"" + end, NotQuote);
    assert u[1..|Escape(s)| + 1] == Escape(s);
  }

  lemma SignedFront(sign: string, body: string, end: string)
    requires (sign == "" || sign == "-") && body != [] && body[0] != '-'
    ensures var t := sign + body + end;
            && t != [] && (t[0] == '-' <==> sign == "-") && t[|sign|..] == body + end
            && t[..|sign| + |body|] == sign + body
  {
    var t := sign + body + end;
    assert t[|sign|] == body[0];
  }

  lemma CaptureNumber(d: Double, end: string)
    requires EndsField(end)
    ensures Capture(NumberValue, FormatDouble(d) + end) == Some(FormatDouble(d))
  {
    hide FormatDouble, DecimalSpan, Magnitude, DecimalParts, Hundredths;
    var whole, fraction, body := FormatParts(d);
    DecimalSpanStops(body, whole, fraction, end);
    SignedFront(if d.negative then "-" else "", body, end);
  }

  lemma ReadNumber(d: Double)
    ensures DoubleOf(FormatDouble(d)) == Rounded(d)
  {
    hide FormatDouble, Magnitude, Hundredths, All;
    var whole, fraction, body := FormatParts(d);
    var sign := if d.negative then "-" else "";
    assert FormatDouble(d)[|sign|..] == body;
  }

  lemma CaptureInteger(n: int, end: string)
    requires EndsField(end)
    ensures Capture(IntegerValue, IntText(n) + end) == Some(IntText(n))
    ensures IntegerOf(IntText(n)) == n
  {
    var m := if n < 0 then -n else n;
    var sign := if n < 0 then "-" else "";
    DigitsFirst(m);
    hide NatText, All, NatOf, IsDigit;
    NotDigitEnds(end);
    assert IntText(n) == sign + NatText(m);
    SpanStops(NatText(m), end, IsDigit);
    SignedFront(sign, NatText(m), end);
    SignedFront(sign, NatText(m), []);
    assert NatText(m) + [] == NatText(m) && sign + NatText(m) + [] == sign + NatText(m);
    NatRoundTrip(m);
  }

  lemma DigitsFirst(m: nat)
    ensures NatText(m) != [] && NatText(m)[0] != '-' && All(NatText(m), IsDigit)
  {
    assert IsDigit(NatText(m)[0]);
  }

  lemma NotDigitEnds(end: string)
    requires EndsField(end)
    ensures !IsDigit(end[0])
  {}
}
