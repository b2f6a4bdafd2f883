/** JSON texts as the server prints them and as `json.loads` reads them back in the dashboard. */
module Json {
  import opened Text
  import opened Decimal

  /** Numbers keep their token: the two ends of the wire agree on the digits. */
  datatype Json =
    | JStr(text: string)
    | JNum(token: string)
    | JArr(items: seq<Json>)
    | JObj(fields: seq<Field>)

  datatype Field = Field(name: string, value: Json)

  /** `dict.get` on a parsed object: the last of several equal names wins, as in Python. */
  function Get(fields: seq<Field>, name: string): Option<Json> {
    if fields == [] then None
    else if Get(fields[1..], name).Some? then Get(fields[1..], name)
    else if fields[0].name == name then Some(fields[0].value)
    else None
  }

  lemma {:induction false} GetNone(fields: seq<Field>, name: string)
    requires forall i :: 0 <= i < |fields| ==> fields[i].name != name
    ensures Get(fields, name) == None
  {
    if fields != [] {
      GetNone(fields[1..], name);
    }
  }

  lemma {:induction false} GetAt(fields: seq<Field>, k: nat, name: string)
    requires k < |fields| && fields[k].name == name
    requires forall i :: k < i < |fields| ==> fields[i].name != name
    ensures Get(fields, name) == Some(fields[k].value)
  {
    if k == 0 {
      GetNone(fields[1..], name);
    } else {
      GetAt(fields[1..], k - 1, name);
    }
  }

  lemma Get2(a: Field, b: Field, name: string)
    ensures b.name == name ==> Get([a, b], name) == Some(b.value)
    ensures b.name != name && a.name == name ==> Get([a, b], name) == Some(a.value)
  {
    if b.name == name {
      GetAt([a, b], 1, name);
    } else if a.name == name {
      GetAt([a, b], 0, name);
    }
  }

  lemma GetHead(a: Field, rest: seq<Field>, name: string)
    requires a.name == name && forall i :: 0 <= i < |rest| ==> rest[i].name != name
    ensures Get([a] + rest, name) == Some(a.value)
  {
    GetAt([a] + rest, 0, name);
  }

  // ---- printing -----------------------------------------------------------------

  function Quoted(s: string): string {
    "\"" + s + "\""
  }

  function Render(j: Json): string
    decreases j, 1
  {
    match j
    case JStr(s) => Quoted(Escape(s))
    case JNum(token) => token
    case JArr(items) => "[" + RenderItems(items) + "]"
    case JObj(fields) => "{" + RenderFields(fields) + "}"
  }

  function RenderItems(items: seq<Json>): string
    decreases items, 0
  {
    if items == [] then []
    else if |items| == 1 then Render(items[0])
    else Render(items[0]) + ("," + RenderItems(items[1..]))
  }

  function RenderField(f: Field): string
    decreases f, 2
  {
    Quoted(f.name) + (":" + Render(f.value))
  }

  function RenderFields(fields: seq<Field>): string
    decreases fields, 0
  {
    if fields == [] then []
    else if |fields| == 1 then RenderField(fields[0])
    else RenderField(fields[0]) + ("," + RenderFields(fields[1..]))
  }

  lemma {:induction false} RenderFieldsAppend(fields: seq<Field>, f: Field)
    requires fields != []
    ensures RenderFields(fields + [f]) == RenderFields(fields) + ("," + RenderField(f))
  {
    hide RenderField;
    if |fields| == 1 {
      assert (fields + [f])[1..] == [f];
    } else {
      assert (fields + [f])[1..] == fields[1..] + [f];
      RenderFieldsAppend(fields[1..], f);
      Nest(RenderField(fields[0]), ",", RenderFields(fields[1..]), "," + RenderField(f));
    }
  }

  lemma {:induction false} RenderItemsAppend(items: seq<Json>, j: Json)
    ensures RenderItems(items + [j]) ==
            if items == [] then Render(j) else RenderItems(items) + ("," + Render(j))
  {
    hide Render;
    if items == [] {
      assert items + [j] == [j];
    } else if |items| == 1 {
      assert (items + [j])[1..] == [j];
    } else {
      assert (items + [j])[1..] == items[1..] + [j];
      RenderItemsAppend(items[1..], j);
      Nest(Render(items[0]), ",", RenderItems(items[1..]), "," + Render(j));
    }
  }

  // ---- reading strings (RFC 8259, section 7, without \u escapes) ------------------

  function Unescape(c: char): Option<char> {
    if c == '\"' || c == '\\' || c == '/' then Some(c)
    else if c == 'b' then Some('\U{08}')
    else if c == 'f' then Some('\U{0C}')
    else if c == 'n' then Some('\n')
    else if c == 'r' then Some('\r')
    else if c == 't' then Some('\t')
    else None
  }

  datatype Parse<T> = Fail | Got(value: T, rest: string)

  function Prepend(c: char, r: Parse<string>): Parse<string> {
    if r.Got? then Got([c] + r.value, r.rest) else Fail
  }

  /** The characters after an opening quote, up to and including the closing one. */
  function DecodeString(t: string): (r: Parse<string>)
    ensures r.Got? ==> |r.rest| < |t|
    decreases |t|
  {
    if t == [] then Fail
    else if t[0] == '\"' then Got([], t[1..])
    else if t[0] == '\\' then
      if |t| < 2 || Unescape(t[1]).None? then Fail
      else Prepend(Unescape(t[1]).value, DecodeString(t[2..]))
    else if t[0] < ' ' then Fail
    else Prepend(t[0], DecodeString(t[1..]))
  }

  /** A character whose printed form `json.loads` accepts. */
  predicate CleanChar(c: char) {
    c >= ' ' || c == '\n' || c == '\r' || c == '\t'
  }

  ghost predicate Clean(s: string) {
    All(s, CleanChar)
  }

  lemma DecodeEscapedChar(c: char, tail: string)
    ensures DecodeString(EscapeChar(c) + tail) == if CleanChar(c) then Prepend(c, DecodeString(tail)) else Fail
  {
    hide DecodeString;
    if NeedsEscape(c) {
      var e := EscapeChar(c)[1];
      assert EscapeChar(c) == ['\\', e];
      DecodePair(e, tail);
    } else {
      DecodePlain(c, tail);
    }
  }

  lemma DecodePair(e: char, tail: string)
    requires Unescape(e).Some?
    ensures DecodeString(['\\', e] + tail) == Prepend(Unescape(e).value, DecodeString(tail))
  {
    hide Unescape, Prepend;
    var t := ['\\', e] + tail;
    assert t[0] == '\\' && t[1] == e && t[2..] == tail;
  }

  lemma DecodePlain(c: char, tail: string)
    requires c != '\"' && c != '\\'
    ensures DecodeString([c] + tail) == if c < ' ' then Fail else Prepend(c, DecodeString(tail))
  {
    hide Unescape, Prepend;
    var t := [c] + tail;
    assert t[0] == c && t[1..] == tail;
  }

  lemma DecodeEnd(rest: string)
    ensures DecodeString(Escape("") + ("\"" + rest)) == Got("", rest)
  {
    assert Escape("") + ("\"" + rest) == "\"" + rest;
  }

  lemma EscapeHead(s: string, end: string)
    requires s != []
    ensures Escape(s) + end == EscapeChar(s[0]) + (Escape(s[1..]) + end)
  {
    hide EscapeChar;
  }

  /** Escaping and decoding are inverse exactly on texts whose control characters are newline,
      carriage return and tab; every other text is rejected by the reader. */
  lemma {:induction false} EscapeRoundTrip(s: string, rest: string)
    ensures DecodeString(Escape(s) + ("\"" + rest)) == if Clean(s) then Got(s, rest) else Fail
  {
    hide EscapeChar, CleanChar, DecodeString, Escape;
    if s == [] {
      DecodeEnd(rest);
    } else {
      var tail := Escape(s[1..]) + ("\"" + rest);
      EscapeRoundTrip(s[1..], rest);
      EscapeHead(s, "\"" + rest);
      DecodeEscapedChar(s[0], tail);
      assert s == [s[0]] + s[1..];
      AllConcat([s[0]], s[1..], CleanChar);
      assert [s[0]][0] == s[0];
    }
  }

  // ---- reading numbers, arrays and objects ----------------------------------------

  /** Length of the unsigned JSON number at the front of `u`: no leading zeros, no exponent. */
  function UnsignedSpan(u: string): (n: nat)
    ensures n <= |u|
  {
    if u == [] || !IsDigit(u[0]) then 0 else
      var i := if u[0] == '0' then 1 else Span(u, IsDigit);
      if i + 1 < |u| && u[i] == '.' && IsDigit(u[i + 1]) then i + 1 + Span(u[i + 1..], IsDigit) else i
  }

  function NumberSpan(t: string): (n: nat)
    ensures n <= |t|
  {
    var sign := if t != [] && t[0] == '-' then 1 else 0;
    var n := UnsignedSpan(t[sign..]);
    if n == 0 then 0 else sign + n
  }

  ghost predicate IsNumber(token: string) {
    exists sign, body, whole, fraction :: NumberParts(token, sign, body, whole, fraction)
  }

  ghost predicate NumberParts(token: string, sign: string, body: string, whole: string, fraction: string) {
    && (sign == "" || sign == "-")
    && token == sign + body
    && DecimalParts(body, whole, fraction)
    && (|whole| > 1 ==> whole[0] != '0')
  }

  function ParseValue(t: string): (r: Parse<Json>)
    ensures r.Got? ==> |r.rest| < |t|
    decreases |t|, 2
  {
    if t == [] then Fail
    else if t[0] == '\"' then
      var s := DecodeString(t[1..]);
      if s.Got? then Got(JStr(s.value), s.rest) else Fail
    else if t[0] == '[' then
      if |t| > 1 && t[1] == ']' then Got(JArr([]), t[2..]) else
        var r := ParseItems(t[1..]);
        if r.Got? then Got(JArr(r.value), r.rest) else Fail
    else if t[0] == '{' then
      if |t| > 1 && t[1] == '}' then Got(JObj([]), t[2..]) else
        var r := ParseFields(t[1..]);
        if r.Got? then Got(JObj(r.value), r.rest) else Fail
    else
      var n := NumberSpan(t);
      if n == 0 then Fail else Got(JNum(t[..n]), t[n..])
  }

  function ParseItems(t: string): (r: Parse<seq<Json>>)
    ensures r.Got? ==> |r.rest| < |t|
    decreases |t|, 3
  {
    var v := ParseValue(t);
    if v.Fail? || v.rest == [] then Fail
    else if v.rest[0] == ']' then Got([v.value], v.rest[1..])
    else if v.rest[0] == ',' then
      var more := ParseItems(v.rest[1..]);
      if more.Got? then Got([v.value] + more.value, more.rest) else Fail
    else Fail
  }

  function ParseField(t: string): (r: Parse<Field>)
    ensures r.Got? ==> |r.rest| < |t|
    decreases |t|, 3
  {
    if t == [] || t[0] != '\"' then Fail else
      var name := DecodeString(t[1..]);
      if name.Fail? || name.rest == [] || name.rest[0] != ':' then Fail else
        var v := ParseValue(name.rest[1..]);
        if v.Got? then Got(Field(name.value, v.value), v.rest) else Fail
  }

  function ParseFields(t: string): (r: Parse<seq<Field>>)
    ensures r.Got? ==> |r.rest| < |t|
    decreases |t|, 4
  {
    var f := ParseField(t);
    if f.Fail? || f.rest == [] then Fail
    else if f.rest[0] == '}' then Got([f.value], f.rest[1..])
    else if f.rest[0] == ',' then
      var more := ParseFields(f.rest[1..]);
      if more.Got? then Got([f.value] + more.value, more.rest) else Fail
    else Fail
  }

  /** `json.loads` on a text without insignificant white space. */
  function Loads(t: string): Option<Json> {
    var v := ParseValue(t);
    if v.Got? && v.rest == [] then Some(v.value) else None
  }

  // ---- the printer and the reader are inverse --------------------------------------

  /** A value whose names are words and whose number tokens are JSON numbers. */
  ghost predicate Shaped(j: Json)
    decreases j, 0
  {
    match j
    case JStr(s) => true
    case JNum(token) => IsNumber(token)
    case JArr(items) => forall i :: 0 <= i < |items| ==> Shaped(items[i])
    case JObj(fields) => ShapedFields(fields)
  }

  ghost predicate ShapedField(f: Field)
    decreases f, 1
  {
    All(f.name, IsWord) && Shaped(f.value)
  }

  ghost predicate ShapedFields(fields: seq<Field>)
    decreases fields, 0
  {
    forall i :: 0 <= i < |fields| ==> ShapedField(fields[i])
  }

  /** A value all of whose strings survive printing and reading. */
  ghost predicate CleanJson(j: Json)
    decreases j, 0
  {
    match j
    case JStr(s) => Clean(s)
    case JNum(token) => true
    case JArr(items) => forall i :: 0 <= i < |items| ==> CleanJson(items[i])
    case JObj(fields) => CleanFields(fields)
  }

  ghost predicate CleanFields(fields: seq<Field>)
    decreases fields, 0
  {
    forall i :: 0 <= i < |fields| ==> CleanJson(fields[i].value)
  }

  lemma FieldsConcat(a: seq<Field>, b: seq<Field>)
    ensures ShapedFields(a + b) <==> ShapedFields(a) && ShapedFields(b)
    ensures CleanFields(a + b) <==> CleanFields(a) && CleanFields(b)
  {
    assert forall i :: 0 <= i < |a| ==> (a + b)[i] == a[i];
    assert forall i :: 0 <= i < |b| ==> (a + b)[|a| + i] == b[i];
  }

  lemma Fields1(a: Field)
    ensures ShapedFields([a]) <==> ShapedField(a)
    ensures CleanFields([a]) <==> CleanJson(a.value)
  {
    assert [a][0] == a;
  }

  lemma Fields2(a: Field, b: Field)
    ensures ShapedFields([a, b]) <==> ShapedField(a) && ShapedField(b)
    ensures CleanFields([a, b]) <==> CleanJson(a.value) && CleanJson(b.value)
  {
    assert [a, b][0] == a && [a, b][1] == b;
  }

  lemma Fields3(a: Field, b: Field, c: Field)
    ensures ShapedFields([a, b, c]) <==> ShapedField(a) && ShapedField(b) && ShapedField(c)
    ensures CleanFields([a, b, c]) <==> CleanJson(a.value) && CleanJson(b.value) && CleanJson(c.value)
  {
    assert [a, b, c][0] == a && [a, b, c][1] == b && [a, b, c][2] == c;
  }

  lemma Fields4(a: Field, b: Field, c: Field, d: Field)
    ensures ShapedFields([a, b, c, d]) <==> ShapedField(a) && ShapedField(b) && ShapedField(c) && ShapedField(d)
    ensures CleanFields([a, b, c, d])
            <==> CleanJson(a.value) && CleanJson(b.value) && CleanJson(c.value) && CleanJson(d.value)
  {
    var s := [a, b, c, d];
    assert s[0] == a && s[1] == b && s[2] == c && s[3] == d;
  }

  /** What may follow a value: the end of the text or a structural character. */
  ghost predicate Closes(rest: string) {
    rest == [] || rest[0] == ',' || rest[0] == ']' || rest[0] == '}'
  }

  lemma UnsignedSpanStops(body: string, whole: string, fraction: string, rest: string)
    requires DecimalParts(body, whole, fraction) && (|whole| > 1 ==> whole[0] != '0')
    requires Closes(rest)
    ensures body != [] && UnsignedSpan(body + rest) == |body| && IsDigit((body + rest)[0])
  {
    assert IsDigit(whole[0]) && (fraction != [] ==> IsDigit(fraction[0]));
    ClosesIsPlain(rest);
    hide Span, All, IsDigit, Closes, UnsignedSpan;
    assert (body + rest)[0] == whole[0];
    if fraction == [] {
      SpanStops(whole, rest, IsDigit);
      UnsignedWhole(body + rest, |whole|);
    } else {
      AroundDot(whole, fraction, rest);
      DotIsNoDigit();
      SpanStops(whole, "." + (fraction + rest), IsDigit);
      SpanStops(fraction, rest, IsDigit);
      UnsignedDotted(body + rest, |whole|, |fraction|);
    }
  }

  lemma DotIsNoDigit()
    ensures !IsDigit('.')
  {}

  lemma ClosesIsPlain(rest: string)
    requires Closes(rest)
    ensures rest == [] || (!IsDigit(rest[0]) && rest[0] != '.')
  {}

  lemma UnsignedWhole(t: string, n: nat)
    requires t != [] && IsDigit(t[0]) && Span(t, IsDigit) == n && (t[0] == '0' ==> n == 1)
    requires n + 1 < |t| ==> t[n] != '.'
    ensures UnsignedSpan(t) == n
  {
    hide Span, IsDigit;
  }

  lemma UnsignedDotted(t: string, n: nat, m: nat)
    requires t != [] && IsDigit(t[0]) && Span(t, IsDigit) == n && (t[0] == '0' ==> n == 1)
    requires n + 1 < |t| && t[n] == '.' && IsDigit(t[n + 1]) && Span(t[n + 1..], IsDigit) == m
    ensures UnsignedSpan(t) == n + 1 + m
  {
    hide Span, IsDigit;
  }

  lemma NumberSpanStops(token: string, sign: string, body: string, whole: string, fraction: string, rest: string)
    requires NumberParts(token, sign, body, whole, fraction) && Closes(rest)
    ensures token != [] && (token[0] == '-' || IsDigit(token[0]))
    ensures NumberSpan(token + rest) == |token|
  {
    hide UnsignedSpan, DecimalParts;
    UnsignedSpanStops(body, whole, fraction, rest);
    assert body[0] == (body + rest)[0];
    assert token + rest == sign + (body + rest);
    assert (token + rest)[|sign|..] == body + rest;
    assert (token + rest)[0] == token[0];
  }

  lemma NumberRoundTrip(token: string, rest: string)
    requires IsNumber(token) && Closes(rest)
    ensures ParseValue(token + rest) == Got(JNum(token), rest)
    ensures token != [] && (token[0] == '-' || IsDigit(token[0]))
  {
    hide NumberSpan, DecimalParts;
    var sign, body, whole, fraction :| NumberParts(token, sign, body, whole, fraction);
    NumberSpanStops(token, sign, body, whole, fraction, rest);
    var t := token + rest;
    assert t[0] == token[0];
    assert t[..|token|] == token && t[|token|..] == rest;
  }

  /** Reading a printed value gives it back exactly when all its strings are clean, and fails
      otherwise. */
  lemma {:induction false} ValueRoundTrip(j: Json, rest: string)
    requires Shaped(j) && Closes(rest)
    ensures ParseValue(Render(j) + rest) == if CleanJson(j) then Got(j, rest) else Fail
    decreases j, 1
  {
    match j
    case JStr(s) =>
      assert Render(j) + rest == "\"" + (Escape(s) + ("\"" + rest));
      EscapeRoundTrip(s, rest);
    case JNum(token) =>
      NumberRoundTrip(token, rest);
    case JArr(items) =>
      ArrayRoundTrip(items, rest);
    case JObj(fields) =>
      ObjectRoundTrip(fields, rest);
  }

  lemma {:induction false} ArrayRoundTrip(items: seq<Json>, rest: string)
    requires Shaped(JArr(items))
    ensures ParseValue(Render(JArr(items)) + rest) == if CleanJson(JArr(items)) then Got(JArr(items), rest) else Fail
    decreases items, 1
  {
    var t := Render(JArr(items)) + rest;
    if items == [] {
      assert t == "[]" + rest && t[2..] == rest;
    } else {
      assert t == "[" + (RenderItems(items) + ("]" + rest));
      ItemsRoundTrip(items, rest);
    }
  }

  lemma {:induction false} ObjectRoundTrip(fields: seq<Field>, rest: string)
    requires ShapedFields(fields)
    ensures ParseValue(Render(JObj(fields)) + rest) == if CleanFields(fields) then Got(JObj(fields), rest) else Fail
    decreases fields, 1
  {
    var t := Render(JObj(fields)) + rest;
    if fields == [] {
      assert t == "{}" + rest && t[2..] == rest;
    } else {
      assert t == "{" + (RenderFields(fields) + ("}" + rest));
      FieldsRoundTrip(fields, rest);
    }
  }

  lemma ParseItemsStep(t: string, v: Parse<Json>, close: char, tail: string)
    requires ParseValue(t) == v && (v.Got? ==> v.rest == [close] + tail)
    ensures v.Fail? ==> ParseItems(t) == Fail
    ensures v.Got? && close == ']' ==> ParseItems(t) == Got([v.value], tail)
    ensures v.Got? && close == ',' ==>
              ParseItems(t) == var more := ParseItems(tail);
                               if more.Got? then Got([v.value] + more.value, more.rest) else Fail
  {
    hide ParseValue;
    if v.Got? {
      assert v.rest[1..] == tail;
    }
  }

  lemma CleanSplit(items: seq<Json>)
    requires items != []
    ensures CleanJson(JArr(items)) <==> CleanJson(items[0]) && CleanJson(JArr(items[1..]))
    ensures Shaped(JArr(items)) ==> Shaped(items[0]) && Shaped(JArr(items[1..]))
  {
    assert forall i :: 0 <= i < |items| - 1 ==> items[1..][i] == items[i + 1];
    assert forall i :: 0 < i < |items| ==> items[i] == items[1..][i - 1];
  }

  lemma Nest(a: string, b: string, c: string, d: string)
    ensures (a + (b + c)) + d == a + (b + (c + d))
  {}

  lemma RenderItemsNest(items: seq<Json>, end: string)
    requires |items| > 1
    ensures RenderItems(items) + end == Render(items[0]) + ("," + (RenderItems(items[1..]) + end))
  {
    hide Render;
    Nest(Render(items[0]), ",", RenderItems(items[1..]), end);
  }

  lemma ItemsCons(items: seq<Json>, t: string, tail: string, rest: string)
    requires |items| > 1
    requires ParseValue(t) == if CleanJson(items[0]) then Got(items[0], "," + tail) else Fail
    requires ParseItems(tail) == if CleanJson(JArr(items[1..])) then Got(items[1..], rest) else Fail
    ensures ParseItems(t) == if CleanJson(JArr(items)) then Got(items, rest) else Fail
  {
    CleanSplit(items);
    hide ParseValue, ParseItems, CleanJson;
    ParseItemsStep(t, ParseValue(t), ',', tail);
    assert items == [items[0]] + items[1..];
  }

  lemma ItemsOne(j: Json, t: string, rest: string)
    requires ParseValue(t) == if CleanJson(j) then Got(j, "]" + rest) else Fail
    ensures ParseItems(t) == if CleanJson(JArr([j])) then Got([j], rest) else Fail
  {
    assert CleanJson(JArr([j])) <==> CleanJson(j) by {
      assert [j][0] == j;
    }
    hide ParseValue, ParseItems, CleanJson;
    ParseItemsStep(t, ParseValue(t), ']', rest);
  }

  lemma {:induction false} ItemsRoundTrip(items: seq<Json>, rest: string)
    requires items != [] && Shaped(JArr(items))
    ensures var t := RenderItems(items) + ("]" + rest);
            t[0] != ']' && ParseItems(t) == if CleanJson(JArr(items)) then Got(items, rest) else Fail
    decreases items, 0
  {
    CleanSplit(items);
    hide Render, ParseValue, ParseItems, CleanJson, Shaped;
    var t := RenderItems(items) + ("]" + rest);
    ValueHead(items[0]);
    if |items| == 1 {
      ValueRoundTrip(items[0], "]" + rest);
      assert items == [items[0]];
      ItemsOne(items[0], t, rest);
    } else {
      hide RenderItems;
      var tail := RenderItems(items[1..]) + ("]" + rest);
      RenderItemsNest(items, "]" + rest);
      ValueRoundTrip(items[0], "," + tail);
      ItemsRoundTrip(items[1..], rest);
      ItemsCons(items, t, tail, rest);
    }
  }

  lemma RenderFieldsNest(fields: seq<Field>, end: string)
    requires |fields| > 1
    ensures RenderFields(fields) + end == RenderField(fields[0]) + ("," + (RenderFields(fields[1..]) + end))
  {
    hide RenderField;
    Nest(RenderField(fields[0]), ",", RenderFields(fields[1..]), end);
  }

  lemma FieldsCons(fields: seq<Field>, t: string, tail: string, rest: string)
    requires |fields| > 1
    requires ParseField(t) == if CleanJson(fields[0].value) then Got(fields[0], "," + tail) else Fail
    requires ParseFields(tail) == if CleanFields(fields[1..]) then Got(fields[1..], rest) else Fail
    ensures ParseFields(t) == if CleanFields(fields) then Got(fields, rest) else Fail
  {
    hide ParseField, CleanJson, CleanFields;
    assert fields == [fields[0]] + fields[1..];
    FieldsConcat([fields[0]], fields[1..]);
    Fields1(fields[0]);
    assert ("," + tail)[1..] == tail;
  }

  lemma FieldsOne(f: Field, t: string, rest: string)
    requires ParseField(t) == if CleanJson(f.value) then Got(f, "}" + rest) else Fail
    ensures ParseFields(t) == if CleanFields([f]) then Got([f], rest) else Fail
  {
    hide ParseField, CleanJson, CleanFields;
    Fields1(f);
    assert ("}" + rest)[1..] == rest;
  }

  lemma {:induction false} FieldsRoundTrip(fields: seq<Field>, rest: string)
    requires fields != [] && ShapedFields(fields)
    ensures var t := RenderFields(fields) + ("}" + rest);
            t[0] != '}' && ParseFields(t) == if CleanFields(fields) then Got(fields, rest) else Fail
    decreases fields, 0
  {
    hide RenderField, ParseField, ParseFields, CleanJson, CleanFields;
    var t := RenderFields(fields) + ("}" + rest);
    if |fields| == 1 {
      FieldRoundTrip(fields[0], "}" + rest);
      assert fields == [fields[0]];
      FieldsOne(fields[0], t, rest);
    } else {
      hide RenderFields;
      var tail := RenderFields(fields[1..]) + ("}" + rest);
      RenderFieldsNest(fields, "}" + rest);
      FieldRoundTrip(fields[0], "," + tail);
      FieldsRoundTrip(fields[1..], rest);
      FieldsCons(fields, t, tail, rest);
    }
  }

  lemma {:induction false} FieldRoundTrip(f: Field, rest: string)
    requires ShapedField(f) && Closes(rest)
    ensures ParseField(RenderField(f) + rest) == if CleanJson(f.value) then Got(f, rest) else Fail
    ensures RenderField(f) != [] && RenderField(f)[0] == '\"'
    decreases f, 2
  {
    hide ParseValue, Render, Shaped, DecodeString, Escape, CleanJson;
    var tail := ":" + (Render(f.value) + rest);
    var t := RenderField(f) + rest;
    WordEscape(f.name);
    assert t == "\"" + (Escape(f.name) + ("\"" + tail));
    EscapeRoundTrip(f.name, tail);
    ValueRoundTrip(f.value, rest);
  }

  lemma WordEscape(name: string)
    requires All(name, IsWord)
    ensures Escape(name) == name && Clean(name)
  {
    EscapeIdentity(name);
  }

  /** No printed value begins with a closing bracket. */
  lemma ValueHead(j: Json)
    requires Shaped(j)
    ensures Render(j) != [] && Render(j)[0] != ']'
  {
    if j.JNum? {
      NumberRoundTrip(j.token, []);
    }
  }

  /** `json.loads` of a printed value is that value, unless one of its strings holds a control
      character other than newline, carriage return and tab: then it raises. */
  lemma LoadsRender(j: Json)
    requires Shaped(j)
    ensures Loads(Render(j)) == if CleanJson(j) then Some(j) else None
  {
    ValueRoundTrip(j, []);
    assert Render(j) + [] == Render(j);
  }

  // ---- a printed value is one line ---------------------------------------------------------

  lemma NumberSingleLine(token: string)
    requires IsNumber(token)
    ensures All(token, NotNewline)
  {
    var sign, body, whole, fraction :| NumberParts(token, sign, body, whole, fraction);
    AllConcat(whole, ".", NotNewline);
    AllConcat(whole + ".", fraction, NotNewline);
    AllConcat(sign, body, NotNewline);
  }

  lemma Glue(a: string, b: string, c: string)
    requires All(a, NotNewline) && All(b, NotNewline) && All(c, NotNewline)
    ensures All(a + (b + c), NotNewline) && All(a + b + c, NotNewline)
  {}

  /** Whatever its strings contain, a printed value has no raw newline. */
  lemma {:induction false} RenderSingleLine(j: Json)
    requires Shaped(j)
    ensures All(Render(j), NotNewline)
    decreases j, 1
  {
    match j
    case JStr(s) =>
      EscapeSingleLine(s);
      Glue("\"", Escape(s), "\"");
    case JNum(token) =>
      NumberSingleLine(token);
    case JArr(items) =>
      ItemsSingleLine(items);
      Glue("[", RenderItems(items), "]");
    case JObj(fields) =>
      FieldsSingleLine(fields);
      Glue("{", RenderFields(fields), "}");
  }

  lemma {:induction false} ItemsSingleLine(items: seq<Json>)
    requires Shaped(JArr(items))
    ensures All(RenderItems(items), NotNewline)
    decreases items, 0
  {
    hide Render, All;
    if items == [] {
      NoNewlineInEmpty();
    } else {
      RenderSingleLine(items[0]);
      ItemsSingleLine(items[1..]);
      CommaSingleLine();
      Glue(Render(items[0]), ",", RenderItems(items[1..]));
    }
  }

  lemma {:induction false} FieldsSingleLine(fields: seq<Field>)
    requires ShapedFields(fields)
    ensures All(RenderFields(fields), NotNewline)
    decreases fields, 0
  {
    hide Render, RenderField, All;
    if fields == [] {
      NoNewlineInEmpty();
    } else {
      RenderSingleLine(fields[0].value);
      FieldSingleLine(fields[0]);
      FieldsSingleLine(fields[1..]);
      CommaSingleLine();
      Glue(RenderField(fields[0]), ",", RenderFields(fields[1..]));
    }
  }

  lemma FieldSingleLine(f: Field)
    requires ShapedField(f) && All(Render(f.value), NotNewline)
    ensures All(RenderField(f), NotNewline)
  {
    hide Render;
    Glue("\"", f.name, "\"");
    Glue(Quoted(f.name), ":", Render(f.value));
  }

  lemma CommaSingleLine()
    ensures All(",", NotNewline)
  {}

  lemma NoNewlineInEmpty()
    ensures All([], NotNewline)
  {}
}
