/** Request lines with optional blanks, as other JSON printers lay them out: the extractors read them like
    the compact ones. */
module Spaced {
  import opened Text
  import opened Json
  import opened Fields
  import opened Command
  import opened Wire

  /** A member with a text value and the blanks around its parts. */
  datatype Member = Member(lead: string, name: string, before: string, after: string, text: string, trail: string)

  predicate BlankChar(c: char) {
    IsSpace(c) && NotNewline(c)
  }

  ghost predicate GoodMember(m: Member) {
    && All(m.lead, BlankChar) && All(m.before, BlankChar) && All(m.after, BlankChar) && All(m.trail, BlankChar)
    && IsKey(m.name) && All(m.text, NotQuote)
  }

  function ValueText(m: Member): string {
    Quoted(Escape(m.text)) + m.trail
  }

  function MemberText(m: Member): string {
    m.lead + (Quoted(m.name) + (m.before + (":" + (m.after + ValueText(m)))))
  }

  function MembersText(ms: seq<Member>): string {
    if ms == [] then "" else if |ms| == 1 then MemberText(ms[0]) else MemberText(ms[0]) + ("," + MembersText(ms[1..]))
  }

  function LineText(ms: seq<Member>): string {
    "{" + (MembersText(ms) + "}")
  }

  lemma Blanks(b: string)
    requires All(b, BlankChar)
    ensures All(b, IsSpace) && All(b, NotNewline) && All(b, NotQuote)
  {}

  /** What follows the colon of a member. */
  lemma SkipValue(kind: Kind, m: Member, tail: string, key: string)
    requires GoodMember(m) && IsKey(key) && EndsField(tail)
    ensures Search(kind, m.after + (ValueText(m) + tail), key) == Search(kind, tail, key)
  {
    hide Search, All, IsSpace, IsWord, Escape;
    Blanks(m.after);
    Blanks(m.trail);
    var rest := m.trail + tail;
    assert ValueText(m) + tail == Quoted(Escape(m.text)) + rest;
    SkipPlain(kind, m.after, Quoted(Escape(m.text)) + rest, key);
    EscapeQuoteFree(m.text);
    AfterBlanks(m.trail, tail);
    SkipQuoted(kind, Escape(m.text), rest, key);
    SkipPlain(kind, m.trail, tail, key);
  }

  lemma AfterBlanks(blanks: string, tail: string)
    requires All(blanks, BlankChar) && EndsField(tail)
    ensures NoColon(blanks + tail) && !IsWord((blanks + tail)[0])
  {
    Blanks(blanks);
    SpanStops(blanks, tail, IsSpace);
    if blanks != [] {
      assert (blanks + tail)[0] == blanks[0];
    }
  }

  lemma BeforeColon(blanks: string, tail: string)
    requires All(blanks, BlankChar)
    ensures !IsWord((blanks + (":" + tail))[0])
  {
    if blanks != [] {
      assert (blanks + (":" + tail))[0] == blanks[0];
    }
  }

  lemma Regroup(m: Member, tail: string)
    ensures MemberText(m) + tail ==
            m.lead + (Quoted(m.name) + (m.before + (":" + (m.after + (ValueText(m) + tail)))))
  {
    hide ValueText;
    var v := ValueText(m);
    assert (m.after + v) + tail == m.after + (v + tail);
    assert (":" + (m.after + v)) + tail == ":" + (m.after + (v + tail));
    assert (m.before + (":" + (m.after + v))) + tail == m.before + (":" + (m.after + (v + tail)));
  }

  lemma SkipMember(kind: Kind, m: Member, tail: string, key: string)
    requires GoodMember(m) && IsKey(key) && m.name != key && EndsField(tail)
    ensures Search(kind, MemberText(m) + tail, key) == Search(kind, tail, key)
  {
    hide Search, All, IsSpace, IsWord, MemberText, ValueText;
    Blanks(m.lead);
    Blanks(m.before);
    KeyIsPlain(m.name);
    Regroup(m, tail);
    var value := m.after + (ValueText(m) + tail);
    var colon := m.before + (":" + value);
    SkipPlain(kind, m.lead, Quoted(m.name) + colon, key);
    BeforeColon(m.before, value);
    SkipQuoted(kind, m.name, colon, key);
    SkipPlain(kind, m.before, ":" + value, key);
    OneChar();
    SkipPlain(kind, ":", value, key);
    SkipValue(kind, m, tail, key);
  }

  lemma KeyIsPlain(name: string)
    requires IsKey(name)
    ensures All(name, NotQuote) && All(name, NotNewline)
  {}

  lemma OneChar()
    ensures All(":", NotQuote) && All(",", NotQuote) && All("{", NotQuote)
    ensures All(":", NotNewline) && All(",", NotNewline) && All("{", NotNewline) && All("}", NotNewline) && All("\"", NotNewline)
  {}

  lemma ValueCaptured(m: Member, tail: string)
    requires GoodMember(m)
    ensures var u := ValueText(m) + tail;
            u != [] && !IsSpace(u[0]) && Capture(TextValue, u) == Some(Escape(m.text))
  {
    hide All, Escape, Capture;
    EscapeQuoteFree(m.text);
    CaptureText(m.text, m.trail + tail);
    assert ValueText(m) + tail == Render(JStr(m.text)) + (m.trail + tail);
    QuoteIsNoSpace(ValueText(m) + tail);
  }

  lemma HitHere(m: Member, tail: string)
    requires GoodMember(m)
    ensures Here(TextValue, Quoted(m.name) + (m.before + (":" + (m.after + (ValueText(m) + tail)))), m.name) == Some(Escape(m.text))
  {
    hide All, IsSpace, Escape, ValueText, Capture, AfterKey;
    Blanks(m.before);
    Blanks(m.after);
    var u := ValueText(m) + tail;
    ValueCaptured(m, tail);
    AfterKeyComplete(Quoted(m.name) + (m.before + (":" + (m.after + u))), m.name, m.before, m.after, u);
  }

  lemma HitMember(m: Member, tail: string)
    requires GoodMember(m) && EndsField(tail)
    ensures Search(TextValue, MemberText(m) + tail, m.name) == Some(Escape(m.text))
  {
    hide All, IsSpace, MemberText, Escape, ValueText, Search, Here, Quoted;
    Blanks(m.lead);
    Regroup(m, tail);
    var t := Quoted(m.name) + (m.before + (":" + (m.after + (ValueText(m) + tail))));
    SkipPlain(TextValue, m.lead, t, m.name);
    HitHere(m, tail);
    SearchHit(TextValue, t, m.name);
  }

  lemma QuoteIsNoSpace(u: string)
    ensures u != [] && u[0] == '\"' ==> !IsSpace(u[0])
  {}

  lemma MembersNest(ms: seq<Member>, tail: string)
    requires |ms| > 1
    ensures MembersText(ms) + tail == MemberText(ms[0]) + ("," + (MembersText(ms[1..]) + tail))
  {
    hide MemberText;
    Nest(MemberText(ms[0]), ",", MembersText(ms[1..]), tail);
  }

  lemma {:induction false} FindMember(ms: seq<Member>, k: nat, tail: string)
    requires k < |ms| && EndsField(tail) && forall i :: 0 <= i < |ms| ==> GoodMember(ms[i])
    requires forall i :: 0 <= i < k ==> ms[i].name != ms[k].name
    ensures Search(TextValue, MembersText(ms) + tail, ms[k].name) == Some(Escape(ms[k].text))
  {
    hide Search, All, MemberText, Escape;
    if |ms| == 1 {
      HitMember(ms[0], tail);
    } else {
      var more := MembersText(ms[1..]) + tail;
      MembersNest(ms, tail);
      if k == 0 {
        HitMember(ms[0], "," + more);
      } else {
        SkipMember(TextValue, ms[0], "," + more, ms[k].name);
        OneChar();
        SkipPlain(TextValue, ",", more, ms[k].name);
        FindMember(ms[1..], k - 1, tail);
      }
    }
  }

  /** In a line of members with any blanks between their parts, the extractor finds the text of each name. */
  lemma GetMember(ms: seq<Member>, k: nat)
    requires k < |ms| && forall i :: 0 <= i < |ms| ==> GoodMember(ms[i])
    requires forall i :: 0 <= i < k ==> ms[i].name != ms[k].name
    ensures JsonGetString(LineText(ms), ms[k].name) == Some(Escape(ms[k].text))
  {
    hide Search, All, MembersText, Escape;
    OneChar();
    SkipPlain(TextValue, "{", MembersText(ms) + "}", ms[k].name);
    FindMember(ms, k, "}");
  }

  lemma {:induction false} MissMembers(kind: Kind, ms: seq<Member>, tail: string, key: string)
    requires ms != [] && EndsField(tail) && IsKey(key)
    requires forall i :: 0 <= i < |ms| ==> GoodMember(ms[i]) && ms[i].name != key
    ensures Search(kind, MembersText(ms) + tail, key) == Search(kind, tail, key)
  {
    hide Search, All, MemberText;
    if |ms| == 1 {
      SkipMember(kind, ms[0], tail, key);
    } else {
      var more := MembersText(ms[1..]) + tail;
      MembersNest(ms, tail);
      SkipMember(kind, ms[0], "," + more, key);
      OneChar();
      SkipPlain(kind, ",", more, key);
      MissMembers(kind, ms[1..], tail, key);
    }
  }

  lemma NothingAtEnd(kind: Kind, key: string)
    ensures Search(kind, "}", key) == None
  {
    assert "}"[1..] == "";
    assert Here(kind, "", key).None? && Here(kind, "}", key).None?;
  }

  /** A name no member has is not found, whatever the kind of value looked for. */
  lemma MissMember(kind: Kind, ms: seq<Member>, key: string)
    requires ms != [] && IsKey(key) && forall i :: 0 <= i < |ms| ==> GoodMember(ms[i]) && ms[i].name != key
    ensures Search(kind, LineText(ms), key) == None
  {
    hide Search, All, MembersText;
    OneChar();
    SkipPlain(kind, "{", MembersText(ms) + "}", key);
    MissMembers(kind, ms, "}", key);
    NothingAtEnd(kind, key);
  }

  lemma QuotedOneLine(s: string)
    requires All(s, NotNewline)
    ensures All(Quoted(s), NotNewline)
  {}

  lemma MemberOneLine(m: Member)
    requires GoodMember(m)
    ensures All(MemberText(m), NotNewline)
  {
    hide All, Escape, Quoted;
    Blanks(m.lead);
    Blanks(m.before);
    Blanks(m.after);
    Blanks(m.trail);
    KeyIsPlain(m.name);
    EscapeSingleLine(m.text);
    QuotedOneLine(m.name);
    QuotedOneLine(Escape(m.text));
    OneChar();
    AllConcat(Quoted(Escape(m.text)), m.trail, NotNewline);
    AllConcat(m.after, ValueText(m), NotNewline);
    AllConcat(":", m.after + ValueText(m), NotNewline);
    AllConcat(m.before, ":" + (m.after + ValueText(m)), NotNewline);
    AllConcat(Quoted(m.name), m.before + (":" + (m.after + ValueText(m))), NotNewline);
    AllConcat(m.lead, Quoted(m.name) + (m.before + (":" + (m.after + ValueText(m)))), NotNewline);
  }

  lemma {:induction false} MembersOneLine(ms: seq<Member>)
    requires forall i :: 0 <= i < |ms| ==> GoodMember(ms[i])
    ensures All(MembersText(ms), NotNewline)
  {
    hide MemberText;
    if ms != [] {
      MemberOneLine(ms[0]);
      MembersOneLine(ms[1..]);
    }
  }

  /** Such a line is one line, and trimming leaves it alone. */
  lemma LineIsOneLine(ms: seq<Member>)
    requires forall i :: 0 <= i < |ms| ==> GoodMember(ms[i])
    ensures All(LineText(ms), NotNewline) && LineText(ms) != "" && Trim(LineText(ms)) == LineText(ms)
  {
    hide All, MembersText, Trim;
    MembersOneLine(ms);
    OneChar();
    AllConcat(MembersText(ms), "}", NotNewline);
    AllConcat("{", MembersText(ms) + "}", NotNewline);
    var text := LineText(ms);
    assert text[0] == '{' && text[|text| - 1] == '}';
    TrimSolid(text);
  }

  // ---- the two layouts in use -------------------------------------------------------------------------------

  function Compact(name: string, text: string): Member {
    Member("", name, "", "", text, "")
  }

  /** `json.dumps`: a blank after every colon and every comma. */
  function Dumped(name: string, text: string, first: bool): Member {
    Member(if first then "" else " ", name, "", " ", text, "")
  }

  lemma {:induction false} CompactText(names: seq<string>, texts: seq<string>)
    requires |names| == |texts|
    ensures MembersText(seq(|names|, i requires 0 <= i < |names| => Compact(names[i], texts[i]))) ==
            RenderFields(seq(|names|, i requires 0 <= i < |names| => Str(names[i], texts[i])))
  {
    hide Escape;
    var ms := seq(|names|, i requires 0 <= i < |names| => Compact(names[i], texts[i]));
    var fs := seq(|names|, i requires 0 <= i < |names| => Str(names[i], texts[i]));
    if names != [] {
      CompactText(names[1..], texts[1..]);
      assert ms[1..] == seq(|names| - 1, i requires 0 <= i < |names| - 1 => Compact(names[1..][i], texts[1..][i]));
      assert fs[1..] == seq(|names| - 1, i requires 0 <= i < |names| - 1 => Str(names[1..][i], texts[1..][i]));
      CompactMember(names[0], texts[0]);
    }
  }

  lemma CompactMember(name: string, text: string)
    ensures MemberText(Compact(name, text)) == RenderField(Str(name, text))
  {
    hide Escape;
  }

  lemma CompactThree(n0: string, t0: string, n1: string, t1: string, n2: string, t2: string)
    ensures LineText([Compact(n0, t0), Compact(n1, t1), Compact(n2, t2)]) == ObjectText([Str(n0, t0), Str(n1, t1), Str(n2, t2)])
  {
    hide MembersText, RenderFields;
    var names, texts := [n0, n1, n2], [t0, t1, t2];
    CompactText(names, texts);
    assert [Compact(n0, t0), Compact(n1, t1), Compact(n2, t2)]
        == seq(|names|, i requires 0 <= i < |names| => Compact(names[i], texts[i]));
    assert [Str(n0, t0), Str(n1, t1), Str(n2, t2)] == seq(|names|, i requires 0 <= i < |names| => Str(names[i], texts[i]));
  }

  /** `json.dumps` of three text members that need no escaping. */
  function DumpsThree(n0: string, t0: string, n1: string, t1: string, n2: string, t2: string): string {
    "{" + Pair(n0, t0) + ", " + Pair(n1, t1) + ", " + Pair(n2, t2) + "}"
  }

  function Pair(name: string, text: string): string {
    "\"" + name + "\": \"" + text + "\""
  }

  lemma DumpedText(name: string, text: string, first: bool)
    requires Escape(text) == text
    ensures MemberText(Dumped(name, text, first)) == (if first then "" else " ") + Pair(name, text)
  {}

  lemma MembersThree(a: Member, b: Member, c: Member)
    ensures MembersText([a, b, c]) == MemberText(a) + ("," + (MemberText(b) + ("," + MemberText(c))))
  {
    hide MemberText;
    assert [a, b, c][1..] == [b, c] && [b, c][1..] == [c];
    assert MembersText([c]) == MemberText(c);
    assert MembersText([b, c]) == MemberText(b) + ("," + MemberText(c));
  }

  lemma DumpedThree(n0: string, t0: string, n1: string, t1: string, n2: string, t2: string)
    requires Escape(t0) == t0 && Escape(t1) == t1 && Escape(t2) == t2
    ensures LineText([Dumped(n0, t0, true), Dumped(n1, t1, false), Dumped(n2, t2, false)]) == DumpsThree(n0, t0, n1, t1, n2, t2)
  {
    hide MemberText, MembersText, Escape, Pair;
    MembersThree(Dumped(n0, t0, true), Dumped(n1, t1, false), Dumped(n2, t2, false));
    DumpedText(n0, t0, true);
    DumpedText(n1, t1, false);
    DumpedText(n2, t2, false);
    GlueThree(Pair(n0, t0), Pair(n1, t1), Pair(n2, t2));
  }

  lemma GlueThree(a: string, b: string, c: string)
    ensures "{" + ("" + a + ("," + (" " + b + ("," + (" " + c)))) + "}") == "{" + a + ", " + b + ", " + c + "}"
  {}

  lemma ReadThree(ms: seq<Member>)
    requires |ms| == 3 && GoodMember(ms[0]) && GoodMember(ms[1]) && GoodMember(ms[2])
    requires ms[0].name != ms[1].name && ms[0].name != ms[2].name && ms[1].name != ms[2].name
    ensures JsonGetString(LineText(ms), ms[0].name) == Some(Escape(ms[0].text))
    ensures JsonGetString(LineText(ms), ms[1].name) == Some(Escape(ms[1].text))
    ensures JsonGetString(LineText(ms), ms[2].name) == Some(Escape(ms[2].text))
  {
    hide GoodMember, LineText, JsonGetString, Escape;
    GetMember(ms, 0);
    GetMember(ms, 1);
    GetMember(ms, 2);
  }

  lemma ReadTwo(ms: seq<Member>)
    requires |ms| == 2 && GoodMember(ms[0]) && GoodMember(ms[1]) && ms[0].name != ms[1].name
    ensures JsonGetString(LineText(ms), ms[0].name) == Some(Escape(ms[0].text))
    ensures JsonGetString(LineText(ms), ms[1].name) == Some(Escape(ms[1].text))
  {
    hide GoodMember, LineText, JsonGetString, Escape;
    GetMember(ms, 0);
    GetMember(ms, 1);
  }

  lemma GoodCompact(name: string, text: string, first: bool)
    requires IsKey(name) && All(text, NotQuote)
    ensures GoodMember(Compact(name, text)) && GoodMember(Dumped(name, text, first))
  {}
}
